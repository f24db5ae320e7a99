/**
 * The client's state as one immutable record, and one transition function
 * per event handler of the task board. A handler that talks to the server
 * is split in two: the request it sends, computed from the state, and the
 * reconciliation it applies once the server has answered; the answer is an
 * explicit `Outcome` argument.
 */
module TaskStore {
  import opened Wrappers
  import opened Tasks
  import Seqs

  /** The create form's three inputs. */
  datatype Form = Form(title: string, detail: string, dueDate: string)

  /** The create form when nothing has been typed. */
  const EmptyForm := Form("", "", "")

  /** Names of the create form's inputs. */
  datatype FormField = FormTitle | FormDetail | FormDueDate

  /**
   * Everything the board keeps: the cached task list, the create form, the
   * user-visible error line, and the edit session (the id of the task being
   * edited, if any, and its working copy).
   */
  datatype Store = Store(
    tasks: seq<Task>,
    form: Form,
    error: string,
    editingTaskId: Option<Id>,
    editFields: EditFields)

  /** The state before anything has happened: no tasks, empty inputs, no session. */
  const Initial := Store([], EmptyForm, "", None, NoEdit)

  /**
   * How a request ended. `Err` covers transport failures and non-2xx answers;
   * `serverTitle` is the `title` property of the error body, when there is one.
   */
  datatype Outcome<T> = Ok(body: T) | Err(serverTitle: Option<string>)

  /** The body of a create request. */
  datatype NewTask = NewTask(title: string, detail: string, dueDate: string, state: string)

  /** The request a handler sends, without the base URL. */
  datatype Request = List | Post(body: NewTask) | Put(id: Id, fields: EditFields) | Remove(id: Id)

  /** The handlers that talk to the server. */
  datatype Call = LoadCall | CreateCall | DeleteCall(id: Id) | UpdateCall(id: Id)

  /** The message shown when a create fails without a usable server message. */
  const AddTaskFailed: string := "Failed to add task."

  /** Reads one input of the create form. */
  function FormGet(f: Form, which: FormField): string {
    match which
    case FormTitle => f.title
    case FormDetail => f.detail
    case FormDueDate => f.dueDate
  }

  /**
   * What each handler sends. A create sends the form's inputs with the state
   * fixed to PENDING; an update sends the whole working copy to the task's
   * own path; a delete names the task; a load asks for the collection.
   */
  function RequestFor(s: Store, c: Call): (r: Request)
    ensures c.LoadCall? <==> r.List?
    ensures c.CreateCall? <==> r.Post?
    ensures r.Post? ==> r.body.state == PENDING
    ensures r.Post? ==> r.body.title == s.form.title && r.body.detail == s.form.detail && r.body.dueDate == s.form.dueDate
    ensures c.UpdateCall? ==> r.Put? && r.id == c.id && r.fields == s.editFields
    ensures c.DeleteCall? ==> r.Remove? && r.id == c.id
  {
    match c
    case LoadCall => List
    case CreateCall => Post(NewTask(s.form.title, s.form.detail, s.form.dueDate, PENDING))
    case DeleteCall(id) => Remove(id)
    case UpdateCall(id) => Put(id, s.editFields)
  }

  /** `fetchTasks`: a successful answer replaces the list verbatim; a failure changes nothing. */
  function Load(s: Store, o: Outcome<seq<Task>>): (r: Store)
    ensures o.Ok? ==> r.tasks == o.body
    ensures o.Ok? ==> r.form == s.form && r.error == s.error
    ensures o.Ok? ==> r.editingTaskId == s.editingTaskId && r.editFields == s.editFields
    ensures o.Err? ==> r == s
  {
    match o
    case Ok(ts) => s.(tasks := ts)
    case Err(_) => s
  }

  /**
   * The error line after a failed create: the server's message when it is
   * present and non-empty, the generic message otherwise. Never empty, so
   * the error line is always displayed.
   */
  function AddError(serverTitle: Option<string>): (msg: string)
    ensures msg != ""
    ensures serverTitle.Some? && serverTitle.value != "" ==> msg == serverTitle.value
    ensures serverTitle.None? || serverTitle.value == "" ==> msg == AddTaskFailed
  {
    match serverTitle
    case Some(m) => if m != "" then m else AddTaskFailed
    case None => AddTaskFailed
  }

  /**
   * `addTask`: on success the task the server returned (with the id the
   * server chose) goes at the end of the list, and the form and the error
   * line are cleared. On failure the list and the form stay as they were and
   * the error line shows the failure.
   */
  function Create(s: Store, o: Outcome<Task>): (r: Store)
    ensures o.Ok? ==> |r.tasks| == |s.tasks| + 1 && r.tasks[..|s.tasks|] == s.tasks && r.tasks[|s.tasks|] == o.body
    ensures o.Ok? ==> r.form == EmptyForm && r.error == ""
    ensures o.Err? ==> r.tasks == s.tasks && r.form == s.form && r.error == AddError(o.serverTitle)
    ensures r.editingTaskId == s.editingTaskId && r.editFields == s.editFields
  {
    match o
    case Ok(t) => s.(tasks := s.tasks + [t], form := EmptyForm, error := "")
    case Err(m) => s.(error := AddError(m))
  }

  /** The filter predicate of a delete: tasks whose id differs from `id`. */
  function OtherThan(id: Id): Task -> bool {
    (t: Task) => t.id != id
  }

  /**
   * `deleteTask`: on success every task with the given id is gone and every
   * other task stays, with all its copies, in its original relative order.
   * On failure nothing changes.
   */
  function Delete(s: Store, id: Id, o: Outcome<()>): (r: Store)
    ensures o.Ok? ==> Seqs.IsSubseq(r.tasks, s.tasks)
    ensures o.Ok? ==> forall t :: multiset(r.tasks)[t] == if t.id == id then 0 else multiset(s.tasks)[t]
    ensures o.Ok? ==> forall t :: t in r.tasks ==> t.id != id
    ensures o.Ok? ==> r.form == s.form && r.error == s.error
    ensures o.Ok? ==> r.editingTaskId == s.editingTaskId && r.editFields == s.editFields
    ensures o.Err? ==> r == s
  {
    match o
    case Ok(_) =>
      Seqs.FilterMultisets(OtherThan(id), s.tasks);
      s.(tasks := Seqs.Filter(OtherThan(id), s.tasks))
    case Err(_) => s
  }

  /** With unique ids, deleting a task that is present removes exactly one entry. */
  lemma {:induction false} RemoveUnique(ts: seq<Task>, id: Id)
    requires UniqueIds(ts) && HasId(ts, id)
    ensures |Seqs.Filter(OtherThan(id), ts)| == |ts| - 1
  {
    UniqueTail(ts);
    if ts[0].id == id {
      Seqs.FilterKeepsAll(OtherThan(id), ts[1..]);
    } else {
      var t :| t in ts && t.id == id;
      assert t in ts[1..];
      RemoveUnique(ts[1..], id);
    }
  }

  /**
   * A successful delete of a present id shrinks a list with unique ids by
   * exactly one; a successful delete of an absent id changes nothing.
   */
  lemma DeleteCount(s: Store, id: Id)
    requires UniqueIds(s.tasks)
    ensures HasId(s.tasks, id) ==> |Delete(s, id, Ok(())).tasks| == |s.tasks| - 1
    ensures !HasId(s.tasks, id) ==> Delete(s, id, Ok(())) == s
  {
    if HasId(s.tasks, id) {
      RemoveUnique(s.tasks, id);
    } else {
      Seqs.FilterKeepsAll(OtherThan(id), s.tasks);
    }
  }

  /** Repeating a delete that succeeded changes nothing more. */
  lemma DeleteIdempotent(s: Store, id: Id)
    ensures Delete(Delete(s, id, Ok(())), id, Ok(())) == Delete(s, id, Ok(()))
  {
    Seqs.FilterIdempotent(OtherThan(id), s.tasks);
  }

  /**
   * `updateTask`: on success every task with the given id now shows the
   * working copy in its editable fields and keeps its id and other
   * properties; every other task is untouched; the list keeps its length and
   * order; and the edit session is closed with a cleared working copy. On
   * failure nothing changes, the session included.
   */
  function Update(s: Store, id: Id, o: Outcome<()>): (r: Store)
    ensures o.Ok? ==> |r.tasks| == |s.tasks|
    ensures o.Ok? ==> forall i :: 0 <= i < |s.tasks| ==>
      r.tasks[i].id == s.tasks[i].id && r.tasks[i].rest == s.tasks[i].rest
    ensures o.Ok? ==> forall i :: 0 <= i < |s.tasks| && s.tasks[i].id == id ==>
      Snapshot(r.tasks[i]) == s.editFields && r.tasks[i].dueDate == Some(s.editFields.dueDate)
    ensures o.Ok? ==> forall i :: 0 <= i < |s.tasks| && s.tasks[i].id != id ==> r.tasks[i] == s.tasks[i]
    ensures o.Ok? ==> r.editingTaskId == None && r.editFields == NoEdit
    ensures o.Ok? ==> r.form == s.form && r.error == s.error
    ensures o.Err? ==> r == s
  {
    match o
    case Ok(_) =>
      var tasks := Seqs.Map((t: Task) => if t.id == id then Merge(t, s.editFields) else t, s.tasks);
      s.(tasks := tasks, editingTaskId := None, editFields := NoEdit)
    case Err(_) => s
  }

  /**
   * `handleEditClick`: opens an edit session on `t`, replacing any session
   * already open, with a snapshot of `t`'s editable fields.
   */
  function BeginEdit(s: Store, t: Task): (r: Store)
    ensures r.editingTaskId == Some(t.id)
    ensures r.editFields == Snapshot(t)
    ensures r.tasks == s.tasks && r.form == s.form && r.error == s.error
  {
    s.(editingTaskId := Some(t.id), editFields := Snapshot(t))
  }

  /** The Cancel button: closes the session but leaves the working copy as it was. */
  function Cancel(s: Store): (r: Store)
    ensures r.editingTaskId == None
    ensures r.editFields == s.editFields
    ensures r.tasks == s.tasks && r.form == s.form && r.error == s.error
  {
    s.(editingTaskId := None)
  }

  /** An input of the edit form: changes exactly one field of the working copy. */
  function EditField(s: Store, which: Field, v: string): (r: Store)
    ensures Get(r.editFields, which) == v
    ensures forall w :: w != which ==> Get(r.editFields, w) == Get(s.editFields, w)
    ensures r.editingTaskId == s.editingTaskId
    ensures r.tasks == s.tasks && r.form == s.form && r.error == s.error
  {
    s.(editFields := Set(s.editFields, which, v))
  }

  /** An input of the create form: changes exactly one of its three fields. */
  function FormInput(s: Store, which: FormField, v: string): (r: Store)
    ensures FormGet(r.form, which) == v
    ensures forall w :: w != which ==> FormGet(r.form, w) == FormGet(s.form, w)
    ensures r.tasks == s.tasks && r.error == s.error
    ensures r.editingTaskId == s.editingTaskId && r.editFields == s.editFields
  {
    match which
    case FormTitle => s.(form := s.form.(title := v))
    case FormDetail => s.(form := s.form.(detail := v))
    case FormDueDate => s.(form := s.form.(dueDate := v))
  }
}
