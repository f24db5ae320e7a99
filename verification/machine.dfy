/**
 * The board as one state machine: every user action and every server
 * answer is an event, and a session is a run of events applied one after
 * another (one handler finishes before the next starts). The properties
 * here relate several operations: the unique-id invariant of the cached
 * list, and the round trips between the edit session and the list.
 */
module Machine {
  import opened Wrappers
  import opened Tasks
  import opened TaskStore
  import opened Views

  /** Something that changes the board's state. */
  datatype Event =
    | Loaded(list: Outcome<seq<Task>>)
    | Created(created: Outcome<Task>)
    | Deleted(deleteId: Id, deleted: Outcome<()>)
    | Updated(updateId: Id, updated: Outcome<()>)
    | EditClicked(task: Task)
    | Cancelled
    | EditInput(field: Field, editValue: string)
    | FormTyped(formField: FormField, formValue: string)

  /** The handler for one event. */
  function Step(s: Store, e: Event): Store {
    match e
    case Loaded(o) => Load(s, o)
    case Created(o) => Create(s, o)
    case Deleted(id, o) => Delete(s, id, o)
    case Updated(id, o) => Update(s, id, o)
    case EditClicked(t) => BeginEdit(s, t)
    case Cancelled => Cancel(s)
    case EditInput(w, v) => EditField(s, w, v)
    case FormTyped(w, v) => FormInput(s, w, v)
  }

  /** The events applied in order. */
  function Run(s: Store, es: seq<Event>): Store
    decreases |es|
  {
    if |es| == 0 then s else Run(Step(s, es[0]), es[1..])
  }

  /**
   * What the client relies on the server for: a listed collection has
   * unique ids, and a created task gets an id not already in the list.
   */
  predicate ServerKeepsIdsUnique(s: Store, e: Event) {
    && (e.Loaded? && e.list.Ok? ==> UniqueIds(e.list.body))
    && (e.Created? && e.created.Ok? ==> !HasId(s.tasks, e.created.body.id))
  }

  /** Every event of the run, at the state it arrives in, meets `ServerKeepsIdsUnique`. */
  predicate ServerKeepsIdsUniqueThroughout(s: Store, es: seq<Event>)
    decreases |es|
  {
    |es| == 0 || (ServerKeepsIdsUnique(s, es[0]) && ServerKeepsIdsUniqueThroughout(Step(s, es[0]), es[1..]))
  }

  /** One handler keeps the ids of the cached list unique. */
  lemma StepKeepsIdsUnique(s: Store, e: Event)
    requires UniqueIds(s.tasks) && ServerKeepsIdsUnique(s, e)
    ensures UniqueIds(Step(s, e).tasks)
  {
    match e
    case Created(Ok(t)) =>
      var ts := Step(s, e).tasks;
      assert ts == s.tasks + [t];
      assert forall k :: 0 <= k < |s.tasks| ==> s.tasks[k].id != t.id by {
        assert forall k :: 0 <= k < |s.tasks| ==> s.tasks[k] in s.tasks;
      }
    case Deleted(id, Ok(_)) =>
      SubseqUniqueIds(Step(s, e).tasks, s.tasks);
    case _ =>
  }

  /**
   * Starting from a list with unique ids (the initial empty list has them),
   * every run keeps them, as long as the server keeps its side.
   */
  lemma {:induction false} RunKeepsIdsUnique(s: Store, es: seq<Event>)
    requires UniqueIds(s.tasks) && ServerKeepsIdsUniqueThroughout(s, es)
    ensures UniqueIds(Run(s, es).tasks)
    decreases |es|
  {
    if |es| > 0 {
      StepKeepsIdsUnique(s, es[0]);
      RunKeepsIdsUnique(Step(s, es[0]), es[1..]);
    }
  }

  /** The server answered a request with a failure. */
  predicate IsFailedAnswer(e: Event) {
    match e
    case Loaded(o) => o.Err?
    case Created(o) => o.Err?
    case Deleted(_, o) => o.Err?
    case Updated(_, o) => o.Err?
    case _ => false
  }

  /** A failed request never touches the list or the edit session. */
  lemma FailureKeepsTasks(s: Store, e: Event)
    requires IsFailedAnswer(e)
    ensures Step(s, e).tasks == s.tasks
    ensures Step(s, e).editingTaskId == s.editingTaskId && Step(s, e).editFields == s.editFields
    ensures Step(s, e).form == s.form
    ensures !e.Created? ==> Step(s, e) == s
  {
  }

  /**
   * Opening an edit session on a listed task and saving it unchanged gives
   * the list back (given unique ids and a present due date), and closes the
   * session.
   */
  lemma EditRoundTrip(s: Store, i: nat)
    requires UniqueIds(s.tasks) && i < |s.tasks| && s.tasks[i].dueDate.Some?
    ensures Update(BeginEdit(s, s.tasks[i]), s.tasks[i].id, Ok(())).tasks == s.tasks
    ensures Update(BeginEdit(s, s.tasks[i]), s.tasks[i].id, Ok(())).editingTaskId == None
  {
  }

  /**
   * Two saves without an intervening server change: the list after the
   * second save depends only on the second working copy.
   */
  lemma UpdateOverrides(s: Store, id: Id, f: EditFields, g: EditFields)
    ensures Update(Update(s.(editFields := f), id, Ok(())).(editFields := g), id, Ok(())).tasks
         == Update(s.(editFields := g), id, Ok(())).tasks
  {
  }

  /**
   * A successful update followed by a successful load leaves the same list
   * as the load alone. The edit session is not part of this: the update
   * closed it.
   */
  lemma UpdateThenLoad(s: Store, id: Id, o: Outcome<()>, ts: seq<Task>)
    ensures Load(Update(s, id, o), Ok(ts)).tasks == Load(s, Ok(ts)).tasks
    ensures o.Ok? ==> Load(Update(s, id, o), Ok(ts)).editingTaskId == None
  {
  }

  /**
   * The other half of `UpdateThenLoad`: whenever an edit session is open,
   * the two states differ, because the update closed the session and the
   * load alone does not.
   */
  lemma UpdateThenLoadDiffers(s: Store, id: Id, ts: seq<Task>)
    requires s.editingTaskId.Some?
    ensures Load(Update(s, id, Ok(())), Ok(ts)) != Load(s, Ok(ts))
  {
  }

  /** A created task appears at the bottom of the column of its state and nowhere else. */
  lemma CreateShowsInColumn(s: Store, t: Task)
    ensures var r := Create(s, Ok(t)).tasks;
      && Pending(r) == Pending(s.tasks) + (if IsPending(t) then [t] else [])
      && InProgress(r) == InProgress(s.tasks) + (if IsInProgress(t) then [t] else [])
      && Completed(r) == Completed(s.tasks) + (if IsCompleted(t) then [t] else [])
  {
    ViewsAppend(s.tasks, t);
  }

  /** Two inputs of the edit form touch different fields, so their order does not matter. */
  lemma EditInputsCommute(s: Store, a: Field, b: Field, x: string, y: string)
    requires a != b
    ensures EditField(EditField(s, a, x), b, y) == EditField(EditField(s, b, y), a, x)
  {
  }

  /** Cancelling and then opening another session is the same as opening it directly. */
  lemma CancelThenEdit(s: Store, t: Task)
    ensures BeginEdit(Cancel(s), t) == BeginEdit(s, t)
  {
  }

  /**
   * Any listed task whose state is edited to COMPLETED and saved stays at
   * its position, and is then in the Completed column and in no other.
   */
  lemma CompleteTask(s: Store, i: nat)
    requires i < |s.tasks|
    ensures var r := Update(EditField(BeginEdit(s, s.tasks[i]), State, COMPLETED), s.tasks[i].id, Ok(())).tasks;
      && r[i].state == COMPLETED
      && r[i] in Completed(r) && r[i] !in Pending(r) && r[i] !in InProgress(r)
  {
  }

  /**
   * The one-task example: a single pending task moved to COMPLETED through
   * the edit form leaves the Pending column and shows up only in the
   * Completed column.
   */
  lemma CompleteOneTask()
    ensures
      var t := Task(1, "Write report", "", PENDING, None, map[]);
      var s := Initial.(tasks := [t]);
      var r := Update(EditField(BeginEdit(s, t), State, COMPLETED), 1, Ok(()));
      && r.tasks == [t.(state := COMPLETED, dueDate := Some(""))]
      && Pending(r.tasks) == [] && InProgress(r.tasks) == []
      && Completed(r.tasks) == r.tasks
  {
  }
}
