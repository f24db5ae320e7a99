/**
 * The task record as the client receives it from the server, the four
 * editable fields held during an edit session, and the two ways they
 * meet: taking a snapshot of a task's editable fields when an edit begins
 * (`handleEditClick`) and merging edited fields back over a task when the
 * edit is saved (`{ ...task, ...editFields }`).
 */
module Tasks {
  import opened Wrappers
  import Seqs

  /** Server-assigned task identifier (a JSON number); the client never makes one up. */
  type Id = int

  /** The three status values the board has a column for. */
  const PENDING: string := "PENDING"
  const IN_PROGRESS: string := "IN_PROGRESS"
  const COMPLETED: string := "COMPLETED"

  /**
   * A task object. `state` is kept as free text, because the board compares
   * it by string equality and a server may send any value. `dueDate` is
   * `None` when the `due_date` property is absent or null. `rest` holds any
   * further properties of the server's object, which the client never reads
   * but carries along: it stands for the properties other than `id`,
   * `title`, `detail`, `state` and `due_date`, each JSON value written as
   * text.
   */
  datatype Task = Task(
    id: Id,
    title: string,
    detail: string,
    state: string,
    dueDate: Option<string>,
    rest: map<string, string>)

  /** The working copy of a task's editable fields (the `editFields` object). */
  datatype EditFields = EditFields(title: string, detail: string, state: string, dueDate: string)

  /** The cleared working copy: four empty strings. */
  const NoEdit := EditFields("", "", "", "")

  /** Names of the editable fields, one per input of the edit form. */
  datatype Field = Title | Detail | State | DueDate

  /** Reads one editable field. */
  function Get(f: EditFields, which: Field): string {
    match which
    case Title => f.title
    case Detail => f.detail
    case State => f.state
    case DueDate => f.dueDate
  }

  /** Replaces one editable field (`{ ...editFields, [which]: v }`); the other three are kept. */
  function Set(f: EditFields, which: Field, v: string): (r: EditFields)
    ensures Get(r, which) == v
    ensures forall w :: w != which ==> Get(r, w) == Get(f, w)
  {
    match which
    case Title => f.(title := v)
    case Detail => f.(detail := v)
    case State => f.(state := v)
    case DueDate => f.(dueDate := v)
  }

  /**
   * The working copy an edit session starts from: title, detail and state
   * verbatim, and the due date with an absent or empty value turned into "".
   */
  function Snapshot(t: Task): (f: EditFields)
    ensures f.title == t.title && f.detail == t.detail && f.state == t.state
    ensures t.dueDate.Some? ==> f.dueDate == t.dueDate.value
    ensures t.dueDate.None? ==> f.dueDate == ""
  {
    EditFields(t.title, t.detail, t.state, t.dueDate.GetOr(""))
  }

  /**
   * The shallow merge `{ ...task, ...editFields }`: the editable fields come
   * from `f`, and the id and every property the client does not edit come
   * from `t`. The merged task's due date is always present.
   */
  function Merge(t: Task, f: EditFields): (r: Task)
    ensures r.id == t.id && r.rest == t.rest
    ensures Snapshot(r) == f
    ensures r.dueDate.Some?
  {
    Task(t.id, f.title, f.detail, f.state, Some(f.dueDate), t.rest)
  }

  /** Saving an unchanged snapshot gives the task back, once its due date is present. */
  lemma MergeSnapshot(t: Task)
    ensures t.dueDate.Some? ==> Merge(t, Snapshot(t)) == t
    ensures t.dueDate.None? ==> Merge(t, Snapshot(t)) == t.(dueDate := Some(""))
  {
  }

  /** A second merge overrides everything the first one wrote. */
  lemma MergeMerge(t: Task, f: EditFields, g: EditFields)
    ensures Merge(Merge(t, f), g) == Merge(t, g)
  {
  }

  /** No two tasks of `ts` share an id. */
  predicate UniqueIds(ts: seq<Task>) {
    forall i, j :: 0 <= i < |ts| && 0 <= j < |ts| && ts[i].id == ts[j].id ==> i == j
  }

  /** Some task of `ts` has id `id`. */
  predicate HasId(ts: seq<Task>, id: Id) {
    exists t :: t in ts && t.id == id
  }

  /** Tasks at different positions of a list with unique ids have different ids. */
  lemma UniqueTail(ts: seq<Task>)
    requires |ts| > 0 && UniqueIds(ts)
    ensures UniqueIds(ts[1..])
    ensures forall t :: t in ts[1..] ==> t.id != ts[0].id
  {
  }

  /** Dropping tasks from a list with unique ids leaves a list with unique ids. */
  lemma {:induction false} SubseqUniqueIds(a: seq<Task>, b: seq<Task>)
    requires Seqs.IsSubseq(a, b) && UniqueIds(b)
    ensures UniqueIds(a)
    decreases |b|
  {
    if |a| > 0 {
      UniqueTail(b);
      if a[0] == b[0] && Seqs.IsSubseq(a[1..], b[1..]) {
        SubseqUniqueIds(a[1..], b[1..]);
        Seqs.SubseqMembers(a[1..], b[1..]);
        forall i, j | 0 <= i < |a| && 0 <= j < |a| && a[i].id == a[j].id
          ensures i == j
        {
          if i > 0 { assert a[i] == a[1..][i - 1]; }
          if j > 0 { assert a[j] == a[1..][j - 1]; }
          if i > 0 && j > 0 { assert a[1..][i - 1].id == a[1..][j - 1].id; }
        }
      } else {
        SubseqUniqueIds(a, b[1..]);
      }
    }
  }
}
