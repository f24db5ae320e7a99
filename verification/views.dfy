/**
 * The three status columns of the board, derived from the task list by
 * strict string comparison on `state`.
 */
module Views {
  import opened Tasks
  import opened Seqs

  predicate IsPending(t: Task) { t.state == PENDING }
  predicate IsInProgress(t: Task) { t.state == IN_PROGRESS }
  predicate IsCompleted(t: Task) { t.state == COMPLETED }

  /** The task's state is one of the three the board has a column for. */
  predicate HasKnownState(t: Task) { IsPending(t) || IsInProgress(t) || IsCompleted(t) }

  /** The "Pending" column. */
  function Pending(ts: seq<Task>): seq<Task> { Filter(IsPending, ts) }

  /** The "In Progress" column. */
  function InProgress(ts: seq<Task>): seq<Task> { Filter(IsInProgress, ts) }

  /** The "Completed" column. */
  function Completed(ts: seq<Task>): seq<Task> { Filter(IsCompleted, ts) }

  /**
   * The columns partition the tasks with a known state: each column keeps
   * list order, no task is in two columns, every task with a known state is
   * in one, a task with any other state is in none, and the columns hold,
   * copy for copy, exactly the tasks with a known state.
   */
  lemma {:induction false} ViewsPartition(ts: seq<Task>)
    ensures IsSubseq(Pending(ts), ts) && IsSubseq(InProgress(ts), ts) && IsSubseq(Completed(ts), ts)
    ensures forall t :: t in Pending(ts) ==> t !in InProgress(ts) && t !in Completed(ts)
    ensures forall t :: t in InProgress(ts) ==> t !in Completed(ts)
    ensures forall t :: t in ts && HasKnownState(t) ==>
      t in Pending(ts) || t in InProgress(ts) || t in Completed(ts)
    ensures forall t :: t in ts && !HasKnownState(t) ==>
      t !in Pending(ts) && t !in InProgress(ts) && t !in Completed(ts)
    ensures multiset(Pending(ts)) + multiset(InProgress(ts)) + multiset(Completed(ts))
         == multiset(Filter(HasKnownState, ts))
    ensures |Pending(ts)| + |InProgress(ts)| + |Completed(ts)| == |Filter(HasKnownState, ts)|
  {
    FilterMultisets(IsPending, ts);
    FilterMultisets(IsInProgress, ts);
    FilterMultisets(IsCompleted, ts);
    FilterMultisets(HasKnownState, ts);
    var lhs := multiset(Pending(ts)) + multiset(InProgress(ts)) + multiset(Completed(ts));
    assert forall t :: lhs[t] == multiset(Filter(HasKnownState, ts))[t];
  }

  /** A task appended to the list shows up at the bottom of its own column and no other. */
  lemma ViewsAppend(ts: seq<Task>, t: Task)
    ensures Pending(ts + [t]) == Pending(ts) + (if IsPending(t) then [t] else [])
    ensures InProgress(ts + [t]) == InProgress(ts) + (if IsInProgress(t) then [t] else [])
    ensures Completed(ts + [t]) == Completed(ts) + (if IsCompleted(t) then [t] else [])
  {
    FilterAppend(IsPending, ts, t);
    FilterAppend(IsInProgress, ts, t);
    FilterAppend(IsCompleted, ts, t);
  }
}
