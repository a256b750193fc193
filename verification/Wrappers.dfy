/** Option and result values, and the error codes a durable call can end with. */
module Wrappers {

  datatype Option<+T> = None | Some(value: T)

  /** The error categories, in the order of their numbers. */
  datatype ErrorCode =
    | ConflictingId | Initialization | NonExistentWorkflow | ConflictingWorkflow
    | WorkflowCancelled | UnexpectedStep | AwaitedWorkflowCancelled | ConflictingRegistration
    | WorkflowUnexpectedType | WorkflowExecution | StepExecution | DeadLetterQueue
    | MaxStepRetriesExceeded | QueueDeduplicated | PatchingNotEnabled | Timeout
    | NoApplicationVersions

  datatype Result<+T> = Ok(value: T) | Err(code: ErrorCode)

  function Max(a: int, b: int): int { if a >= b then a else b }

  function Min(a: int, b: int): int { if a <= b then a else b }

  /** A subset is no larger than the set. */
  lemma SubsetSize<T>(a: set<T>, b: set<T>)
    requires a <= b
    ensures |a| <= |b|
  {
    assert a + (b - a) == b;
  }

  /** Sizes add up where nothing is shared. */
  lemma UnionSize<T>(a: set<T>, b: set<T>, c: set<T>)
    requires a !! b && c == a + b
    ensures |c| == |a| + |b|
  {
  }

  /** A sequence without repetition has as many members as positions. */
  lemma {:induction false} DistinctSize<T>(s: seq<T>)
    requires forall i, j :: 0 <= i < j < |s| ==> s[i] != s[j]
    ensures |set x | x in s| == |s|
  {
    if s == [] {
      assert (set x | x in s) == {};
    } else {
      var t := s[..|s| - 1];
      DistinctSize(t);
      assert (set x | x in s) == (set x | x in t) + {s[|s| - 1]};
    }
  }
}
