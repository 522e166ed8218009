/** How the way a job's body ends decides how the controller counts the job:
    module MagnumJob's report, handed to module BatchSpec's `Complete`. */
module JobOutcome {
  import opened Wrappers
  import opened Throwables
  import opened BatchSpec
  import opened BatchProofs
  import opened AppLog
  import opened MagnumJob

  /** The admission or conclusion that follows a completion never touches a
      job that has already left the queue. */
  lemma {:induction false} CompleteLeavesOthers(s: Sched, j: int, e: Option<Throwable>, k: int)
    requires Consistent(s) && 0 <= j < |s.states| && 0 <= k < |s.states| && k != j
    requires s.states[k] != Queued
    ensures Complete(s, j, e).states[k] == s.states[k]
  {
    assert k < s.next;
  }

  /** A reported run is counted as finished exactly when its body returned
      and the batch was not stopped; as aborted when the batch was stopped or
      the body threw an Exception; and as lost (counted nowhere) when the
      body ran out of memory in a batch that was not stopped.  `flag` is the
      stop flag as `run` read it; if it was up then, it is still up when the
      completion is handled (lemma BatchProofs.StopIsSticky). */
  lemma CountedAs(s: Sched, j: int, body: BodyEnd, flag: bool)
    requires Inv(s) && 0 <= j < |s.states| && s.states[j] == Running
    requires RunExitOf(body, flag).Reported?
    requires flag ==> s.interrupted
    ensures var r := Complete(s, j, RunExitOf(body, flag).error);
      && (r.states[j] == Finished <==> !s.interrupted && body.Returned?)
      && (r.states[j] == Aborted <==> s.interrupted || (body.Threw? && body.thrown.Exception?))
      && (r.states[j] == Lost <==> !s.interrupted && body.Threw? && body.thrown.OutOfMemoryError?)
  {
  }

  /** A job whose thread dies of an Error other than out-of-memory never
      reports: it stays running in the controller's books, and whatever else
      happens the batch never reaches `allJobsDone`. */
  lemma {:induction false} EscapedJobBlocksBatch(s: Sched, j: int, t: seq<Event>)
    requires Inv(s) && 0 <= j < |s.states| && s.states[j] == Running
    requires ValidTrace(s, t)
    requires forall k :: 0 <= k < |t| ==> !(t[k].Completion? && t[k].job == j)
    ensures var r := RunTrace(s, t);
      && r.states[j] == Running && r.running >= 1 && !r.allDone
    decreases |t|
  {
    if |t| == 0 {
      CountOfPositive(s.states, j, Running);
    } else {
      var s1 := Handle(s, t[0]);
      HandleKeeps(s, t[0]);
      assert !(t[0].Completion? && t[0].job == j);
      if t[0].Completion? {
        assert t[0].job != j;
        var k := t[0].job;
        assert s.states[j] != Queued;
        CompleteLeavesOthers(s, k, t[0].error, j);
      }
      assert s1.states[j] == Running;
      assert forall k :: 0 <= k < |t[1..]| ==> t[1..][k] == t[k + 1];
      EscapedJobBlocksBatch(s1, j, t[1..]);
    }
  }

  /** Two jobs run out of memory.  The first is lost and raises the stop
      flag; the flag stays up while the second runs, so whenever its
      out-of-memory handler prints, the logger's checkpoint throws, the
      thread dies without reporting, and the batch never reaches
      `allJobsDone`, whatever else happens. */
  lemma SecondOutOfMemoryBlocksBatch(s: Sched, j: int, k: int, t: seq<Event>)
    requires Inv(s) && !s.interrupted
    requires 0 <= j < |s.states| && 0 <= k < |s.states| && j != k
    requires s.states[j] == Running && s.states[k] == Running
    requires ValidTrace(Complete(s, j, Some(OutOfMemoryError)), t)
    requires forall i :: 0 <= i < |t| ==> !(t[i].Completion? && t[i].job == k)
    ensures var s1 := Complete(s, j, Some(OutOfMemoryError));
      var r := RunTrace(s1, t);
      && LostJobs(s1) == 1 && r.interrupted
      && RunExitOf(Threw(OutOfMemoryError), r.interrupted) == Escaped(Exception(InterruptMessage))
      && r.states[k] == Running && !r.allDone
  {
    var e := Some(OutOfMemoryError);
    var s1 := Complete(s, j, e);
    RetireKeeps(s, j, e);
    CompleteKeeps(s, j, e);
    CompleteLeavesOthers(s, j, e, k);
    StopIsSticky(s1, t, k, None);
    EscapedJobBlocksBatch(s1, k, t);
  }
}
