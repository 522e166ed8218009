/** What holds of the scheduler over any interleaving of completion events
    and stop requests, as handled one at a time on the event thread. */
module BatchProofs {
  import opened Wrappers
  import opened Throwables
  import opened BatchSpec

  /** No job stands in a state whose count is zero. */
  lemma {:induction false} CountOfZero(states: seq<JobState>, st: JobState)
    requires CountOf(states, st) == 0
    ensures forall i :: 0 <= i < |states| ==> states[i] != st
  {
    if |states| > 0 {
      CountOfZero(states[1..], st);
      assert forall i :: 1 <= i < |states| ==> states[i] == states[1..][i - 1];
    }
  }

  /** Conservation: every job is queued, running, finished, aborted or lost,
      at most one is lost, and with none lost the four counters sum to the
      number of jobs, as `assertJobCountsConsistency` claims. */
  lemma Conservation(s: Sched)
    requires Consistent(s)
    ensures s.queued + s.running + s.finished + s.aborted + LostJobs(s) == |s.states|
    ensures LostJobs(s) <= 1
    ensures LostJobs(s) == 0 ==> CountsBalanced(s)
  {
    CountOfTotal(s.states);
  }

  /** The invariants of every state the scheduler reaches from `start`,
      whatever the order in which completions and stop requests arrive:
      conservation, the cursor, bounded parallelism, admission in list order,
      and a full pool while jobs wait and the batch is not stopped. */
  lemma BatchInvariants(n: nat, cores: nat, interrupted: bool, t: seq<Event>)
    requires n > 0 && cores >= 1
    requires ValidTrace(Started(n, cores, interrupted), t)
    ensures var s := RunTrace(Started(n, cores, interrupted), t);
      && |s.states| == n
      && s.queued + s.running + s.finished + s.aborted + LostJobs(s) == n
      && LostJobs(s) <= 1
      && s.next == n - s.queued
      && 0 <= s.running <= cores
      && (forall i :: 0 <= i < n ==> (s.states[i] == Queued <==> s.next <= i))
      && (s.running == 0 ==> s.allDone || LostJobs(s) == 1)
      && (!s.interrupted && !s.allDone && s.queued > 0 ==> s.running == cores)
  {
    var s0 := Started(n, cores, interrupted);
    StartedShape(n, cores, interrupted);
    InvAlongTrace(s0, t);
    Conservation(RunTrace(s0, t));
  }

  /** The second half of `jobFinished`: when the batch is not stopped, a
      null or Exception completion with jobs still queued hands the freed
      core to the job at the cursor, so as many jobs run as before. */
  lemma CompletionRefillsPool(s: Sched, j: int, e: Option<Throwable>)
    requires Inv(s) && 0 <= j < |s.states| && s.states[j] == Running
    requires !s.interrupted && (e.None? || e.value.Exception?) && s.queued != 0
    ensures var r := Complete(s, j, e);
      && r.running == s.running && r.next == s.next + 1 && r.queued == s.queued - 1
      && r.states[s.next] == Running && !r.allDone
  {
    RetireKeeps(s, j, e);
    assert j < s.next;
  }

  /** Once a batch is over nothing more can happen: no job is running, so no
      completion can arrive, and the stop button is disabled.  Its status
      and the lowered stop flag are final. */
  lemma ConcludedIsFinal(s: Sched, t: seq<Event>)
    requires Inv(s) && s.allDone && ValidTrace(s, t)
    ensures |t| == 0 && RunTrace(s, t) == s
  {
    if |t| > 0 && t[0].Completion? {
      CountOfPositive(s.states, t[0].job, Running);
    }
  }

  /** Once the stop flag is up (or the batch is over), no job is admitted and
      none is counted as finished any more: every later completion is an
      abort. */
  lemma {:induction false} NoAdmissionAfterStop(s: Sched, t: seq<Event>)
    requires Inv(s) && (s.interrupted || s.allDone)
    requires ValidTrace(s, t)
    ensures var r := RunTrace(s, t);
      && r.next == s.next && r.queued == s.queued && r.finished == s.finished
      && r.aborted >= s.aborted
      && (r.interrupted || r.allDone)
    decreases |t|
  {
    if |t| > 0 {
      var s1 := Handle(s, t[0]);
      if t[0].Completion? {
        CountOfPositive(s.states, t[0].job, Running);
      }
      HandleKeeps(s, t[0]);
      NoAdmissionAfterStop(s1, t[1..]);
    }
  }

  /** While a job runs, nothing can lower a raised stop flag: only
      `allJobsDone` clears it, and it is only reached with no job running.
      So when that job's completion is finally handled it is counted as
      aborted, whatever it reports. */
  lemma {:induction false} StopIsSticky(s: Sched, t: seq<Event>, j: int, e: Option<Throwable>)
    requires Inv(s) && s.interrupted && 0 <= j < |s.states| && s.states[j] == Running
    requires ValidTrace(s, t)
    requires forall k :: 0 <= k < |t| ==> !(t[k].Completion? && t[k].job == j)
    ensures var r := RunTrace(s, t);
      && r.interrupted && r.states[j] == Running
      && Complete(r, j, e).states[j] == Aborted
      && Complete(r, j, e).finished == r.finished
      && Complete(r, j, e).aborted == r.aborted + 1
    decreases |t|
  {
    if |t| > 0 {
      var s1 := Handle(s, t[0]);
      HandleKeeps(s, t[0]);
      assert !(t[0].Completion? && t[0].job == j);
      if t[0].Completion? {
        assert s1.states[j] == Running;
        CountOfPositive(s1.states, j, Running);
      }
      assert forall k :: 0 <= k < |t[1..]| ==> t[1..][k] == t[k + 1];
      StopIsSticky(s1, t[1..], j, e);
    }
  }

  // ---------------------------------------------------------------------------
  // A batch that is never stopped runs to the end

  /** Every event is a completion whose error is null or an Exception. */
  ghost predicate Benign(t: seq<Event>)
  {
    forall k :: 0 <= k < |t| ==>
      t[k].Completion? && (t[k].error.None? || t[k].error.value.Exception?)
  }

  /** Number of completions in `t` that report no error. */
  function Successes(t: seq<Event>): (c: nat)
    ensures c <= |t|
  {
    if |t| == 0 then 0
    else (if t[0].Completion? && t[0].error.None? then 1 else 0) + Successes(t[1..])
  }

  /** Liveness and order-independence: without a stop request or an
      out-of-memory error, as many completions as there are jobs left bring
      the batch to `allJobsDone`, and the final counters depend only on how
      many of those completions succeeded, not on their order. */
  lemma {:induction false} RunToCompletion(s: Sched, t: seq<Event>)
    requires WellFormed(s) && !s.interrupted && !s.allDone && s.running > 0
    requires ValidTrace(s, t) && Benign(t)
    requires |t| == s.queued + s.running
    ensures var r := RunTrace(s, t);
      && r.allDone && !r.interrupted
      && r.queued == 0 && r.running == 0 && r.next == |s.states|
      && r.finished == s.finished + Successes(t)
      && r.aborted == s.aborted + (|t| - Successes(t))
      && r.status == Classify(false, r.aborted)
    decreases |t|
  {
    var s1 := Handle(s, t[0]);
    assert forall k :: 0 <= k < |t[1..]| ==> t[1..][k] == t[k + 1];
    if s1.queued + s1.running == 0 {
      assert t[1..] == [];
    } else {
      RunToCompletion(s1, t[1..]);
    }
  }

  /** A batch of `n` jobs that is never stopped and meets no out-of-memory
      error ends after `n` completions with nothing queued or running; it is
      classified DONE exactly when every job succeeded. */
  lemma BatchRunsToCompletion(n: nat, cores: nat, t: seq<Event>)
    requires n > 0 && cores >= 1
    requires ValidTrace(Started(n, cores, false), t) && Benign(t) && |t| == n
    ensures var r := RunTrace(Started(n, cores, false), t);
      && r.allDone && r.queued == 0 && r.running == 0
      && r.finished == Successes(t) && r.aborted == n - Successes(t)
      && (r.status == Done <==> Successes(t) == n)
      && (r.status == FinishedWithErrors <==> Successes(t) < n)
  {
    StartedShape(n, cores, false);
    RunToCompletion(Started(n, cores, false), t);
  }

  /** Number of completion events in `t`. */
  function Completions(t: seq<Event>): (c: nat)
    ensures c <= |t|
  {
    if |t| == 0 then 0 else (if t[0].Completion? then 1 else 0) + Completions(t[1..])
  }

  /** Liveness of a stop: once the flag is up, the batch ends, classified
      STOPPED, after as many completions as jobs were running, whatever stop
      presses come in between.  No job is admitted or counted as finished on
      the way; each of those jobs is counted as aborted. */
  lemma {:induction false} StopDrainsBatch(s: Sched, t: seq<Event>)
    requires Inv(s) && s.interrupted && !s.allDone && s.running >= 1
    requires ValidTrace(s, t) && Completions(t) == s.running
    ensures var r := RunTrace(s, t);
      && r.allDone && !r.interrupted && r.status == Stopped
      && r.running == 0 && r.queued == s.queued && r.finished == s.finished
      && r.aborted == s.aborted + s.running && LostJobs(r) == LostJobs(s)
    decreases |t|
  {
    var s1 := Handle(s, t[0]);
    HandleKeeps(s, t[0]);
    if t[0].Completion? {
      var j := t[0].job;
      RetireKeeps(s, j, t[0].error);
      forall st { CountOfUpdate(s.states, j, Aborted, st); }
      if s1.running == 0 {
        CountOfZero(s1.states, Running);
      } else {
        StopDrainsBatch(s1, t[1..]);
      }
    } else {
      StopDrainsBatch(s1, t[1..]);
    }
  }

  // ---------------------------------------------------------------------------
  // The out-of-memory path

  /** With no job running and the batch not over, only stop requests can
      arrive, and none of them ends the batch. */
  lemma {:induction false} StalledStaysStalled(s: Sched, t: seq<Event>)
    requires Inv(s) && s.running == 0 && !s.allDone
    requires ValidTrace(s, t)
    ensures var r := RunTrace(s, t);
      && !r.allDone && r.running == 0 && r.queued == s.queued
      && r.finished == s.finished && r.aborted == s.aborted
    decreases |t|
  {
    if |t| > 0 {
      CountOfZero(s.states, Running);
      assert t[0].StopPressed?;
      PressStopKeeps(s);
      StalledStaysStalled(PressStop(s), t[1..]);
    }
  }

  /** An out-of-memory completion of the last running job, before any stop,
      leaves the batch stuck: the job is counted nowhere, the counters sum to
      one less than the number of jobs, the flag is up, and no sequence of
      later events ever reaches `allJobsDone`. */
  lemma OutOfMemoryStallsBatch(s: Sched, j: int, t: seq<Event>)
    requires Inv(s) && !s.interrupted && 0 <= j < |s.states| && s.states[j] == Running
    requires s.running == 1
    requires ValidTrace(Complete(s, j, Some(OutOfMemoryError)), t)
    ensures var s1 := Complete(s, j, Some(OutOfMemoryError));
      && s1.interrupted && s1.running == 0 && LostJobs(s1) == 1
      && s1.queued + s1.running + s1.finished + s1.aborted == |s.states| - 1
      && !RunTrace(s1, t).allDone
  {
    var s1 := Complete(s, j, Some(OutOfMemoryError));
    CompleteKeeps(s, j, Some(OutOfMemoryError));
    RetireKeeps(s, j, Some(OutOfMemoryError));
    Conservation(s1);
    StalledStaysStalled(s1, t);
  }

  /** An out-of-memory completion while other jobs still run raises the flag
      like a stop: once those jobs complete the batch ends, classified
      STOPPED, with the lost job counted nowhere and the counters one short
      of the number of jobs. */
  lemma OutOfMemoryStopsBatch(s: Sched, j: int, t: seq<Event>)
    requires Inv(s) && !s.interrupted && 0 <= j < |s.states| && s.states[j] == Running
    requires s.running >= 2
    requires ValidTrace(Complete(s, j, Some(OutOfMemoryError)), t)
    requires Completions(t) == s.running - 1
    ensures var r := RunTrace(Complete(s, j, Some(OutOfMemoryError)), t);
      && r.allDone && !r.interrupted && r.status == Stopped && LostJobs(r) == 1
      && r.queued + r.running + r.finished + r.aborted == |s.states| - 1
  {
    var s1 := Complete(s, j, Some(OutOfMemoryError));
    CompleteKeeps(s, j, Some(OutOfMemoryError));
    RetireKeeps(s, j, Some(OutOfMemoryError));
    StopDrainsBatch(s1, t);
    InvAlongTrace(s1, t);
    Conservation(RunTrace(s1, t));
  }
}
