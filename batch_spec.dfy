/** The batch scheduler of `JobController` as a state machine over values.

    A `Sched` is a snapshot of the controller's fields (the core count, the
    cursor `nextJob`, the four counters, the process-wide `interrupted` flag,
    `allDone` and the status label) together with a ghost view the source does
    not keep: the state of every job in the list.  The class in module
    JobControl is proved to move between exactly these snapshots; the lemmas
    here and in BatchProofs state what the source promises about them. */
module BatchSpec {
  import opened Wrappers
  import opened Throwables

  /** Where one job of the list stands, as the counters see it.  `Lost` is
      the state of a job whose completion carried an Error that is not an
      Exception (out of memory): it has left the running count and is
      counted nowhere else. */
  datatype JobState = Queued | Running | Finished | Aborted | Lost

  /** The status label of the dialog.  `Idle` stands for the label before the
      dialog is built. */
  datatype Status =
    | Idle
    | Ongoing             // "Status: ONGOING"
    | OngoingWithErrors   // "Status: ONGOING, ENCOUNTERED ERRORS! ..."
    | Stopping            // "Status: STOPPING JOBS ..."
    | Stopped             // "Status: JOBS STOPPED!"
    | FinishedWithErrors  // "Status: FINISHED WITH ERRORS! ..."
    | Done                // "Status: DONE!"

  datatype Sched = Sched(
    cores: int,
    next: int,
    queued: int,
    running: int,
    finished: int,
    aborted: int,
    interrupted: bool,
    allDone: bool,
    status: Status,
    states: seq<JobState>)

  // ---------------------------------------------------------------------------
  // Counting jobs by state

  /** Number of jobs in `states` that stand in state `st`. */
  function CountOf(states: seq<JobState>, st: JobState): (c: nat)
    ensures c <= |states|
  {
    if |states| == 0 then 0
    else (if states[0] == st then 1 else 0) + CountOf(states[1..], st)
  }

  lemma {:induction false} CountOfUpdate(states: seq<JobState>, j: int, x: JobState, st: JobState)
    requires 0 <= j < |states|
    ensures CountOf(states[j := x], st)
         == CountOf(states, st) - (if states[j] == st then 1 else 0) + (if x == st then 1 else 0)
  {
    if j > 0 {
      assert states[j := x][1..] == states[1..][j - 1 := x];
      CountOfUpdate(states[1..], j - 1, x, st);
    } else {
      assert states[j := x][1..] == states[1..];
    }
  }

  lemma {:induction false} CountOfUniform(n: nat, x: JobState, st: JobState)
    ensures CountOf(seq(n, _ => x), st) == if x == st then n else 0
  {
    if n > 0 {
      assert seq(n, _ => x)[1..] == seq(n - 1, _ => x);
      CountOfUniform(n - 1, x, st);
    }
  }

  /** Every job stands in exactly one state. */
  lemma {:induction false} CountOfTotal(states: seq<JobState>)
    ensures CountOf(states, Queued) + CountOf(states, Running) + CountOf(states, Finished)
          + CountOf(states, Aborted) + CountOf(states, Lost) == |states|
  {
    if |states| > 0 {
      CountOfTotal(states[1..]);
    }
  }

  /** A job standing in state `st` makes the count of `st` positive. */
  lemma {:induction false} CountOfPositive(states: seq<JobState>, i: int, st: JobState)
    requires 0 <= i < |states| && states[i] == st
    ensures CountOf(states, st) >= 1
  {
    if i > 0 {
      CountOfPositive(states[1..], i - 1, st);
    }
  }

  function LostJobs(s: Sched): nat
  {
    CountOf(s.states, Lost)
  }

  // ---------------------------------------------------------------------------
  // Invariants

  /** The cursor and the queue counter agree: `nextJob == total - queued`,
      the second half of `assertJobCountsConsistency`. */
  ghost predicate WellFormed(s: Sched)
  {
    0 <= s.next <= |s.states| && s.queued == |s.states| - s.next
  }

  /** `assertJobCountsConsistency` (JobController.java:405-411): the four
      counters sum to the number of jobs and the cursor equals the number of
      jobs that have left the queue. */
  ghost predicate CountsBalanced(s: Sched)
  {
    var total := s.queued + s.running + s.finished + s.aborted;
    total == |s.states| && s.next == total - s.queued
  }

  /** What holds between any two handled events: jobs leave the queue in list
      order, each counter counts the jobs in its state, at most `cores` jobs
      run, at most one job is lost, and a lost job means the batch is stopped
      or over. */
  ghost predicate Consistent(s: Sched)
  {
    && WellFormed(s)
    && (forall i :: 0 <= i < |s.states| ==> (s.states[i] == Queued <==> s.next <= i))
    && s.queued == CountOf(s.states, Queued)
    && s.running == CountOf(s.states, Running)
    && s.finished == CountOf(s.states, Finished)
    && s.aborted == CountOf(s.states, Aborted)
    && s.running <= s.cores
    && LostJobs(s) <= 1
    && (LostJobs(s) == 1 ==> s.interrupted || s.allDone)
    && (s.allDone ==> s.running == 0)
  }

  /** Once the first jobs are admitted, a batch with no running job is over,
      unless a job was lost; and while the batch is neither stopped nor over,
      a job waits in the queue only when every core is busy. */
  ghost predicate Live(s: Sched)
  {
    && (s.running == 0 ==> s.allDone || LostJobs(s) == 1)
    && (!s.interrupted && !s.allDone && s.queued > 0 ==> s.running == s.cores)
  }

  ghost predicate Inv(s: Sched)
  {
    Consistent(s) && Live(s)
  }

  // ---------------------------------------------------------------------------
  // Operations

  /** `initializeJobs` on a non-empty list, followed by the "ONGOING" label
      that `initializeDialog` sets.  The process-wide `interrupted` flag is not
      reset: it keeps whatever value it had. */
  function InitState(n: nat, cores: nat, interrupted: bool): (s: Sched)
    requires n > 0
    ensures Consistent(s) && LostJobs(s) == 0
    ensures s.queued == n && s.running == 0 && s.finished == 0 && s.aborted == 0 && s.next == 0
    ensures |s.states| == n && !s.allDone && s.interrupted == interrupted
  {
    var r := Sched(cores, 0, n, 0, 0, 0, interrupted, false, Ongoing, seq(n, _ => Queued));
    CountOfUniform(n, Queued, Queued);
    CountOfUniform(n, Queued, Running);
    CountOfUniform(n, Queued, Finished);
    CountOfUniform(n, Queued, Aborted);
    CountOfUniform(n, Queued, Lost);
    r
  }

  /** `startNextJob`: the job at the cursor leaves the queue and runs. */
  function AdmitNext(s: Sched): (r: Sched)
    requires WellFormed(s) && s.next < |s.states|
    ensures WellFormed(r) && r.next == s.next + 1 && |r.states| == |s.states|
  {
    s.(next := s.next + 1, queued := s.queued - 1, running := s.running + 1,
       states := s.states[s.next := Running])
  }

  /** `k` admissions in a row, as the loop in `start` performs them. */
  function AdmitMany(s: Sched, k: nat): (r: Sched)
    requires WellFormed(s) && s.next + k <= |s.states|
    ensures WellFormed(r) && r.next == s.next + k && |r.states| == |s.states|
    ensures r.running == s.running + k && r.queued == s.queued - k
  {
    if k == 0 then s else AdmitNext(AdmitMany(s, k - 1))
  }

  /** The number of jobs `start` admits: min(numCores, jobs.size()). */
  function NumInitialJobs(n: nat, cores: nat): (k: nat)
    ensures k <= n && k <= cores && (k == n || k == cores)
  {
    if cores <= n then cores else n
  }

  /** The controller after `start` has initialised a list of `n` jobs and
      admitted the first ones. */
  function Started(n: nat, cores: nat, interrupted: bool): (s: Sched)
    requires n > 0
    ensures |s.states| == n && s.next == NumInitialJobs(n, cores)
    ensures s.running == NumInitialJobs(n, cores) && s.queued == n - NumInitialJobs(n, cores)
  {
    AdmitMany(InitState(n, cores, interrupted), NumInitialJobs(n, cores))
  }

  /** The final classification made by `allJobsDone`. */
  function Classify(interrupted: bool, aborted: int): (st: Status)
    ensures st == Stopped <==> interrupted
    ensures st == FinishedWithErrors <==> !interrupted && aborted > 0
    ensures st == Done <==> !interrupted && aborted <= 0
  {
    if interrupted then Stopped
    else if aborted > 0 then FinishedWithErrors
    else Done
  }

  /** `allJobsDone`: the batch is over; the flag is cleared if it was set. */
  function Conclude(s: Sched): (r: Sched)
    ensures r.allDone && !r.interrupted && r.status == Classify(s.interrupted, s.aborted)
    ensures r == s.(allDone := r.allDone, interrupted := r.interrupted, status := r.status)
  {
    s.(allDone := true, interrupted := false, status := Classify(s.interrupted, s.aborted))
  }

  /** The bookkeeping half of `jobFinished` (JobController.java:169-198):
      `running` goes down and the job is counted according to the flag and
      the error it reported. */
  function Retire(s: Sched, j: int, e: Option<Throwable>): (r: Sched)
    requires 0 <= j < |s.states|
    ensures |r.states| == |s.states| && r.cores == s.cores
    ensures r.running == s.running - 1 && r.next == s.next && r.queued == s.queued
    ensures r.allDone == s.allDone
    ensures forall i :: 0 <= i < |s.states| && i != j ==> r.states[i] == s.states[i]
    ensures r.states[j] == Finished <==> !s.interrupted && e.None?
    ensures r.states[j] == Aborted <==> s.interrupted || (e.Some? && e.value.Exception?)
    ensures r.states[j] == Lost <==> !s.interrupted && e.Some? && !e.value.Exception?
    ensures r.interrupted <==> s.interrupted || (e.Some? && !e.value.Exception?)
  {
    var t := s.(running := s.running - 1);
    if s.interrupted then
      t.(aborted := t.aborted + 1, states := t.states[j := Aborted])
    else match e
      case None =>
        t.(finished := t.finished + 1, states := t.states[j := Finished])
      case Some(Exception(_)) =>
        t.(aborted := t.aborted + 1, states := t.states[j := Aborted], status := OngoingWithErrors)
      case Some(_) =>
        t.(interrupted := true, states := t.states[j := Lost])
  }

  /** The tail of `jobFinished` on a normal or Exception completion
      (JobController.java:201-204). */
  function AdmitOrConclude(s: Sched): (r: Sched)
    requires WellFormed(s)
    ensures WellFormed(r) && |r.states| == |s.states| && r.cores == s.cores
    ensures r.allDone <==> s.allDone || (s.queued == 0 && s.running == 0)
    ensures s.queued != 0 ==> r.next == s.next + 1 && r.running == s.running + 1 && r.states[s.next] == Running
    ensures s.queued == 0 ==> r.next == s.next && r.running == s.running && r.states == s.states
  {
    if s.queued != 0 then AdmitNext(s)
    else if s.running == 0 then Conclude(s)
    else s
  }

  /** `jobFinished(job, e)`: one completion event, handled on the event
      thread.  `e == None` is a null Throwable. */
  function Complete(s: Sched, j: int, e: Option<Throwable>): (r: Sched)
    requires WellFormed(s) && 0 <= j < |s.states|
    ensures WellFormed(r) && |r.states| == |s.states| && r.cores == s.cores
    ensures r.next <= s.next + 1 && r.running <= s.running
    ensures s.interrupted ==> r.next == s.next && r.finished == s.finished && r.aborted == s.aborted + 1
  {
    var t := Retire(s, j, e);
    if s.interrupted then
      (if t.running == 0 then Conclude(t) else t)
    else if e.Some? && !e.value.Exception? then
      t
    else
      AdmitOrConclude(t)
  }

  /** The stop button's handler: it only raises the flag and relabels. */
  function PressStop(s: Sched): (r: Sched)
    ensures r.interrupted && r.status == Stopping
    ensures r.next == s.next && r.states == s.states && r.allDone == s.allDone && r.cores == s.cores
    ensures r.queued == s.queued && r.running == s.running
    ensures r.finished == s.finished && r.aborted == s.aborted
  {
    s.(interrupted := true, status := Stopping)
  }

  // ---------------------------------------------------------------------------
  // Each operation keeps the invariants

  /** Admission keeps the invariants and, when no job was lost, re-establishes
      the assertion the source checks after every admission. */
  lemma AdmitNextKeeps(s: Sched)
    requires Consistent(s) && s.next < |s.states| && s.running < s.cores && !s.allDone
    ensures Consistent(AdmitNext(s)) && LostJobs(AdmitNext(s)) == LostJobs(s)
    ensures AdmitNext(s).running >= 1
    ensures LostJobs(s) == 0 ==> CountsBalanced(AdmitNext(s))
  {
    var r := AdmitNext(s);
    forall st { CountOfUpdate(s.states, s.next, Running, st); }
    CountOfTotal(r.states);
  }

  lemma {:induction false} AdmitManyKeeps(s: Sched, k: nat)
    requires Consistent(s) && s.next + k <= |s.states| && s.running + k <= s.cores && !s.allDone
    ensures var r := AdmitMany(s, k);
      && Consistent(r) && LostJobs(r) == LostJobs(s)
      && r.running == s.running + k && r.queued == s.queued - k
      && r.finished == s.finished && r.aborted == s.aborted
      && r.cores == s.cores && r.interrupted == s.interrupted && !r.allDone && r.status == s.status
  {
    if k > 0 {
      AdmitManyKeeps(s, k - 1);
      AdmitNextKeeps(AdmitMany(s, k - 1));
    }
  }

  /** `k` admissions start exactly the `k` jobs from the cursor on. */
  lemma {:induction false} AdmitManyStates(s: Sched, k: nat)
    requires WellFormed(s) && s.next + k <= |s.states|
    ensures var r := AdmitMany(s, k);
      && (forall i :: s.next <= i < s.next + k ==> r.states[i] == Running)
      && (forall i :: 0 <= i < |s.states| && !(s.next <= i < s.next + k) ==> r.states[i] == s.states[i])
  {
    if k > 0 {
      AdmitManyStates(s, k - 1);
      var p := AdmitMany(s, k - 1);
      var r := AdmitMany(s, k);
      assert r.states == p.states[s.next + k - 1 := Running];
      forall i | s.next <= i < s.next + k
        ensures r.states[i] == Running
      {
        if i < s.next + k - 1 {
          assert s.next <= i < s.next + (k - 1);
          assert AdmitMany(s, k - 1).states[i] == Running;
        }
      }
    }
  }

  /** After `start`, the first min(numCores, n) jobs of the list run, the rest
      are queued, and the invariants hold. */
  lemma StartedShape(n: nat, cores: nat, interrupted: bool)
    requires n > 0 && cores >= 1
    ensures var s := Started(n, cores, interrupted);
      && Inv(s) && LostJobs(s) == 0
      && s.running == NumInitialJobs(n, cores) && s.next == NumInitialJobs(n, cores)
      && s.queued == n - NumInitialJobs(n, cores) && s.finished == 0 && s.aborted == 0
      && !s.allDone && s.interrupted == interrupted && s.status == Ongoing && s.cores == cores
      && (forall i :: 0 <= i < n ==> (s.states[i] == Running <==> i < NumInitialJobs(n, cores)))
  {
    AdmitManyKeeps(InitState(n, cores, interrupted), NumInitialJobs(n, cores));
    AdmitManyStates(InitState(n, cores, interrupted), NumInitialJobs(n, cores));
  }

  lemma RetireKeeps(s: Sched, j: int, e: Option<Throwable>)
    requires Consistent(s) && 0 <= j < |s.states| && s.states[j] == Running
    ensures var t := Retire(s, j, e);
      && Consistent(t) && WellFormed(t) && !t.allDone && t.running < t.cores
      && (!s.interrupted && !(e.Some? && !e.value.Exception?) ==> LostJobs(t) == 0 && !t.interrupted)
      && (LostJobs(t) == 1 ==> t.interrupted)
      && (!s.interrupted && e.Some? && !e.value.Exception? ==> LostJobs(t) == 1)
  {
    var t := Retire(s, j, e);
    CountOfPositive(s.states, j, Running);
    assert !s.allDone;
    forall st { CountOfUpdate(s.states, j, t.states[j], st); }
  }

  lemma CompleteKeeps(s: Sched, j: int, e: Option<Throwable>)
    requires Inv(s) && 0 <= j < |s.states| && s.states[j] == Running
    ensures Inv(Complete(s, j, e))
  {
    var t := Retire(s, j, e);
    RetireKeeps(s, j, e);
    if !s.interrupted && !(e.Some? && !e.value.Exception?) && t.queued != 0 {
      AdmitNextKeeps(t);
    }
  }

  lemma PressStopKeeps(s: Sched)
    requires Inv(s)
    ensures Inv(PressStop(s))
  {
  }

  // ---------------------------------------------------------------------------
  // Event traces: any interleaving of completions and stop requests

  /** What the event thread can be asked to do: handle a job's completion, as
      posted by `Platform.runLater`, or handle a press of the stop button. */
  datatype Event = Completion(job: int, error: Option<Throwable>) | StopPressed

  /** Completions arrive only for running jobs: each admitted job posts at
      most one (module MagnumJob).  The stop button can be pressed only until
      `allJobsDone` disables it (JobController.java:215). */
  ghost predicate CanHandle(s: Sched, ev: Event)
  {
    match ev
    case StopPressed => !s.allDone
    case Completion(j, _) => 0 <= j < |s.states| && s.states[j] == Running
  }

  function Handle(s: Sched, ev: Event): (r: Sched)
    requires WellFormed(s) && CanHandle(s, ev)
    ensures WellFormed(r) && |r.states| == |s.states| && r.cores == s.cores
  {
    match ev
    case Completion(j, e) => Complete(s, j, e)
    case StopPressed => PressStop(s)
  }

  ghost predicate ValidTrace(s: Sched, t: seq<Event>)
    requires WellFormed(s)
    decreases |t|
  {
    |t| == 0 || (CanHandle(s, t[0]) && ValidTrace(Handle(s, t[0]), t[1..]))
  }

  ghost function RunTrace(s: Sched, t: seq<Event>): (r: Sched)
    requires WellFormed(s) && ValidTrace(s, t)
    ensures WellFormed(r) && |r.states| == |s.states| && r.cores == s.cores
    decreases |t|
  {
    if |t| == 0 then s else RunTrace(Handle(s, t[0]), t[1..])
  }

  lemma HandleKeeps(s: Sched, ev: Event)
    requires Inv(s) && CanHandle(s, ev)
    ensures Inv(Handle(s, ev))
  {
    match ev
    case Completion(j, e) => CompleteKeeps(s, j, e);
    case StopPressed => PressStopKeeps(s);
  }

  lemma {:induction false} InvAlongTrace(s: Sched, t: seq<Event>)
    requires Inv(s) && ValidTrace(s, t)
    ensures Inv(RunTrace(s, t))
    decreases |t|
  {
    if |t| > 0 {
      HandleKeeps(s, t[0]);
      InvAlongTrace(Handle(s, t[0]), t[1..]);
    }
  }
}
