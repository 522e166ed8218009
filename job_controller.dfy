/** `JobController`: the dialog controller that runs a list of jobs on a
    number of cores.  Its fields are updated in place by `start`,
    `startNextJob`, `jobFinished`, `allJobsDone` and the stop button's
    handler; every method is proved to move the controller between the
    snapshots that module BatchSpec describes. */
module JobControl {
  import opened Wrappers
  import opened Throwables
  import opened BatchSpec
  import opened Header

  class JobController {
    /** The jobs, by name, in scheduling order. */
    var jobs: seq<string>
    var numCores: int
    /** The next job in line. */
    var nextJob: int
    /** No more jobs are running and none will be admitted. */
    var allDone: bool
    var numJobsQueued: int
    var numJobsRunning: int
    var numJobsFinished: int
    var numJobsAborted: int
    /** The process-wide stop flag, owned here. */
    var interrupted: bool
    /** The status label of the dialog. */
    var status: Status
    /** Indices of the jobs whose threads were started, in the order started. */
    var launched: seq<int>
    /** Where each job stands (not kept by the source). */
    ghost var states: seq<JobState>

    ghost function Snapshot(): Sched
      reads this
    {
      Sched(numCores, nextJob, numJobsQueued, numJobsRunning, numJobsFinished,
            numJobsAborted, interrupted, allDone, status, states)
    }

    /** The invariants, and: the threads started so far are those of jobs
        0, 1, ..., nextJob - 1, in that order. */
    ghost predicate Valid()
      reads this
    {
      && |jobs| == |states|
      && Consistent(Snapshot())
      && |launched| == nextJob
      && (forall i :: 0 <= i < |launched| ==> launched[i] == i)
    }

    constructor ()
      ensures Valid()
      ensures jobs == [] && launched == [] && numCores == 0 && status == Idle
      ensures Snapshot() == Sched(0, 0, 0, 0, 0, 0, false, false, Idle, [])
    {
      jobs := [];
      numCores := 0;
      nextJob := 0;
      allDone := false;
      numJobsQueued, numJobsRunning, numJobsFinished, numJobsAborted := 0, 0, 0, 0;
      interrupted := false;
      status := Idle;
      launched := [];
      states := [];
    }

    /** `initializeJobs`: an empty list is refused (the source throws);
        otherwise every job is queued and every other counter is zero, and
        the invariant holds for any core count that is not negative.  The
        stop flag is left as it is. */
    method InitializeJobs(jobs: seq<string>) returns (ok: bool)
      modifies this
      ensures ok <==> |jobs| > 0
      ensures !ok ==> unchanged(this)
      ensures ok && numCores >= 0 ==> Valid()
      ensures ok ==> && this.jobs == jobs && launched == []
                     && numJobsQueued == |jobs| && numJobsRunning == 0
                     && numJobsFinished == 0 && numJobsAborted == 0
                     && nextJob == 0 && !allDone
                     && states == seq(|jobs|, _ => Queued)
                     && numCores == old(numCores) && interrupted == old(interrupted)
                     && status == old(status)
    {
      if |jobs| == 0 {
        return false;
      }
      this.jobs := jobs;
      allDone := false;
      numJobsQueued := |jobs|;
      numJobsRunning := 0;
      numJobsFinished := 0;
      numJobsAborted := 0;
      nextJob := 0;
      launched := [];
      states := seq(|jobs|, _ => Queued);
      ok := true;
      if numCores >= 0 {
        assert Snapshot() == InitState(|jobs|, numCores, interrupted).(status := status);
      }
    }

    /** `start`: initialise, build the header, admit the first
        min(numCores, jobs.size()) jobs.  The result is the header text, or
        None when the list is empty (the exception of `initializeJobs`,
        raised after `numCores` was already stored). */
    method Start(jobs: seq<string>, numCores: int) returns (header: Option<string>)
      requires numCores >= 1
      modifies this
      ensures this.numCores == numCores
      ensures |jobs| == 0 ==> && header == None && this.jobs == old(this.jobs)
                              && launched == old(launched)
                              && Snapshot() == old(Snapshot()).(cores := numCores)
      ensures |jobs| > 0 ==> && header == Some(HeaderText(|jobs|, numCores))
                             && this.jobs == jobs && Valid() && Inv(Snapshot())
                             && Snapshot() == Started(|jobs|, numCores, old(interrupted))
                             && |launched| == NumInitialJobs(|jobs|, numCores)
    {
      this.numCores := numCores;
      var ok := InitializeJobs(jobs);
      if !ok {
        return None;
      }
      var text := HeaderText(|jobs|, numCores);
      status := Ongoing;
      assert Snapshot() == InitState(|jobs|, numCores, old(interrupted));
      StartInitialJobs();
      StartedShape(|jobs|, numCores, old(interrupted));
      header := Some(text);
    }

    /** The admission loop of `start`: the first min(numCores, jobs.size())
        jobs of a freshly initialised batch are started, in list order. */
    method StartInitialJobs()
      requires |jobs| > 0 && numCores >= 1 && Valid()
      requires Snapshot() == InitState(|jobs|, numCores, interrupted)
      modifies this
      ensures jobs == old(jobs) && numCores == old(numCores)
      ensures Valid() && Snapshot() == Started(|jobs|, numCores, old(interrupted))
      ensures |launched| == NumInitialJobs(|jobs|, numCores)
    {
      ghost var s0 := Snapshot();
      var numInitialJobs := if numCores <= |jobs| then numCores else |jobs|;
      for i := 0 to numInitialJobs
        invariant jobs == old(jobs) && numCores == old(numCores)
        invariant Valid() && Snapshot() == AdmitMany(s0, i)
        invariant nextJob == i && numJobsRunning == i && !allDone && LostJobs(Snapshot()) == 0
      {
        StartNextJob();
        AdmitManyKeeps(s0, i + 1);
      }
      assert numInitialJobs == NumInitialJobs(|jobs|, numCores);
    }

    /** `startNextJob`: the job at the cursor leaves the queue, runs, and its
        thread is started; afterwards the source's consistency assertion
        holds. */
    method StartNextJob()
      requires Valid() && nextJob < |jobs| && numJobsRunning < numCores && !allDone
      requires LostJobs(Snapshot()) == 0
      modifies this
      ensures Valid() && CountsBalanced(Snapshot())
      ensures Snapshot() == AdmitNext(old(Snapshot()))
      ensures launched == old(launched) + [old(nextJob)] && jobs == old(jobs)
    {
      AdmitNextKeeps(Snapshot());
      var tbdJob := nextJob;
      nextJob := nextJob + 1;
      numJobsQueued := numJobsQueued - 1;
      numJobsRunning := numJobsRunning + 1;
      states := states[tbdJob := Running];
      launched := launched + [tbdJob];
    }

    /** `jobFinished(job, e)`, run on the event thread once per completion of
        a running job; `e == None` is a null error. */
    method JobFinished(job: int, e: Option<Throwable>)
      requires Valid() && Inv(Snapshot())
      requires 0 <= job < |jobs| && states[job] == Running
      modifies this
      ensures Valid() && Inv(Snapshot())
      ensures Snapshot() == Complete(old(Snapshot()), job, e)
      ensures jobs == old(jobs)
    {
      ghost var s := Snapshot();
      ghost var r := Complete(s, job, e);
      RetireKeeps(s, job, e);
      CompleteKeeps(s, job, e);
      numJobsRunning := numJobsRunning - 1;

      if interrupted {
        numJobsAborted := numJobsAborted + 1;
        states := states[job := Aborted];
        assert Snapshot() == Retire(s, job, e);
        if numJobsRunning == 0 {
          AllJobsDone();
        }
        assert Snapshot() == r;
        return;
      }

      if e.None? {
        numJobsFinished := numJobsFinished + 1;
        states := states[job := Finished];
      } else if e.value.Exception? {
        numJobsAborted := numJobsAborted + 1;
        states := states[job := Aborted];
        status := OngoingWithErrors;
      } else {
        states := states[job := Lost];
        interrupted := true;
        assert Snapshot() == r;
        return;
      }

      assert Snapshot() == Retire(s, job, e);
      assert r == AdmitOrConclude(Snapshot());
      if numJobsQueued != 0 {
        StartNextJob();
      } else if numJobsRunning == 0 {
        AllJobsDone();
      }
      assert Snapshot() == r;
    }

    /** `allJobsDone`: the batch is over and is classified as stopped,
        finished with errors or done; the stop flag is cleared. */
    method AllJobsDone()
      requires Valid() && numJobsRunning == 0
      modifies this
      ensures Valid() && allDone
      ensures Snapshot() == Conclude(old(Snapshot()))
      ensures jobs == old(jobs) && launched == old(launched)
    {
      allDone := true;
      if interrupted {
        status := Stopped;
        interrupted := false;
      } else if numJobsAborted > 0 {
        status := FinishedWithErrors;
      } else {
        status := Done;
      }
    }

    /** The stop button's handler: it raises the flag and relabels, nothing
        else.  The button is disabled once the batch is over. */
    method OnStop()
      requires Valid() && Inv(Snapshot()) && !allDone
      modifies this
      ensures Valid() && Inv(Snapshot()) && interrupted
      ensures Snapshot() == PressStop(old(Snapshot()))
      ensures jobs == old(jobs) && launched == old(launched)
    {
      PressStopKeeps(Snapshot());
      status := Stopping;
      interrupted := true;
    }

    /** The dialog's close-request handler: it consumes (refuses) the request
        while the batch is not over. */
    method OnCloseRequest() returns (consumed: bool)
      ensures consumed <==> !allDone
    {
      consumed := !allDone;
    }
  }
}
