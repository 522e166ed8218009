/** `JobMagnum`: the thread that runs one job.  It names the job, sets up a
    per-job logger that checks for interrupts, runs the job body, and reports
    how the body ended to the controller through the event thread. */
module MagnumJob {
  import opened Wrappers
  import opened Throwables
  import opened AppLog

  /** The job name with every space replaced by an underscore, so that it
      can be used in file names. */
  function SanitizedName(name: string): (r: string)
    ensures |r| == |name|
    ensures forall i :: 0 <= i < |name| ==> r[i] == (if name[i] == ' ' then '_' else name[i])
    ensures ' ' !in r
  {
    if |name| == 0 then ""
    else [if name[0] == ' ' then '_' else name[0]] + SanitizedName(name[1..])
  }

  /** Sanitising a sanitised name changes nothing. */
  lemma SanitizedNameIdempotent(name: string)
    ensures SanitizedName(SanitizedName(name)) == SanitizedName(name)
  {
  }

  /** The job's log file: its name with the suffix `.log.txt`; a sanitised
      job name gives a file name without spaces. */
  function LogFileName(jobName: string): (f: string)
    ensures jobName <= f && f[|jobName|..] == ".log.txt"
    ensures ' ' !in jobName ==> ' ' !in f
  {
    jobName + ".log.txt"
  }

  /** How the job body `runJob` ended: it returned after `elapsed`
      milliseconds, or it threw. */
  datatype BodyEnd = Returned(elapsed: int) | Threw(thrown: Throwable)

  /** How `run` ended: it posted `jobFinished(this, error)` to the event
      thread (`error == None` is a null argument), or a throwable escaped
      the thread and nothing was posted. */
  datatype RunExit = Reported(error: Option<Throwable>) | Escaped(thrown: Throwable)

  /** What the out-of-memory handler prints to the job's logger. */
  const OutOfMemoryMessage: string :=
    "ERROR: OUT OF MEMORY!\n\n" +
    "Solutions:\n" +
    "- reduce the number of cores (parallel jobs) or\n" +
    "- export settings and run jobs with the command-line tool (increase memory: e.g. \"-Xmx8g\" for 8GB)\n\n" +
    "See the user guide for further instructions."

  /** The outcome-to-report mapping of `run`.  `interrupted` is the stop
      flag as the handler reads it: the Exception handler through
      `getInterrupted`, the out-of-memory handler through the checkpoint of
      the armed logger it prints to.  With the flag up, that checkpoint
      throws `RuntimeException("Thread interrupted")` out of the handler, and
      no sibling handler catches it. */
  function RunExitOf(body: BodyEnd, interrupted: bool): (x: RunExit)
    ensures x.Escaped? <==> body.Threw? && (body.thrown.OtherError? || (body.thrown.OutOfMemoryError? && interrupted))
    ensures x == Reported(None)
        <==> body.Returned? || (body.Threw? && body.thrown.Exception? && interrupted)
    ensures x.Reported? && x.error.Some? ==> body.Threw? && x.error.value == body.thrown && !(body.thrown.OutOfMemoryError? && interrupted)
    ensures x.Escaped? ==> x.thrown == (if body.thrown.OtherError? then body.thrown else Exception(InterruptMessage))
  {
    match body
    case Returned(_) => Reported(None)
    case Threw(Exception(_)) => if interrupted then Reported(None) else Reported(Some(body.thrown))
    case Threw(OutOfMemoryError) =>
      if Checkpoint(true, interrupted) == ThreadInterrupted then Escaped(Exception(InterruptMessage))
      else Reported(Some(OutOfMemoryError))
    case Threw(OtherError(_)) => Escaped(body.thrown)
  }

  /** The notifications a run posts: one if it reported, none otherwise. */
  function Posted(x: RunExit): seq<Option<Throwable>>
  {
    if x.Reported? then [x.error] else []
  }

  /** A job cancelled at a logger checkpoint ends its body with the
      checkpoint's Exception while the flag is up, and is reported with a
      null error, exactly like a job that succeeded. */
  lemma CancelledJobReportsNull(msg: string, elapsed: int, flag: bool)
    ensures RunExitOf(Threw(Exception(msg)), true) == RunExitOf(Returned(elapsed), flag)
  {
  }

  class JobMagnum {
    var jobName: string
    /** Runtime of the body in milliseconds, -1 unless it returned. */
    var runtime: int
    var console: Console?
    var myLog: AppLogger?
    /** Set while the job holds its compute-engine instance. */
    var magnumLoaded: bool
    /** Completion notifications this job has posted to the event thread. */
    var posted: seq<Option<Throwable>>
    /** The logger of the last run. */
    ghost var lastLog: AppLogger?

    /** The constructor stores the sanitised name. */
    constructor (jobName: string)
      ensures this.jobName == SanitizedName(jobName)
      ensures runtime == -1 && console == null && myLog == null && !magnumLoaded
      ensures posted == [] && lastLog == null
    {
      this.jobName := SanitizedName(jobName);
      runtime := -1;
      console := null;
      myLog := null;
      magnumLoaded := false;
      posted := [];
      lastLog := null;
    }

    method SetConsole(console: Console?)
      modifies this`console
      ensures this.console == console
    {
      this.console := console;
    }

    /** `run`: set up a logger that writes to `<jobName>.log.txt` and checks
        for interrupts, run the body, then close the log file, drop the
        logger and the engine, and post one completion, on every path that
        catches what the body threw.  An Error other than out-of-memory
        escapes, and so does the checkpoint's exception when the
        out-of-memory handler prints with the flag up: nothing is closed or
        posted.  `interrupted` is the stop flag as the handler reads it. */
    method Run(body: BodyEnd, interrupted: bool) returns (x: RunExit)
      modifies this, console
      ensures x == RunExitOf(body, interrupted)
      ensures posted == old(posted) + Posted(x)
      ensures runtime == (if body.Returned? then body.elapsed else -1)
      ensures jobName == old(jobName) && console == old(console)
      ensures lastLog != null && fresh(lastLog) && lastLog.logFile != null && fresh(lastLog.logFile)
      ensures lastLog.logFile.name == LogFileName(jobName)
      ensures lastLog.checkInterrupt && lastLog.console == console
      ensures lastLog.logFile.lines
           == (if body == Threw(OutOfMemoryError) then [Written(true, interrupted, OutOfMemoryMessage)] else [])
      ensures x.Reported? ==> && myLog == null && !magnumLoaded
                              && !lastLog.logFile.open && lastLog.logFile.closeCalls == 1
      ensures x.Escaped? ==> && myLog == lastLog && magnumLoaded
                             && lastLog.logFile.open && lastLog.logFile.closeCalls == 0
    {
      var log := new AppLogger();
      log.CreateLogFile(LogFileName(jobName));
      if console != null {
        log.SetConsole(console);
      }
      log.SetCheckInterrupt(true);
      myLog := log;
      lastLog := log;
      magnumLoaded := true;

      runtime := -1;
      match body {
        case Returned(elapsed) =>
          runtime := elapsed;
        case Threw(Exception(_)) =>
          if !interrupted {
            Finish(log, Some(body.thrown));
            return Reported(Some(body.thrown));
          }
          // cancelled: fall through to the cleanup below
        case Threw(OutOfMemoryError) =>
          var printed := log.Print(OutOfMemoryMessage, interrupted);
          if printed == ThreadInterrupted {
            return Escaped(Exception(InterruptMessage));
          }
          Finish(log, Some(OutOfMemoryError));
          return Reported(Some(OutOfMemoryError));
        case Threw(OtherError(_)) =>
          return Escaped(body.thrown);
      }

      Finish(log, None);
      x := Reported(None);
    }

    /** The cleanup every reporting path of `run` does: close the log file,
        drop the logger and the engine, and post `jobFinished(this, error)`. */
    method Finish(log: AppLogger, error: Option<Throwable>)
      requires log.logFile != null
      modifies this`myLog, this`magnumLoaded, this`posted, log.logFile
      ensures myLog == null && !magnumLoaded && posted == old(posted) + [error]
      ensures !log.logFile.open && log.logFile.lines == old(log.logFile.lines)
      ensures log.logFile.closeCalls == old(log.logFile.closeCalls) + 1
    {
      log.CloseLogFile();
      magnumLoaded := false;
      myLog := null;
      posted := posted + [error];
    }
  }
}
