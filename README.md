# MagnumApp job scheduling, in Dafny

MagnumApp runs connectivity-enrichment jobs, one per network, in a modal
dialog. Each job is a `JobMagnum` thread. `JobController` owns the dialog.
It admits the jobs in list order, never more than `numCores` at a time. It
counts each job as queued, running, finished or aborted. It handles the
stop button, and it classifies the batch once no job is running. Each job
logs through its own `AppLogger`. That logger is also the job's
cancellation checkpoint: once armed, any `print` made while the global
stop flag is up throws, which ends the job.

The project models these three classes:

- `batch_spec.dfy` (module `BatchSpec`) describes the controller's
  bookkeeping as a value state machine. A `Sched` holds the four counters,
  the cursor `nextJob`, the stop flag, `allDone` and the status label. It
  also holds a ghost per-job state (queued, running, finished, aborted, or
  lost to an out-of-memory error). The module defines one function per
  handler and the invariant that every handler keeps.
- `job_controller.dfy` (module `JobControl`) is the controller itself: a
  class whose fields are updated in place. Each method is proved to move
  the fields exactly as the matching `BatchSpec` function does.
- `batch_proofs.dfy` (module `BatchProofs`) proves properties over any
  interleaving of completion events and stop presses:
  - conservation of jobs;
  - bounded parallelism;
  - FIFO admission;
  - no admission after a stop;
  - completion of an unstopped batch;
  - the out-of-memory stall.
- `header.dfy` (module `Header`) builds the dialog's header text.
- `app_logger.dfy` (module `AppLog`) is the logger: the checkpoint, the
  fan-out to standard output, the console and the log file, and the setters.
- `job_magnum.dfy` (module `MagnumJob`) covers the job thread:
  - the file-safe job name;
  - `run`, with every way it can end, as a class method;
  - the pure mapping from how the body ended to what `run` reports.
- `job_outcome.dfy` (module `JobOutcome`) connects what a job reports to
  how the controller counts it.
- `wrappers.dfy` and `throwables.dfy` hold `Option` and the three kinds of
  throwable that matter here: `Exception`, `OutOfMemoryError` and any
  other `Error`.

Notes on how the model reads the code:

- The global `JobController.interrupted` flag is a field of the
  controller. The logger and the job thread receive, as a parameter, the
  value they read at the moment they check it.
- Jobs are identified by their index in the job list.
- `start` demands `numCores >= 1`. Callers only ever offer 1 to the number
  of available processors.
- The source gives no reason why `jobFinished` drops an out-of-memory job
  without counting it and admits nothing more. The model keeps that
  behaviour as written and proves what follows from it. If the job was the
  last one running, the batch can never end, so the dialog can never be
  closed. If other jobs were still running and they all report, the raised
  flag makes their completions end the batch as STOPPED, with the counters
  one short of the number of jobs. If one of them also runs out of memory,
  its handler prints to its armed logger while the flag is up. The
  logger's checkpoint then throws, that thread dies without reporting, and
  the batch never ends.
- The stop button can be pressed only until `allJobsDone` disables it.

## Model

| member | source | states |
|---|---|---|
| BatchSpec.InitState | src/ch/unil/magnumapp/view/JobController.java:340-352 | a non-empty list starts with every job queued, every other counter zero, the cursor at 0, and the invariant holding; the stop flag keeps its value |
| BatchSpec.AdmitNext | src/ch/unil/magnumapp/view/JobController.java:375-378 | one admission moves the cursor by one and keeps the cursor and the queue counter in step |
| BatchSpec.AdmitMany | src/ch/unil/magnumapp/view/JobController.java:153-155 | k admissions move the cursor by k, add k running jobs and take k from the queue |
| BatchSpec.AdmitManyStates | src/ch/unil/magnumapp/view/JobController.java:153-155 | k admissions start exactly the k jobs from the cursor on and touch no other job |
| BatchSpec.Started | src/ch/unil/magnumapp/view/JobController.java:127-155 | after `start`, min(numCores, n) jobs run, the cursor stands after them, and the rest are queued |
| BatchSpec.NumInitialJobs | src/ch/unil/magnumapp/view/JobController.java:153 | `start` admits min(numCores, number of jobs) jobs |
| BatchSpec.Classify | src/ch/unil/magnumapp/view/JobController.java:220-230 | the batch is STOPPED iff the flag is up; FINISHED WITH ERRORS iff the flag is down and some job aborted; DONE iff the flag is down and none aborted |
| BatchSpec.Conclude | src/ch/unil/magnumapp/view/JobController.java:211-231 | `allJobsDone` sets allDone, clears the flag and sets the status from Classify; nothing else changes |
| BatchSpec.Retire | src/ch/unil/magnumapp/view/JobController.java:169-198 | the running count drops by one; the job is counted finished iff the flag is down and the error null, aborted iff the flag is up or the error is an Exception, and lost iff the flag is down and the error is out-of-memory, which raises the flag; no other job and neither the cursor nor the queue change |
| BatchSpec.AdmitOrConclude | src/ch/unil/magnumapp/view/JobController.java:201-204 | with jobs queued the job at the cursor starts; the batch becomes over iff nothing is queued or running; otherwise nothing changes |
| BatchSpec.Complete | src/ch/unil/magnumapp/view/JobController.java:167-205 | one completion keeps the cursor relation, admits at most one job and never raises the running count; once stopped it admits nothing, counts nothing as finished and counts the job as aborted |
| BatchSpec.PressStop | src/ch/unil/magnumapp/view/JobController.java:278-286 | the stop handler raises the flag and sets the label to STOPPING; it changes no counter, cursor or job |
| BatchSpec.AdmitNextKeeps | src/ch/unil/magnumapp/view/JobController.java:372-379 | admitting the job at the cursor keeps every invariant; with no lost job the consistency assertion holds afterwards |
| BatchSpec.AdmitManyKeeps | src/ch/unil/magnumapp/view/JobController.java:153-155 | each admission of `start`'s loop keeps the invariant; after k admissions k jobs run |
| BatchSpec.StartedShape | src/ch/unil/magnumapp/view/JobController.java:127-155 | after `start`, exactly jobs 0 .. min(numCores, n) - 1 run, the rest are queued, nothing is finished or aborted, and the invariant holds |
| BatchSpec.RetireKeeps | src/ch/unil/magnumapp/view/JobController.java:169-198 | the counting part of `jobFinished` keeps the counters equal to the job states; an out-of-memory completion before a stop loses exactly one job |
| BatchSpec.CompleteKeeps | src/ch/unil/magnumapp/view/JobController.java:167-205 | `jobFinished` keeps the whole invariant, including "no job running means the batch is over unless a job was lost" and "while the batch is neither stopped nor over, jobs wait only when every core is busy" |
| BatchSpec.PressStopKeeps | src/ch/unil/magnumapp/view/JobController.java:278-286 | pressing stop keeps the invariant |
| BatchSpec.HandleKeeps | src/ch/unil/magnumapp/view/JobController.java:167-205 | each event the event thread handles keeps the invariant |
| BatchSpec.InvAlongTrace | src/ch/unil/magnumapp/view/JobController.java:167-205 | the invariant holds after any sequence of completions and stop presses |
| BatchProofs.Conservation | src/ch/unil/magnumapp/view/JobController.java:405-411 | queued + running + finished + aborted + lost equals the number of jobs, at most one job is lost, and with none lost the assertion's two equations hold |
| BatchProofs.BatchInvariants | src/ch/unil/magnumapp/view/JobController.java:153-155 | in every reachable state: conservation, nextJob == n - queued, 0 <= running <= numCores, jobs leave the queue in list order, no running job means done or a lost job, and while the batch is neither stopped nor over, jobs wait only when all numCores cores are busy |
| BatchProofs.CompletionRefillsPool | src/ch/unil/magnumapp/view/JobController.java:201-202 | a null or Exception completion in a batch that is not stopped, with jobs queued, starts the job at the cursor, so the running count is unchanged |
| BatchProofs.ConcludedIsFinal | src/ch/unil/magnumapp/view/JobController.java:211-231 | once `allJobsDone` has run no event can arrive, so the classification and the lowered flag are final |
| BatchProofs.NoAdmissionAfterStop | src/ch/unil/magnumapp/view/JobController.java:171-176 | once the flag is up or the batch is over, no later event admits a job or counts one as finished |
| BatchProofs.StopIsSticky | src/ch/unil/magnumapp/view/JobController.java:220-223 | while a job runs no event lowers a raised flag, so that job's completion is counted as aborted |
| BatchProofs.RunToCompletion | src/ch/unil/magnumapp/view/JobController.java:180-204 | without stop or out-of-memory, queued + running completions end the batch; the finished and aborted counts depend only on how many completions succeeded |
| BatchProofs.BatchRunsToCompletion | src/ch/unil/magnumapp/view/JobController.java:225-230 | an unstopped batch of n jobs with no out-of-memory error ends after n completions, and is DONE iff all n succeeded, else FINISHED WITH ERRORS |
| BatchProofs.StopDrainsBatch | src/ch/unil/magnumapp/view/JobController.java:171-176 | once the flag is up, as many completions as jobs running end the batch as STOPPED with the flag lowered; no job is admitted or counted as finished on the way, and each of them is counted as aborted |
| BatchProofs.StalledStaysStalled | src/ch/unil/magnumapp/view/JobController.java:278-286 | with no job running and the batch not over, stop presses are the only events and none ends the batch |
| BatchProofs.OutOfMemoryStallsBatch | src/ch/unil/magnumapp/view/JobController.java:193-198 | an out-of-memory completion of the last running job leaves the counters one short of the job count, the flag up, and allJobsDone never reached |
| BatchProofs.OutOfMemoryStopsBatch | src/ch/unil/magnumapp/view/JobController.java:193-198 | an out-of-memory completion while other jobs still run ends the batch, once they complete, as STOPPED with the lost job counted nowhere and the counters one short of the job count |
| Header.Dec | src/ch/unil/magnumapp/view/JobController.java:136 | Java's rendering of a count is a non-empty string of decimal digits with no leading zero |
| Header.DecRoundTrip | src/ch/unil/magnumapp/view/JobController.java:136 | reading the rendered count back gives the count |
| Header.HeaderText | src/ch/unil/magnumapp/view/JobController.java:134-140 | the header gives the number of jobs, then in parentheses the number of jobs `start` admits; with cores left over, the core total follows and is always plural |
| JobControl.JobController.constructor | src/ch/unil/magnumapp/view/JobController.java:58-80 | a new controller has no jobs, zero counters, the flag down and the invariant holding |
| JobControl.JobController.InitializeJobs | src/ch/unil/magnumapp/view/JobController.java:340-356 | an empty list is refused and changes nothing; otherwise every job is queued, the other counters and the cursor are zero, the flag is kept, and the consistency invariant holds whenever numCores is not negative |
| JobControl.JobController.Start | src/ch/unil/magnumapp/view/JobController.java:127-161 | returns the header text, starts exactly jobs 0 .. min(numCores, n) - 1 in order, and leaves the controller in the `Started` state with the invariant holding; an empty list returns nothing after storing numCores |
| JobControl.JobController.StartInitialJobs | src/ch/unil/magnumapp/view/JobController.java:153-155 | the loop of `start` launches jobs 0 .. min(numCores, n) - 1 in order and reaches the `Started` state |
| JobControl.JobController.StartNextJob | src/ch/unil/magnumapp/view/JobController.java:372-388 | launches the job at the cursor, moves the state as AdmitNext does, and establishes the consistency assertion of lines 405-411 (CountsBalanced) |
| JobControl.JobController.JobFinished | src/ch/unil/magnumapp/view/JobController.java:167-205 | moves the fields exactly as Complete does and keeps the invariant |
| JobControl.JobController.AllJobsDone | src/ch/unil/magnumapp/view/JobController.java:211-231 | moves the fields exactly as Conclude does |
| JobControl.JobController.OnStop | src/ch/unil/magnumapp/view/JobController.java:278-286 | while the batch is not over (the button is disabled at line 215), raises the flag and relabels, as PressStop does, keeping the invariant that JobFinished needs |
| JobControl.JobController.OnCloseRequest | src/ch/unil/magnumapp/view/JobController.java:289-292 | the close request is consumed iff the batch is not over |
| AppLog.Checkpoint | src/ch/unil/magnumapp/AppLogger.java:66 | `print` throws iff the logger checks for interrupts and the flag is up |
| AppLog.Written | src/ch/unil/magnumapp/AppLogger.java:59-72 | an unarmed logger, or an armed one with the flag down, writes the message; an armed logger with the flag up writes only the interrupt notice |
| AppLog.AppLogger.constructor | src/ch/unil/magnumapp/AppLogger.java:43-50 | a new logger does not check for interrupts, copies to standard output, and has no console and no log file |
| AppLog.AppLogger.SetCheckInterrupt | src/ch/unil/magnumapp/AppLogger.java:123-125 | sets the checkpoint flag and nothing else |
| AppLog.AppLogger.SetSystemOut | src/ch/unil/magnumapp/AppLogger.java:128-130 | sets the standard-output flag and nothing else |
| AppLog.AppLogger.SetConsole | src/ch/unil/magnumapp/AppLogger.java:133-135 | sets the console and nothing else |
| AppLog.AppLogger.CreateLogFile | src/ch/unil/magnumapp/AppLogger.java:78-80 | the log file becomes a new, empty, open file with the given name |
| AppLog.AppLogger.CloseLogFile | src/ch/unil/magnumapp/AppLogger.java:83-85 | closes the log file once more, keeping its contents |
| AppLog.AppLogger.PrintAll | src/ch/unil/magnumapp/AppLogger.java:102-117 | the message is appended to standard output iff systemOut, to the console iff there is one, and to the log file iff there is one and it is open |
| AppLog.AppLogger.Print | src/ch/unil/magnumapp/AppLogger.java:59-72 | the result is the checkpoint's verdict, and every sink receives exactly the text Written gives |
| AppLog.NewLoggerNeverCancels | src/ch/unil/magnumapp/AppLogger.java:43 | a new logger prints the message and never throws, whatever the flag |
| AppLog.ArmedLoggerCancels | src/ch/unil/magnumapp/AppLogger.java:66-69 | an armed logger with the flag up prints only the interrupt notice and throws |
| MagnumJob.SanitizedName | src/ch/unil/magnumapp/JobMagnum.java:64 | same length, no space left, each space replaced by an underscore, every other character unchanged |
| MagnumJob.SanitizedNameIdempotent | src/ch/unil/magnumapp/JobMagnum.java:64 | sanitising a sanitised name changes nothing |
| MagnumJob.LogFileName | src/ch/unil/magnumapp/JobMagnum.java:81 | the log file name is the job name followed by `.log.txt`; a sanitised job name gives a file name without spaces |
| MagnumJob.RunExitOf | src/ch/unil/magnumapp/JobMagnum.java:72-136 | `run` reports null iff the body returned, or threw an Exception while the flag was up; it reports the throwable for an Exception or an out-of-memory error with the flag down; with the flag up, an out-of-memory error escapes as the checkpoint's `RuntimeException("Thread interrupted")`; any other Error escapes as itself; nothing is reported when something escapes |
| MagnumJob.CancelledJobReportsNull | src/ch/unil/magnumapp/JobMagnum.java:97-108 | whatever its message, an Exception caught while the flag is up is reported exactly as a body that returned, whatever its runtime |
| MagnumJob.JobMagnum.constructor | src/ch/unil/magnumapp/JobMagnum.java:60-65 | the stored name is the sanitised name; runtime starts at -1 |
| MagnumJob.JobMagnum.SetConsole | src/ch/unil/magnumapp/JobMagnum.java:161-163 | sets the console and nothing else |
| MagnumJob.JobMagnum.Run | src/ch/unil/magnumapp/JobMagnum.java:72-136 | the exit is RunExitOf; exactly one completion is posted on every path that reports, none when something escapes; runtime is the body's elapsed time iff it returned, else -1; the new logger writes `<jobName>.log.txt`, is armed and uses the job's console; only the out-of-memory handler writes to its log file, the message or, with the flag up, the interrupt notice; the log file is closed exactly once on every reporting path and left open otherwise; the logger and engine are dropped iff the run reported |
| JobOutcome.CountedAs | src/ch/unil/magnumapp/view/JobController.java:169-198 | a reported job ends up finished iff its body returned and the batch was not stopped; aborted iff the batch was stopped or the body threw an Exception; lost iff it ran out of memory in a batch that was not stopped |
| JobOutcome.EscapedJobBlocksBatch | src/ch/unil/magnumapp/JobMagnum.java:72-136 | a job whose thread dies without reporting stays running in the controller's books, and the batch never reaches allJobsDone |
| JobOutcome.SecondOutOfMemoryBlocksBatch | src/ch/unil/magnumapp/JobMagnum.java:110-124 | after one job is lost to out-of-memory, the flag stays up while another runs, so a second out-of-memory error escapes through the logger's checkpoint, the job stays running and the batch never reaches allJobsDone |

## Left out

- Threads and `Platform.runLater`. Each completion and stop press is one atomic event handled on the event thread. `BatchSpec.ValidTrace` covers every order in which those events can arrive.
- What a job actually computes (`runJob`, the Magnum engine, `myMag`), the clock, and the output directory. The body's outcome and elapsed time are parameters of `MagnumJob.JobMagnum.Run`.
- Widgets and text: the dialog, buttons, progress indicator, label styles, the counter labels bound to the properties, and the messages `App.log` prints. The status label is modelled as the `Status` value it shows.
- `MagnumJob.JobMagnum.Run` reads the stop flag once per handler. The Exception handler's `getInterrupted` and the checkpoint reached by its `printStackTrace` are taken to see the same value, and so are the two writes of the out-of-memory handler. `printStackTrace` belongs to MagnumLogger, which is not part of this model. Its text is not modelled: the out-of-memory handler's checkpoint is modelled at its `println`, which goes through `print`.
- `MagnumJob.JobMagnum.Run`: `setVerbose(false)` belongs to MagnumLogger, which is not part of this model.
- `AppLog.AppLogger.PrintAll` appends to the console at once. The source defers the append through `Platform.runLater`.
- `AppLog.LogFile` stands in for FileExport, which is not part of this model. Writes after close are dropped.
- `JobController.print` and the console binding in `initializeDialog`: the console is handed to every job when `numCores == 1`. This only decides where text goes, and `MagnumJob.JobMagnum.SetConsole` models the setter it uses.
- `setController`, `getJobName`, `getRuntime`, `getInterrupted` and `getOutputDir` are plain accessors. The model reads the fields directly.
- `JobControl.JobController.Start` requires `numCores >= 1`. The dialog's choice box only offers 1 up to the number of available processors.
- A null job list in `initializeJobs` is not modelled, because a sequence cannot be null. An empty list is modelled.
