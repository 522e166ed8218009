/** `AppLogger`: a per-job logger that fans each message out to standard
    output, an optional console and an optional log file, and that doubles as
    the jobs' cancellation checkpoint. */
module AppLog {

  /** How a call to `print` ends: normally, or by throwing
      `RuntimeException("Thread interrupted")`. */
  datatype PrintResult = Printed | ThreadInterrupted

  /** What `print` writes in place of the message when it cancels the job. */
  const InterruptNotice: string := "\nJOB INTERRUPTED!\n"

  /** The message of the `RuntimeException` that `print` throws then. */
  const InterruptMessage: string := "Thread interrupted"

  /** The checkpoint at the head of `print`: it fires only when the logger
      checks for interrupts and the stop flag is up. */
  function Checkpoint(checkInterrupt: bool, interrupted: bool): (r: PrintResult)
    ensures r == ThreadInterrupted <==> checkInterrupt && interrupted
  {
    if checkInterrupt && interrupted then ThreadInterrupted else Printed
  }

  /** The text `print` hands to the sinks. */
  function Written(checkInterrupt: bool, interrupted: bool, msg: string): (w: string)
    ensures !checkInterrupt ==> w == msg
    ensures checkInterrupt && !interrupted ==> w == msg
    ensures checkInterrupt && interrupted ==> w == InterruptNotice
  {
    if Checkpoint(checkInterrupt, interrupted) == ThreadInterrupted then InterruptNotice else msg
  }

  /** A text area that messages are appended to. */
  class Console {
    var text: seq<string>

    constructor ()
      ensures text == []
    {
      text := [];
    }
  }

  /** A log file on disk, as the lines written to it. */
  class LogFile {
    const name: string
    var lines: seq<string>
    var open: bool
    /** How many times the file has been closed. */
    ghost var closeCalls: nat

    constructor (name: string)
      ensures this.name == name && lines == [] && open && closeCalls == 0
    {
      this.name := name;
      lines := [];
      open := true;
      closeCalls := 0;
    }

    /** Lines written after the file is closed are lost. */
    method Print(msg: string)
      modifies this
      ensures lines == old(lines) + (if old(open) then [msg] else [])
      ensures open == old(open) && closeCalls == old(closeCalls)
    {
      if open {
        lines := lines + [msg];
      }
    }

    method Close()
      modifies this
      ensures !open && lines == old(lines) && closeCalls == old(closeCalls) + 1
    {
      open := false;
      closeCalls := closeCalls + 1;
    }
  }

  class AppLogger {
    /** Set if `print` is a cancellation checkpoint. */
    var checkInterrupt: bool
    /** Set if output is copied to standard output. */
    var systemOut: bool
    var console: Console?
    var logFile: LogFile?
    /** What this logger has written to standard output. */
    var stdout: seq<string>

    constructor ()
      ensures !checkInterrupt && systemOut && console == null && logFile == null
      ensures stdout == []
    {
      checkInterrupt := false;
      systemOut := true;
      console := null;
      logFile := null;
      stdout := [];
    }

    method SetCheckInterrupt(checkInterrupt: bool)
      modifies this`checkInterrupt
      ensures this.checkInterrupt == checkInterrupt
    {
      this.checkInterrupt := checkInterrupt;
    }

    method SetSystemOut(systemOut: bool)
      modifies this`systemOut
      ensures this.systemOut == systemOut
    {
      this.systemOut := systemOut;
    }

    method SetConsole(console: Console?)
      modifies this`console
      ensures this.console == console
    {
      this.console := console;
    }

    /** `createLogFile`: a new, empty, open file becomes the log file. */
    method CreateLogFile(name: string)
      modifies this`logFile
      ensures logFile != null && fresh(logFile)
      ensures logFile.name == name && logFile.lines == [] && logFile.open && logFile.closeCalls == 0
    {
      logFile := new LogFile(name);
    }

    /** `closeLogFile`; the source dereferences the log file unconditionally. */
    method CloseLogFile()
      requires logFile != null
      modifies logFile
      ensures !logFile.open && logFile.lines == old(logFile.lines)
      ensures logFile.closeCalls == old(logFile.closeCalls) + 1
    {
      logFile.Close();
    }

    /** `printAll`: the message goes to standard output if `systemOut` is
        set, to the console if there is one, and to the log file if there is
        one; nothing else changes. */
    method PrintAll(msg: string)
      modifies this`stdout, console, logFile
      ensures stdout == old(stdout) + (if systemOut then [msg] else [])
      ensures console != null ==> console.text == old(console.text) + [msg]
      ensures logFile != null ==> && logFile.lines == old(logFile.lines) + (if old(logFile.open) then [msg] else [])
                                  && logFile.open == old(logFile.open)
                                  && logFile.closeCalls == old(logFile.closeCalls)
    {
      if systemOut {
        stdout := stdout + [msg];
      }
      if console != null {
        console.text := console.text + [msg];
      }
      if logFile != null {
        logFile.Print(msg);
      }
    }

    /** `print`: the cancellation checkpoint, then the fan-out.  When the
        checkpoint fires, the interrupt notice is written in place of the
        message and the call ends by throwing.  `interrupted` is the value of
        the stop flag read by the check. */
    method Print(msg: string, interrupted: bool) returns (r: PrintResult)
      modifies this`stdout, console, logFile
      ensures r == Checkpoint(checkInterrupt, interrupted)
      ensures var w := Written(checkInterrupt, interrupted, msg);
        && stdout == old(stdout) + (if systemOut then [w] else [])
        && (console != null ==> console.text == old(console.text) + [w])
        && (logFile != null ==> && logFile.lines == old(logFile.lines) + (if old(logFile.open) then [w] else [])
                                && logFile.open == old(logFile.open)
                                && logFile.closeCalls == old(logFile.closeCalls))
    {
      if checkInterrupt && interrupted {
        PrintAll(InterruptNotice);
        return ThreadInterrupted;
      }
      PrintAll(msg);
      r := Printed;
    }
  }

  /** A logger is a checkpoint only once it is told to be: a new logger
      forwards every message, whatever the stop flag says. */
  method NewLoggerNeverCancels(msg: string, interrupted: bool) returns (r: PrintResult, shown: seq<string>)
    ensures r == Printed && shown == [msg]
  {
    var log := new AppLogger();
    r := log.Print(msg, interrupted);
    shown := log.stdout;
  }

  /** After `setCheckInterrupt(true)`, a raised stop flag makes the next
      `print` write only the interrupt notice and throw. */
  method ArmedLoggerCancels(msg: string) returns (r: PrintResult, shown: seq<string>)
    ensures r == ThreadInterrupted && shown == [InterruptNotice]
  {
    var log := new AppLogger();
    log.SetCheckInterrupt(true);
    r := log.Print(msg, true);
    shown := log.stdout;
  }
}
