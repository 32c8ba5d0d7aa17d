/** The operating-system side of running a child process: the process handle
    and the two output pipes the supervisor reads. Nothing here touches a real
    process; what the child writes is given up front as the sequence of
    results that successive line reads on each pipe will produce. */
module OsModel {

  /** One result of a line read on a non-blocking pipe: the text it returned
      (a whole line, or only the part of a line that was ready, which may be
      as short as "0"), false when nothing at all was ready, or an exception
      raised by the read itself. */
  datatype Read = Line(text: string) | NoLine | Raised

  datatype Stream = Stdout | Stderr

  /** The calls made on the process handle and its pipes, in order. */
  datatype Call =
    | Opened(commandLine: string)                // proc_open
    | BlockingSet(stream: Stream, blocking: bool)  // stream_set_blocking
    | PipeClosed(stream: Stream)                   // fclose
    | HandleClosed                                 // proc_close

  /** What happens when the OS is asked to spawn the command: no handle at
      all, or a child whose pipes will yield the given reads and which will
      report the given exit code when closed. */
  datatype Spawn =
    | SpawnFailed
    | Spawned(out: seq<Read>, err: seq<Read>, exitCode: int)

  /** The supervisor's end of one output pipe. The script holds the results
      of every read still to come; once it is empty the child has closed its
      end and everything has been read, which is end-of-file. */
  datatype Pipe = Pipe(script: seq<Read>, blocking: bool, isOpen: bool)
  {
    predicate Eof()
    {
      script == []
    }
  }

  /** The next read on a script: its first result, or false at end-of-file. */
  function First(script: seq<Read>): Read
  {
    if script == [] then NoLine else script[0]
  }

  /** The script after one read; a read at end-of-file consumes nothing. */
  function Rest(script: seq<Read>): (rest: seq<Read>)
    ensures script == [] ==> rest == []
    ensures script != [] ==> [script[0]] + rest == script
  {
    if script == [] then [] else script[1..]
  }

  function Other(s: Stream): Stream
  {
    if s == Stdout then Stderr else Stdout
  }

  /** A process handle together with the two pipes it was opened with. */
  class Child {
    const commandLine: string
    const exitCode: int
    var stdout: Pipe
    var stderr: Pipe
    var isOpen: bool
    ghost var log: seq<Call>

    /** The handle a successful spawn gives: both pipes open and blocking. */
    constructor (commandLine: string, out: seq<Read>, err: seq<Read>, exitCode: int)
      ensures this.commandLine == commandLine && this.exitCode == exitCode
      ensures stdout == Pipe(out, true, true) && stderr == Pipe(err, true, true)
      ensures isOpen && log == [Opened(commandLine)]
    {
      this.commandLine := commandLine;
      this.exitCode := exitCode;
      stdout := Pipe(out, true, true);
      stderr := Pipe(err, true, true);
      isOpen := true;
      log := [Opened(commandLine)];
    }

    function PipeOf(s: Stream): Pipe
      reads this
    {
      if s == Stdout then stdout else stderr
    }

    /** End-of-file on one pipe. */
    predicate Eof(s: Stream)
      reads this
    {
      PipeOf(s).Eof()
    }

    method StreamSetBlocking(s: Stream, blocking: bool)
      modifies this
      ensures PipeOf(s) == old(PipeOf(s)).(blocking := blocking)
      ensures PipeOf(Other(s)) == old(PipeOf(Other(s)))
      ensures isOpen == old(isOpen) && log == old(log) + [BlockingSet(s, blocking)]
    {
      if s == Stdout {
        stdout := stdout.(blocking := blocking);
      } else {
        stderr := stderr.(blocking := blocking);
      }
      log := log + [BlockingSet(s, blocking)];
    }

    /** Reads one line from a pipe, or false when none is ready or the pipe
        is at end-of-file. */
    method FGets(s: Stream) returns (r: Read)
      requires PipeOf(s).isOpen
      modifies this
      ensures r == First(old(PipeOf(s).script))
      ensures PipeOf(s) == old(PipeOf(s)).(script := Rest(old(PipeOf(s).script)))
      ensures PipeOf(Other(s)) == old(PipeOf(Other(s)))
      ensures isOpen == old(isOpen) && log == old(log)
    {
      if s == Stdout {
        r := First(stdout.script);
        stdout := stdout.(script := Rest(stdout.script));
      } else {
        r := First(stderr.script);
        stderr := stderr.(script := Rest(stderr.script));
      }
    }

    /** Closes the supervisor's end of a pipe. */
    method FClose(s: Stream)
      requires PipeOf(s).isOpen
      modifies this
      ensures PipeOf(s) == old(PipeOf(s)).(isOpen := false)
      ensures PipeOf(Other(s)) == old(PipeOf(Other(s)))
      ensures isOpen == old(isOpen) && log == old(log) + [PipeClosed(s)]
    {
      if s == Stdout {
        stdout := stdout.(isOpen := false);
      } else {
        stderr := stderr.(isOpen := false);
      }
      log := log + [PipeClosed(s)];
    }

    /** Closes the handle, waiting for the child, and returns its exit code. */
    method ProcClose() returns (code: int)
      requires isOpen
      modifies this
      ensures code == exitCode && !isOpen
      ensures stdout == old(stdout) && stderr == old(stderr)
      ensures log == old(log) + [HandleClosed]
    {
      isOpen := false;
      log := log + [HandleClosed];
      code := exitCode;
    }
  }
}
