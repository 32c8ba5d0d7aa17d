/** Runs a command as a child process and collects its combined output:
    start the process, drain both output pipes until each is at end-of-file,
    close the pipes and then the handle, and wrap command, exit code and
    output in a result object. */
module PopenProcessRunner {
  import opened Wrappers
  import opened PhpValues
  import opened OsModel
  import opened DrainSpec
  import CommandLine
  import Values

  /** A caller's timeout, once it has passed the timeout-or-null check. */
  datatype Timeout = NoTimeout | Seconds(value: real)

  datatype Deadline = Unbounded | After(seconds: real)

  /** The overall timeout, and the seconds and microseconds each readiness
      wait may block for. */
  datatype TimeoutPolicy = TimeoutPolicy(overall: Deadline, waitSeconds: int, waitMicros: int)

  datatype RunError =
    | UnsupportedType(value: Mixed)  // the command is not traversable
    | InvalidTimeout(value: Mixed)   // the timeout is neither null nor a number
    | CommandFailedToStart           // the spawn gave no process handle
    | ReadRaised                     // a read on one of the pipes raised

  function MaxReal(a: real, b: real): real
  {
    if a >= b then a else b
  }

  function MaxInt(a: int, b: int): int
  {
    if a >= b then a else b
  }

  /** PHP's intval on a float: the integer part, truncated toward zero. */
  function IntVal(x: real): (n: int)
    ensures x >= 0.0 ==> n as real <= x < n as real + 1.0
    ensures x < 0.0 ==> n as real - 1.0 < x <= n as real
  {
    if x >= 0.0 then x.Floor else -((-x).Floor)
  }

  /** The length of one readiness wait, in microseconds. */
  function WaitMicros(p: TimeoutPolicy): int
  {
    p.waitSeconds * 1000000 + p.waitMicros
  }

  /** Turns the caller's timeout into the timing policy. A timeout of a second
      or more waits one whole second per pass; anything shorter waits that
      long in microseconds, but never less than 0.2 s, so zero and negative
      timeouts still wait. No timeout waits one second per pass and sets no
      overall limit. */
  function TimeoutToUse(t: Timeout): (p: TimeoutPolicy)
    ensures 200000 <= WaitMicros(p) <= 1000000
    ensures p.waitSeconds == 1 ==> p.waitMicros == 0
    ensures p.waitSeconds == 0 ==> 200000 <= p.waitMicros < 1000000
    ensures t.NoTimeout? ==> p == TimeoutPolicy(Unbounded, 1, 0)
    ensures t.Seconds? ==> p.overall == After(MaxReal(t.value, 0.2))
    ensures t.Seconds? ==> (p.waitSeconds == 1 <==> t.value >= 1.0)
    ensures t.Seconds? && 0.2 <= t.value < 1.0 ==>
      p.waitMicros as real <= t.value * 1000000.0 < p.waitMicros as real + 1.0
    ensures t.Seconds? && t.value < 0.2 ==> p.waitMicros == 200000
  {
    match t
    case NoTimeout => TimeoutPolicy(Unbounded, 1, 0)
    case Seconds(tAsF) =>
      if tAsF >= 1.0 then TimeoutPolicy(After(tAsF), 1, 0)
      else TimeoutPolicy(After(MaxReal(tAsF, 0.2)), 0, MaxInt(IntVal(tAsF * 1000000.0), 200000))
  }

  /** The handle just after a successful start: both pipes open, still to be
      read from the beginning, and switched to non-blocking. */
  ghost predicate Started(c: Child, command: seq<string>, spawn: Spawn)
    reads c
  {
    && spawn.Spawned?
    && c.commandLine == CommandLine.EscapedCommandLine(command)
    && c.exitCode == spawn.exitCode
    && c.stdout == Pipe(spawn.out, false, true)
    && c.stderr == Pipe(spawn.err, false, true)
    && c.isOpen
    && c.log == [Opened(c.commandLine), BlockingSet(Stdout, false), BlockingSet(Stderr, false)]
  }

  /** Starts the command. When the spawn yields no handle the start fails and
      nothing else happens; otherwise both output pipes are made
      non-blocking before the handle is returned. */
  method StartProcess(command: seq<string>, spawn: Spawn) returns (r: Result<Child, RunError>)
    ensures r.Failure? <==> spawn.SpawnFailed?
    ensures r.Failure? ==> r.error == CommandFailedToStart
    ensures r.Success? ==> fresh(r.value) && Started(r.value, command, spawn)
  {
    var cmdToExecute := CommandLine.EscapedCommandLine(command);
    if spawn.SpawnFailed? {
      return Failure(CommandFailedToStart);
    }
    var process := new Child(cmdToExecute, spawn.out, spawn.err, spawn.exitCode);
    process.StreamSetBlocking(Stdout, false);
    process.StreamSetBlocking(Stderr, false);
    r := Success(process);
  }

  /** Reads one line from a pipe and returns what it adds to the output: the
      line, or "" when the read gave false or a line PHP reads as false. A
      read that raises passes its exception on. */
  method GetOutputFromPipe(c: Child, s: Stream) returns (chunk: Result<string, RunError>)
    requires c.PipeOf(s).isOpen
    modifies c
    ensures chunk.Failure? <==> First(old(c.PipeOf(s).script)).Raised?
    ensures chunk.Failure? ==> chunk.error == ReadRaised
    ensures chunk.Success? ==> chunk.value == Piece(First(old(c.PipeOf(s).script)))
    ensures c.PipeOf(s) == old(c.PipeOf(s)).(script := Rest(old(c.PipeOf(s).script)))
    ensures c.PipeOf(Other(s)) == old(c.PipeOf(Other(s)))
    ensures c.isOpen == old(c.isOpen) && c.log == old(c.log)
  {
    var line := c.FGets(s);
    if line.Raised? {
      return Failure(ReadRaised);
    }
    if line.Line? && IsTruthy(line.text) {
      return Success(line.text);
    }
    return Success("");
  }

  /** Reads both pipes, one line from each per pass, until both are at
      end-of-file, and returns everything read in the order it was appended;
      a read that raises ends the drain with its exception. The timing
      policy only bounds how long each pass may block; no deadline ends the
      loop. */
  method DrainPipes(c: Child, timeout: TimeoutPolicy) returns (output: Result<string, RunError>)
    requires c.stdout.isOpen && c.stderr.isOpen
    modifies c
    ensures output.Failure? <==> Raises(old(c.stdout.script), old(c.stderr.script))
    ensures output.Failure? ==> output.error == ReadRaised
    ensures output.Success? ==> output.value == DrainedOutput(old(c.stdout.script), old(c.stderr.script))
    ensures output.Success? ==> c.stdout.script == [] && c.stderr.script == []
    ensures c.stdout.isOpen && c.stdout.blocking == old(c.stdout.blocking)
    ensures c.stderr.isOpen && c.stderr.blocking == old(c.stderr.blocking)
    ensures c.isOpen == old(c.isOpen) && c.log == old(c.log)
  {
    var text := "";
    ghost var chunks: seq<string> := [];
    ghost var out0, err0 := c.stdout.script, c.stderr.script;
    ghost var whole := DrainedChunks(out0, err0);
    while !c.stdout.Eof() || !c.stderr.Eof()
      invariant c.stdout.isOpen && c.stdout.blocking == old(c.stdout.blocking)
      invariant c.stderr.isOpen && c.stderr.blocking == old(c.stderr.blocking)
      invariant c.isOpen == old(c.isOpen) && c.log == old(c.log)
      invariant Raises(c.stdout.script, c.stderr.script) == Raises(out0, err0)
      invariant DrainedSoFar(chunks, text, c.stdout.script, c.stderr.script, whole)
      decreases |c.stdout.script| + |c.stderr.script|
    {
      ghost var out, err := c.stdout.script, c.stderr.script;
      DrainPass(chunks, text, out, err, whole);
      var fromOut := GetOutputFromPipe(c, Stdout);
      if fromOut.Failure? {
        return Failure(fromOut.error);
      }
      text := text + fromOut.value;
      var fromErr := GetOutputFromPipe(c, Stderr);
      if fromErr.Failure? {
        return Failure(fromErr.error);
      }
      text := text + fromErr.value;
      chunks := chunks + NextChunk(out) + NextChunk(err);
    }
    DrainFinished(chunks, text, out0, err0);
    output := Success(text);
  }

  /** Closes both pipes and then the handle, and returns exactly the exit
      code closing the handle reports. */
  method StopProcess(c: Child) returns (code: int)
    requires c.isOpen && c.stdout.isOpen && c.stderr.isOpen
    modifies c
    ensures code == c.exitCode && !c.isOpen
    ensures c.stdout == old(c.stdout).(isOpen := false)
    ensures c.stderr == old(c.stderr).(isOpen := false)
    ensures c.log == old(c.log) + [PipeClosed(Stdout), PipeClosed(Stderr), HandleClosed]
  {
    c.FClose(Stdout);
    c.FClose(Stderr);
    code := c.ProcClose();
  }

  /** The calls a run makes on the process and its pipes, in order: none when
      the spawn fails; otherwise open, two switches to non-blocking, and the
      two pipe closes before the single close of the handle, the same
      whether the drain returned or raised. */
  function RunTrace(command: seq<string>, spawn: Spawn): seq<Call>
  {
    if spawn.SpawnFailed? then []
    else [Opened(CommandLine.EscapedCommandLine(command)),
          BlockingSet(Stdout, false), BlockingSet(Stderr, false),
          PipeClosed(Stdout), PipeClosed(Stderr), HandleClosed]
  }

  /** The outcome of a run: the start failure; the exception of a read that
      raised while draining; or a read-only result holding the original
      command, the exit code and the drained output. */
  ghost predicate RanAsSpawned(r: Result<Values.ProcessResult, RunError>, command: seq<string>, spawn: Spawn)
    reads if r.Success? then {r.value} else {}
  {
    match spawn
    case SpawnFailed => r == Failure(CommandFailedToStart)
    case Spawned(out, err, exitCode) =>
      if Raises(out, err) then r == Failure(ReadRaised)
      else
        && r.Success?
        && r.value.readOnly
        && r.value.GetCommand() == command
        && r.value.GetReturnCode() == Int(exitCode)
        && r.value.GetOutput() == Str(DrainedOutput(out, err))
  }

  /** Runs a command: work out the timing, start the process, drain it, and
      close it whatever the drain did, then build the result. */
  method RunCommand(command: seq<string>, timeout: Timeout, spawn: Spawn)
    returns (r: Result<Values.ProcessResult, RunError>, ghost trace: seq<Call>)
    ensures RanAsSpawned(r, command, spawn)
    ensures trace == RunTrace(command, spawn)
  {
    var timeoutToUse := TimeoutToUse(timeout);
    var started := StartProcess(command, spawn);
    if started.Failure? {
      return Failure(started.error), [];
    }
    var process := started.value;
    var output := DrainPipes(process, timeoutToUse);
    // The finally block: the process is stopped whether or not the drain
    // raised, and a raised exception then goes on to the caller.
    var retval := StopProcess(process);
    trace := process.log;
    if output.Failure? {
      return Failure(output.error), trace;
    }
    var made := Values.ProcessResult.Create(command, Int(retval), Str(output.value));
    assert made.Success?;
    r := Success(made.value);
  }

  /** Accepted by the timeout-or-null check. */
  predicate IsTimeoutOrNull(v: Mixed)
  {
    v.Null? || v.Int? || v.Float?
  }

  function AsTimeout(v: Mixed): Timeout
    requires IsTimeoutOrNull(v)
  {
    match v
    case Int(i) => Seconds(i as real)
    case Float(f) => Seconds(f)
    case Null => NoTimeout
  }

  /** The static entry point: rejects a command that is not traversable, then
      a timeout that is neither null nor a number, before anything is
      started; otherwise runs the command. */
  method Run(command: Mixed, timeout: Mixed, spawn: Spawn)
    returns (r: Result<Values.ProcessResult, RunError>, ghost trace: seq<Call>)
    ensures !IsTraversable(command) ==> r == Failure(UnsupportedType(command)) && trace == []
    ensures IsTraversable(command) && !IsTimeoutOrNull(timeout) ==>
      r == Failure(InvalidTimeout(timeout)) && trace == []
    ensures IsTraversable(command) && IsTimeoutOrNull(timeout) ==>
      RanAsSpawned(r, command.items, spawn) && trace == RunTrace(command.items, spawn)
  {
    if !IsTraversable(command) {
      return Failure(UnsupportedType(command)), [];
    }
    if !IsTimeoutOrNull(timeout) {
      return Failure(InvalidTimeout(timeout)), [];
    }
    r, trace := RunCommand(command.items, AsTimeout(timeout), spawn);
  }

  /** The entry point used when the runner is called as an object: straight
      to the run, with no checks. */
  method Invoke(command: seq<string>, timeout: Timeout, spawn: Spawn)
    returns (r: Result<Values.ProcessResult, RunError>, ghost trace: seq<Call>)
    ensures RanAsSpawned(r, command, spawn)
    ensures trace == RunTrace(command, spawn)
  {
    r, trace := RunCommand(command, timeout, spawn);
  }
}
