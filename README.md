# php-command-runner: a Dafny model of the process runner core

This project models the core of php-command-runner. The runner starts an
external command through `proc_open` and drains the command's stdout and
stderr pipes into one output string. It then closes the pipes and the process
handle and returns a read-only result object. The model also covers that
result value object (`ProcessResult`) and the requirement `RequireCommandFailed`,
which raises an error when a command did not fail.

The OS is replaced by an abstract process-and-pipe state (module `OsModel`):

- A process handle (`Child`) holds its two output pipes as values.
- Each pipe holds a *script*: the results that successive `fgets` calls on it
  will return. A result is the text the read returned (a whole line or part
  of one), `false` when nothing is ready, or an exception raised by the read.
- A pipe is at end-of-file exactly when its script is empty. The script being
  finite stands for the child eventually closing its end of the pipe. That is
  also what makes the drain loop terminate.
- A ghost log records the open, the two switches to non-blocking and the
  closes of the pipes and the handle, so their order can be stated. Reads are
  not recorded.
- Whether the spawn succeeds, what the pipes will yield and the exit code
  `proc_close` will report are all one parameter of type `Spawn`.

Modules:

- `Wrappers`: `Option`, `Result` and `Outcome`, which stand for returned
  values and thrown exceptions.
- `PhpValues`: PHP values reaching untyped parameters (`Mixed`), the
  numeric/stringy/traversable type tests, and PHP string truthiness.
- `CommandLine`: the escaped command line (`'php' '-i'`), with a decoder and
  a round-trip proof.
- `Values`: the `ProcessResult` class. It is a small state machine that is
  writable while the constructor fills it and read-only afterwards.
- `RequireCommandFailed`: the requirement, as functions.
- `OsModel`: the abstract process handle and pipes.
- `DrainSpec`: what the drain loop produces, as functions, and the
  interleaving lemmas.
- `PopenProcessRunner`: the timeout normaliser, start, drain, stop, the
  run orchestration and both entry points.
- `Scenarios`: clients that use the model through its contracts alone.
  `ListOneFile` follows the runner's basic-command test (`/bin/ls -l` on one
  file: exit code 0, output starting with `-rw`). The others exercise the
  value object, the requirement and a raising read on inputs of their own.

The model follows what the code does, including where it does less than a
process supervisor might be expected to:

- `drainPipes` has no deadline. The overall timeout is computed but never
  read, so the loop ends only when both pipes are at end-of-file.
- No stop signal is sent and there is no escalation to a kill.
- No lifecycle events are emitted.
- The entry points take no working directory.
- A read that returns exactly the string `"0"` is discarded, because PHP reads
  that string as false. The pipes are non-blocking, so `fgets` also returns
  partial lines: whatever text is buffered when no newline has arrived yet.
  A `"0"` can therefore be lost as the last, unterminated piece of output
  (`DrainSpec.BareZeroDropped`), and also in mid-stream, when the child
  flushes it between other partial writes (`DrainSpec.MidStreamZeroDropped`).
  A read that ends in a newline is always kept (`DrainSpec.TerminatedLineKept`).
- In the source, the start failure is thrown with an undefined variable as
  its payload. The model's `CommandFailedToStart` therefore carries nothing.
- The runner builds a `CommandResult`, and `RequireCommandFailed` checks one.
  That class's source is not part of this model. Its tests are the same as
  those of `ProcessResult`, so the `ProcessResult` class stands in for it.

## Model

| member | source | states |
|---|---|---|
| PopenProcessRunner.TimeoutToUse | src/ProcessRunners/PopenProcessRunner.php:122-130 | each wait lasts 200000 to 1000000 µs and is never zero, including for zero or negative timeouts; a timeout of 1.0 or more waits exactly 1 s and 0 µs, a shorter one waits 0 s plus its microseconds truncated and floored at 200000; the overall limit is max(t, 0.2); no timeout gives (unbounded, 1, 0) |
| PopenProcessRunner.IntVal | src/ProcessRunners/PopenProcessRunner.php:129 | `intval` on a float truncates toward zero: the result is within one of x, on the side of zero |
| PopenProcessRunner.StartProcess | src/ProcessRunners/PopenProcessRunner.php:141-167 | fails with CommandFailedToStart exactly when the spawn gives no handle, and nothing else happens then; otherwise returns a fresh handle for the escaped command line, with both pipes open, unread and switched to non-blocking, in that order |
| PopenProcessRunner.GetOutputFromPipe | src/ProcessRunners/PopenProcessRunner.php:265-272 | one read from one pipe; fails with ReadRaised exactly when the read raises; otherwise returns the line unless the read gave false or a falsy line, in which case it returns ""; the other pipe and the handle are unchanged |
| PopenProcessRunner.DrainPipes | src/ProcessRunners/PopenProcessRunner.php:215-234 | loops until both pipes are at end-of-file, one read from stdout then one from stderr per pass; fails with ReadRaised exactly when some pass meets a read that raises; otherwise the output is the drained output of the two scripts and both are consumed; either way the pipes stay open and the handle is untouched |
| PopenProcessRunner.StopProcess | src/ProcessRunners/PopenProcessRunner.php:179-188 | closes pipe 1, then pipe 2, then the handle, and returns exactly the exit code that closing the handle reports |
| PopenProcessRunner.RunCommand | src/ProcessRunners/PopenProcessRunner.php:90-110 | a failed start gives CommandFailedToStart with no calls on any process; once started, the calls are exactly open, two switches to non-blocking, close stdout, close stderr and one close of the handle, whether the drain returned or raised (the finally block); a raising drain's exception is the outcome, otherwise a read-only result with the original command, the exit code and the drained output |
| PopenProcessRunner.Run | src/ProcessRunners/PopenProcessRunner.php:71-78 | a non-traversable command is rejected with UnsupportedType, then a timeout that is not null or a number is rejected with InvalidTimeout, both before any process call; otherwise the run is as RunCommand |
| PopenProcessRunner.Invoke | src/ProcessRunners/PopenProcessRunner.php:284-287 | goes straight to the run with no checks of its own: same outcome and calls as RunCommand |
| DrainSpec.Piece | src/ProcessRunners/PopenProcessRunner.php:267-271 | a read adds something exactly when it is a line PHP reads as true (not "" and not "0"), and then adds that line unchanged |
| DrainSpec.RaisesIffSomeReadRaises | src/ProcessRunners/PopenProcessRunner.php:225-230 | the drain meets every read of both pipes, so it raises exactly when some read on either pipe raises |
| DrainSpec.DrainedInterleaves | src/ProcessRunners/PopenProcessRunner.php:225-230 | the drained output is an interleaving of the lines kept from stdout and from stderr, and keeps each pipe's order |
| DrainSpec.DrainedKeepsEveryLine | src/ProcessRunners/PopenProcessRunner.php:225-230 | every line kept from either pipe appears in the output as often as it was read, and nothing else does |
| DrainSpec.InterleavesMultiset | src/ProcessRunners/PopenProcessRunner.php:227-229 | an interleaving holds each element exactly as often as its two sources together |
| DrainSpec.ReadLineKept | src/ProcessRunners/PopenProcessRunner.php:225-230 | every read on a pipe that returns a line PHP reads as true is among that pipe's kept lines, whatever reads came before it |
| DrainSpec.LateLineKept | src/ProcessRunners/PopenProcessRunner.php:225-230 | for any two scripts, every line either pipe returns on any pass, and PHP reads as true, is in the drained output: reads that find nothing ready, or that are dropped, do not end the drain |
| DrainSpec.TerminatedLineKept | src/ProcessRunners/PopenProcessRunner.php:267 | a read that ends with a newline is never dropped |
| DrainSpec.BareZeroDropped | src/ProcessRunners/PopenProcessRunner.php:267 | a child that prints only "0" with no newline produces empty output |
| DrainSpec.MidStreamZeroDropped | src/ProcessRunners/PopenProcessRunner.php:267 | a child whose output arrives as the partial reads "1", "0" and a newline produces "1\n": the "0" in mid-stream is dropped too |
| Values.ProcessResult.Create | src/Values/ProcessResult.php:65-78 | a non-numeric return code, then non-stringy output, is rejected with UnsupportedType before anything is allocated or set; otherwise a fresh read-only object whose getters return exactly the command, return code and output passed in, including negative codes and output with blank lines |
| Values.ProcessResult.GetCommand | src/Values/ProcessResult.php:60 | returns the stored command, whether or not the object is read-only; with Create and SetCommand this is exactly the command last stored |
| Values.ProcessResult.GetReturnCode | src/Values/ProcessResult.php:56 | returns the stored return code, whether or not the object is read-only; with Create and SetReturnCode this is exactly the code last stored |
| Values.ProcessResult.GetOutput | src/Values/ProcessResult.php:58 | returns the stored output, whether or not the object is read-only; with Create and SetOutput this is exactly the output last stored |
| Values.ProcessResult.SetCommand | src/Values/ProcessResult.php:61 | on a read-only object fails with NoSuchMethod and changes nothing; on a writable object makes GetCommand return the new command and leaves the other fields alone |
| Values.ProcessResult.SetReturnCode | src/Values/ProcessResult.php:57 | on a read-only object fails with NoSuchMethod and changes nothing; on a writable object makes GetReturnCode return the new code and leaves the other fields alone |
| Values.ProcessResult.SetOutput | src/Values/ProcessResult.php:59 | on a read-only object fails with NoSuchMethod and changes nothing; on a writable object makes GetOutput return the new output and leaves the other fields alone |
| Values.ProcessResult.MakeReadOnly | src/Values/ProcessResult.php:77 | the object becomes read-only and keeps its values |
| Values.ProcessResult.Blank | src/Values/ProcessResult.php:63 | a new lazy value object is writable and empty |
| Values.ProcessResult.GetCommandAsString | src/Values/ProcessResult.php:80-83 | depends on the stored command alone, and splitting it gives that command back when no token holds a quote |
| CommandLine.EscapedCommandLine | src/Values/ProcessResult.php:82 | a non-empty command gives a line that starts with a quote; an empty one gives "" |
| CommandLine.QuoteToken | tests/ValueBuilders/BuildEscapedCommandTest.php:119-124 | a token without quotes is wrapped in single quotes |
| CommandLine.SplitEscaped | src/Values/ProcessResult.php:80-83 | splitting the escaped line of quote-free tokens gives the tokens back |
| CommandLine.EscapedCommandLineInjective | src/Values/ProcessResult.php:80-83 | two different quote-free commands never share a command line |
| CommandLine.PhpInfoCommandLine | tests/Values/ProcessResultTest.php:109-124 | ['php', '-i'] becomes 'php' '-i' |
| RequireCommandFailed.CheckCommandResult | src/Requirements/RequireCommandFailed.php:61-68 | for an integer exit code, passes exactly when the code is non-zero; when it fails, the code is 0 and the error carries the very result object that was checked; it only reads the result |
| RequireCommandFailed.Check | src/Requirements/RequireCommandFailed.php:77-80 | behaves exactly as CheckCommandResult |
| RequireCommandFailed.Invoke | src/Requirements/RequireCommandFailed.php:89-92 | behaves exactly as CheckCommandResult |

## Left out

- `waitForTimeout` (`stream_select`) only bounds how long one pass of the drain loop blocks. It changes no state in a sequential model, so it is not modelled. This is why `DrainPipes` takes the timing policy without using it.
- `buildPipesSpec` and the binding of the child's stdin to the supervisor's stdin are plain I/O set-up and are not modelled.
- `proc_open`, `fgets`, `feof`, `fclose`, `proc_close` and `stream_set_blocking` are replaced by the abstract handle in `OsModel`. A read that returns part of a line is a `Line` entry holding that partial text; a read that finds nothing ready, or fails quietly, is a `false` entry; a read that throws is a `Raised` entry. Real blocking is not modelled.
- A child that never closes its pipes is not modelled, because every script is finite. The source would loop forever on such a child.
- PopenProcessRunner.RunCommand: only `fgets` may raise while draining. In the source nothing the drain calls throws on open pipes: `feof`, `fgets` and `stream_select` report problems through return values and warnings. The `finally` block is reached by an exception only when a caller's error handler turns such a warning into one. That handler is not part of this model; the `Raised` read stands for it. A raise from `feof` or `stream_select` is not modelled separately.
- `BuildTimeoutAsFloat` is not part of this model. A null timeout is assumed to mean no overall limit and a one-second wait. Floats beyond PHP's integer range, and IEEE rounding, are not modelled. Timeouts are reals.
- `RequireTimeoutOrNull` is not part of this model. It is taken to accept null, integers and floats. Numeric strings are treated as invalid timeouts.
- `RequireNumeric` is not part of this model either. Numeric strings are taken to be decimal numerals with an optional sign and fraction. Exponents and surrounding whitespace are not modelled.
- Arrays are modelled as lists of string tokens. Other `Traversable` objects, and arrays holding non-strings, are not modelled.
- PopenProcessRunner.Invoke: takes only an argument list and a timeout value, the values `run` accepts. `__invoke` passes whatever it is given straight to `runCommand`, and what `BuildEscapedCommand` and `BuildTimeoutAsFloat` do with other values is not part of this model, so calls `run` would reject are not modelled here.
- `BuildEscapedCommand` (used by the runner to build the line it starts) and `BuildEscapedCommandLine` (used by `getCommandAsString`) are not part of this model. Both are modelled by the single function `CommandLine.EscapedCommandLine`, and only the `'php' '-i'` tests pin that function down.
- `RequireStringy` is not part of this model. It is taken to accept exactly strings and objects that can be converted to a string (`__toString`).
- Values.ProcessResult.GetCommandAsString: the round trip is stated only for tokens without a single quote. For other tokens, the body uses the usual `'\''` escaping, but no contract states it.
- RequireCommandFailed.CheckCommandResult: `DidCommandFail` is not part of this model. It is modelled as "the stored return code is not the integer 0". Float and numeric-string return codes therefore count as failures, and the contract does not speak about them.
- The magic getters and setters of `LazyValueObject` are modelled only for the three fields of `ProcessResult`.
- `CommandResult`, `DidCommandSucceed`, `DidProcessSucceed`, `DidProcessFail` and `RequireCommandSucceeded` are not part of this model. The `ProcessResult` class and `RequireCommandFailed.DidCommandFail` stand in for them.
- Event notifications and the working-directory argument are not modelled. The tests pass them, but the entry points shown here do not accept them.
- The exception class hierarchy is not modelled.
