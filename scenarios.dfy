/** Clients that use the model through its contracts alone. ListOneFile
    follows the runner's basic-command test; the others exercise the value
    object, the requirement and a raising read on inputs of their own. */
module Scenarios {
  import opened Wrappers
  import opened PhpValues
  import opened OsModel
  import Values
  import RequireCommandFailed
  import PopenProcessRunner
  import DrainSpec

  /** A result hands back what it was built from, and refuses to change. */
  method ProcessResultIsReadOnly()
  {
    var made := Values.ProcessResult.Create(["php", "-i"], Int(100), Str("line one\n\nline three"));
    assert made.Success?;
    var r := made.value;
    assert r.GetCommand() == ["php", "-i"];
    assert r.GetOutput() == Str("line one\n\nline three");
    var attempt := r.SetReturnCode(Int(101));
    assert attempt == Fail(Values.NoSuchMethod("setReturnCode"));
    assert r.GetReturnCode() == Int(100);

    var bad := Values.ProcessResult.Create([], Str("abc"), Str(""));
    assert bad == Failure(Values.UnsupportedType(Str("abc")));
  }

  /** A result with a non-zero exit code passes the requirement; a zero one
      is rejected with that same result. */
  method RequireFailedOnResults()
  {
    var failed := Values.ProcessResult.Create([], Int(-255), Str(""));
    assert failed.Success?;
    assert RequireCommandFailed.Check(failed.value) == Pass;

    var succeeded := Values.ProcessResult.Create([], Int(0), Str(""));
    assert succeeded.Success?;
    assert RequireCommandFailed.Invoke(succeeded.value) ==
      Fail(RequireCommandFailed.CommandSucceeded(succeeded.value));
  }

  /** ls -l on one file, as the runner's basic-command test runs it on its
      own source file: exit code 0 and output that starts with the file's
      permissions, even when the first read finds nothing ready yet. Only
      the "-rw" prefix of the listing is known, so the rest is a parameter. */
  method ListOneFile(file: string, rest: string)
  {
    var listing := "-rw" + rest;
    var spawn := Spawned([NoLine, Line(listing)], [], 0);
    OneLateLineDrained(listing);
    var r, trace := PopenProcessRunner.Invoke(["/bin/ls", "-l", file], PopenProcessRunner.NoTimeout, spawn);
    assert r.Success?;
    assert r.value.GetReturnCode() == Int(0);
    assert r.value.GetOutput() == Str(listing);
    assert listing[..3] == "-rw";
    assert trace[|trace| - 1] == HandleClosed;
  }

  /** A read that raises while draining still leaves both pipes and the
      handle closed, once each, before the exception reaches the caller. */
  method ReadRaisesAfterOutput(command: seq<string>)
  {
    var spawn := Spawned([Line("partial\n"), Raised], [], 1);
    var r, trace := PopenProcessRunner.Run(Array(command), Null, spawn);
    assert DrainSpec.Raises([Raised], []);
    assert DrainSpec.Raises(spawn.out, spawn.err);
    assert r == Failure(PopenProcessRunner.ReadRaised);
    assert trace[3..] == [PipeClosed(Stdout), PipeClosed(Stderr), HandleClosed];
  }

  /** What the drain makes of one line that arrives on the second pass. */
  lemma OneLateLineDrained(text: string)
    requires IsTruthy(text)
    ensures !DrainSpec.Raises([NoLine, Line(text)], [])
    ensures DrainSpec.DrainedOutput([NoLine, Line(text)], []) == text
  {
    var late := [Line(text)];
    assert [NoLine, Line(text)][1..] == late;
    assert DrainSpec.NextChunk([NoLine, Line(text)]) == [];
    assert DrainSpec.NextChunk(late) == [text] && Rest(late) == [];
    assert !DrainSpec.Raises(late, []);
    assert DrainSpec.DrainedChunks(late, []) == [text];
    assert DrainSpec.DrainedChunks([NoLine, Line(text)], []) == [text];
    assert DrainSpec.Concat([text]) == text;
  }
}
