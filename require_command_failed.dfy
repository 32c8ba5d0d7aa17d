/** The requirement that a command failed: it returns quietly when the
    command's exit code is non-zero and reports that the command succeeded
    otherwise. It only reads the result it is given. */
module RequireCommandFailed {
  import opened Wrappers
  import opened PhpValues
  import Values

  /** The exception raised when the command did not fail; it carries the very
      result object that was checked. */
  datatype RequirementError = CommandSucceeded(result: Values.ProcessResult)

  /** The command failed: its exit code is anything but 0. */
  predicate DidCommandFail(r: Values.ProcessResult)
    reads r
  {
    r.GetReturnCode() != Int(0)
  }

  function CheckCommandResult(r: Values.ProcessResult): (o: Outcome<RequirementError>)
    reads r
    ensures r.GetReturnCode().Int? ==> (o.Pass? <==> r.GetReturnCode().i != 0)
    ensures o.Fail? ==> r.GetReturnCode() == Int(0) && o.error.result == r
  {
    if DidCommandFail(r) then Pass else Fail(CommandSucceeded(r))
  }

  /** The static entry point: the same check. */
  function Check(r: Values.ProcessResult): (o: Outcome<RequirementError>)
    reads r
    ensures o == CheckCommandResult(r)
  {
    CheckCommandResult(r)
  }

  /** The entry point used when the requirement is called as an object: the
      same check. */
  function Invoke(r: Values.ProcessResult): (o: Outcome<RequirementError>)
    reads r
    ensures o == CheckCommandResult(r)
  {
    CheckCommandResult(r)
  }
}
