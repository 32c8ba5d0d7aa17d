/** The result of running a command: the command, its return code and its
    combined output. It is a lazy value object: it starts as a writable
    container, the constructor fills it through the magic setters and then
    freezes it, after which every setter fails. */
module Values {
  import opened Wrappers
  import opened PhpValues
  import CommandLine

  datatype ValueError =
    | UnsupportedType(value: Mixed)  // a constructor argument of the wrong kind
    | NoSuchMethod(name: string)     // a setter called on a read-only object

  class ProcessResult {
    var command: seq<string>
    var returnCode: Mixed
    var output: Mixed
    var readOnly: bool

    /** The empty, writable container a lazy value object starts as. */
    constructor Blank()
      ensures command == [] && returnCode == Null && output == Null
      ensures !readOnly
    {
      command := [];
      returnCode := Null;
      output := Null;
      readOnly := false;
    }

    /** The object's constructor: the argument checks, then the three setters,
        then the switch to read-only. An argument that fails its check is
        reported before anything is allocated or set. The command needs no
        check of its own: the parameter is declared as an array, so it is
        always traversable by the time the check runs. */
    static method Create(command: seq<string>, returnCode: Mixed, output: Mixed)
      returns (r: Result<ProcessResult, ValueError>)
      ensures r.Failure? <==> !IsNumeric(returnCode) || !IsStringy(output)
      ensures !IsNumeric(returnCode) ==> r == Failure(UnsupportedType(returnCode))
      ensures IsNumeric(returnCode) && !IsStringy(output) ==> r == Failure(UnsupportedType(output))
      ensures r.Success? ==> fresh(r.value) && r.value.readOnly
      ensures r.Success? ==> r.value.GetCommand() == command
      ensures r.Success? ==> r.value.GetReturnCode() == returnCode
      ensures r.Success? ==> r.value.GetOutput() == output
    {
      if !IsNumeric(returnCode) {
        return Failure(UnsupportedType(returnCode));
      }
      if !IsStringy(output) {
        return Failure(UnsupportedType(output));
      }
      var p := new ProcessResult.Blank();
      var setCommand := p.SetCommand(command);
      var setReturnCode := p.SetReturnCode(returnCode);
      var setOutput := p.SetOutput(output);
      assert setCommand == setReturnCode == setOutput == Pass;
      p.MakeReadOnly();
      r := Success(p);
    }

    /** The stored command, readable whether or not the object is read-only. */
    function GetCommand(): (v: seq<string>)
      reads this
      ensures v == command
    {
      command
    }

    /** The stored return code, readable whether or not the object is read-only. */
    function GetReturnCode(): (v: Mixed)
      reads this
      ensures v == returnCode
    {
      returnCode
    }

    /** The stored output, readable whether or not the object is read-only. */
    function GetOutput(): (v: Mixed)
      reads this
      ensures v == output
    {
      output
    }

    /** The command as one escaped shell line; it depends on the stored
        command alone, and gives the command back when split again. */
    function GetCommandAsString(): (s: string)
      reads this
      ensures CommandLine.QuoteFree(command) ==> CommandLine.SplitQuoted(s) == Some(command)
    {
      if CommandLine.QuoteFree(command) then
        CommandLine.SplitEscaped(command);
        CommandLine.EscapedCommandLine(command)
      else
        CommandLine.EscapedCommandLine(command)
    }

    method SetCommand(v: seq<string>) returns (o: Outcome<ValueError>)
      modifies this
      ensures old(readOnly) ==> o == Fail(NoSuchMethod("setCommand")) && unchanged(this)
      ensures !old(readOnly) ==> o == Pass && GetCommand() == v && !readOnly
      ensures !old(readOnly) ==> returnCode == old(returnCode) && output == old(output)
    {
      if readOnly {
        return Fail(NoSuchMethod("setCommand"));
      }
      command := v;
      o := Pass;
    }

    method SetReturnCode(v: Mixed) returns (o: Outcome<ValueError>)
      modifies this
      ensures old(readOnly) ==> o == Fail(NoSuchMethod("setReturnCode")) && unchanged(this)
      ensures !old(readOnly) ==> o == Pass && GetReturnCode() == v && !readOnly
      ensures !old(readOnly) ==> command == old(command) && output == old(output)
    {
      if readOnly {
        return Fail(NoSuchMethod("setReturnCode"));
      }
      returnCode := v;
      o := Pass;
    }

    method SetOutput(v: Mixed) returns (o: Outcome<ValueError>)
      modifies this
      ensures old(readOnly) ==> o == Fail(NoSuchMethod("setOutput")) && unchanged(this)
      ensures !old(readOnly) ==> o == Pass && GetOutput() == v && !readOnly
      ensures !old(readOnly) ==> command == old(command) && returnCode == old(returnCode)
    {
      if readOnly {
        return Fail(NoSuchMethod("setOutput"));
      }
      output := v;
      o := Pass;
    }

    /** Switches the object to read-only; the stored values stay as they are. */
    method MakeReadOnly()
      modifies this
      ensures readOnly
      ensures command == old(command) && returnCode == old(returnCode) && output == old(output)
    {
      readOnly := true;
    }
  }
}
