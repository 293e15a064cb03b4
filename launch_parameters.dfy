/** The parameters of the LaunchProcess command: a raw command line and an
    optional working folder, and the split of the line into the file to run
    and its arguments. */
module LaunchParameters {
  import opened Common
  import opened Text

  /** The deserialised payload; a `None` field is a JSON null. */
  datatype LaunchParams = LaunchParams(workingFolder: Option<string>, commandLine: Option<string>)

  /** The `CommandFqfn` getter on a non-null command line.  A line that starts
      with a quote yields everything up to and including the next quote, or
      null when there is none; any other line yields its text before the
      first space, or the whole line. */
  function CommandFqfn(line: string): (r: Option<string>)
    ensures |line| > 0 && line[0] == '"' ==>
              && (r.Some? <==> '"' in line[1..])
              && (r.Some? ==> && 2 <= |r.value| <= |line| && r.value == line[..|r.value|]
                              && r.value[|r.value| - 1] == '"'
                              && '"' !in line[1..|r.value| - 1])
    ensures !(|line| > 0 && line[0] == '"') ==>
              && r.Some? && |r.value| <= |line| && r.value == line[..|r.value|]
              && ' ' !in r.value
              && (|r.value| < |line| ==> line[|r.value|] == ' ')
  {
    if |line| > 0 && line[0] == '"' then
      var i := IndexOf(line, '"', 1);
      if i == -1 then None else Some(line[..i + 1])
    else
      var i := IndexOf(line, ' ', 0);
      Some(if i == -1 then line else line[..i])
  }

  /** The `CommandArguments` getter: the rest of the line after `CommandFqfn`,
      leading space included; dereferencing a null `CommandFqfn` throws. */
  function CommandArguments(line: string): (r: Result<string>)
    ensures r.Err? <==> CommandFqfn(line).None?
    ensures r.Err? ==> r.error == NullReference
    ensures r.Ok? ==> CommandFqfn(line).value + r.value == line
  {
    match CommandFqfn(line)
    case None => Err(NullReference)
    case Some(appName) => Ok(line[|appName|..])
  }

  /** `AreValid()`: the command line is neither null nor empty. */
  predicate AreValid(p: LaunchParams) {
    p.commandLine.Some? && p.commandLine.value != ""
  }

  /** On a valid command line `CommandFqfn` is null only for an unterminated
      quote and empty only for a leading space. */
  lemma FqfnOfValidLine(p: LaunchParams)
    requires AreValid(p)
    ensures var line := p.commandLine.value;
            && (CommandFqfn(line).None? <==> line[0] == '"' && '"' !in line[1..])
            && (CommandFqfn(line) == Some("") <==> line[0] == ' ')
            && (CommandFqfn(line).None? || CommandFqfn(line).value == "" <==>
                (line[0] == '"' && '"' !in line[1..]) || line[0] == ' ')
  {
  }

  /** The line consisting of one quote has no `CommandFqfn`. */
  lemma LoneQuoteHasNoFqfn()
    ensures CommandFqfn("\"") == None
    ensures CommandArguments("\"") == Err(NullReference)
  {
    assert "\""[1..] == [];
  }

  /** A leading space makes `CommandFqfn` empty and the arguments the whole line. */
  lemma LeadingSpaceGivesEmptyFqfn(line: string)
    requires |line| > 0 && line[0] == ' '
    ensures CommandFqfn(line) == Some("")
    ensures CommandArguments(line) == Ok(line)
  {
  }

  /** Splitting inverts joining an unquoted file name without spaces to
      arguments that are empty or start with a space. */
  lemma {:induction false} SplitUnquoted(file: string, args: string)
    requires |file| > 0 && file[0] != '"' && ' ' !in file
    requires args == "" || args[0] == ' '
    ensures CommandFqfn(file + args) == Some(file)
    ensures CommandArguments(file + args) == Ok(args)
  {
    var line := file + args;
    assert line[|file|..] == args;
  }

  /** Splitting inverts joining a quoted file name, whatever follows it. */
  lemma {:induction false} SplitQuoted(inner: string, args: string)
    requires '"' !in inner
    ensures var file := "\"" + inner + "\"";
            && CommandFqfn(file + args) == Some(file)
            && CommandArguments(file + args) == Ok(args)
  {
    var file := "\"" + inner + "\"";
    var line := file + args;
    assert line[1..] == inner + "\"" + args;
    assert line[|inner| + 1] == '"';
    assert '"' in line[1..];
    assert line[|file|..] == args;
  }

  /** The arguments keep their leading space. */
  lemma ReportArguments()
    ensures CommandFqfn("C:\\Tools\\report.exe --full") == Some("C:\\Tools\\report.exe")
    ensures CommandArguments("C:\\Tools\\report.exe --full") == Ok(" --full")
  {
    var file, args := "C:\\Tools\\report.exe", " --full";
    assert ' ' !in file by {
      forall i | 0 <= i < |file| ensures file[i] != ' ' { }
    }
    assert file + args == "C:\\Tools\\report.exe --full";
    SplitUnquoted(file, args);
  }
}
