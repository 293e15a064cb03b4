/** The LaunchProcess command: it reads its parameters, validates them, splits
    the command line and hands the pieces to the Win32 helper, moving its
    state from Running to Completed when the spawn returns normally. */
module LaunchCommand {
  import opened Common
  import opened LaunchParameters
  import opened Win32Launch
  import opened Text

  const InvalidParametersMessage := "Invalid parameters."

  /** What one `Run` reports and which host calls it makes, for the
      parameters it finds. */
  function RunOutcome(parameters: Option<LaunchParams>, host: Host): Spawn {
    if parameters.None? || !AreValid(parameters.value) then
      Spawn(Fail(InvalidOperation(InvalidParametersMessage)), [])
    else
      var line := parameters.value.commandLine.value;
      var tf := CommandFqfn(line);
      if tf.None? || tf.value == "" then Spawn(Fail(SyntaxError), [])
      else SpawnOutcome(Some(DefaultStartupInfo), tf.value, CommandArguments(line).value, parameters.value.workingFolder, host)
  }

  /** Missing or invalid parameters are refused before the helper is made. */
  lemma InvalidParametersCallNothing(parameters: Option<LaunchParams>, host: Host)
    ensures (parameters.None? || parameters.value.commandLine.None? || parameters.value.commandLine.value == "") <==>
            RunOutcome(parameters, host) == Spawn(Fail(InvalidOperation(InvalidParametersMessage)), [])
  {
    if parameters.Some? && AreValid(parameters.value) {
      var line := parameters.value.commandLine.value;
      var tf := CommandFqfn(line);
      if tf.Some? && tf.value != "" {
        SpawnMakesCalls(Some(DefaultStartupInfo), tf.value, CommandArguments(line).value, parameters.value.workingFolder, host,
                        Fail(InvalidOperation(InvalidParametersMessage)));
      }
    }
  }

  /** A valid line is refused as a syntax error exactly when it opens a quote
      it never closes or starts with a space; nothing is called then. */
  lemma SyntaxErrorCases(p: LaunchParams, host: Host)
    requires AreValid(p)
    ensures var line := p.commandLine.value;
            ((line[0] == '"' && '"' !in line[1..]) || line[0] == ' ') <==>
            RunOutcome(Some(p), host) == Spawn(Fail(SyntaxError), [])
  {
    FqfnOfValidLine(p);
    var line := p.commandLine.value;
    var tf := CommandFqfn(line);
    if tf.Some? && tf.value != "" {
      SpawnMakesCalls(Some(DefaultStartupInfo), tf.value, CommandArguments(line).value, p.workingFolder, host, Fail(SyntaxError));
    }
  }

  /** Otherwise the helper, with the default STARTUPINFO, gets the file part,
      the argument part (which together make up the line) and the working
      folder as given. */
  lemma HelperReceivesSplit(p: LaunchParams, host: Host)
    requires AreValid(p)
    requires CommandFqfn(p.commandLine.value).Some? && CommandFqfn(p.commandLine.value).value != ""
    ensures var line := p.commandLine.value;
            var file := CommandFqfn(line).value;
            && CommandArguments(line).Ok?
            && file + CommandArguments(line).value == line
            && RunOutcome(Some(p), host)
               == SpawnOutcome(Some(DefaultStartupInfo), file, CommandArguments(line).value, p.workingFolder, host)
  {
  }

  class LaunchProcessCommand {
    var state: CommandState
    var parameters: Option<LaunchParams>

    constructor ()
      ensures state == NotStarted && parameters == None
    {
      state := NotStarted;
      parameters := None;
    }

    /** `ReadParameters`: a null or empty JSON text leaves the parameters as
        they are; any other text replaces them by what it deserialises to
        (`None` for the JSON literal null). */
    method ReadParameters(json: Option<string>, deserialized: Option<LaunchParams>)
      modifies this
      ensures state == old(state)
      ensures json.None? || json.value == "" ==> parameters == old(parameters)
      ensures json.Some? && json.value != "" ==> parameters == deserialized
    {
      if json.Some? && json.value != "" {
        parameters := deserialized;
      }
    }

    /** `Run`: Running first, then validation, the split and the spawn;
        Completed only when the spawn returns normally. */
    method Run(host: Host) returns (outcome: Outcome, calls: seq<HostCall>)
      modifies this
      ensures parameters == old(parameters)
      ensures Spawn(outcome, calls) == RunOutcome(parameters, host)
      ensures state == if outcome.Pass? then Completed else Running
    {
      state := Running;

      if parameters.None? || !AreValid(parameters.value) {
        return Fail(InvalidOperation(InvalidParametersMessage)), [];
      }

      var line := parameters.value.commandLine.value;
      var tf := CommandFqfn(line);
      if tf.None? || tf.value == "" {
        return Fail(SyntaxError), [];
      }

      var ca := CommandArguments(line).value;
      var wf := parameters.value.workingFolder;

      var helper := new LaunchProcessCommandWin32Helper();
      outcome, calls := helper.SpawnProcessToActiveConsole(tf.value, ca, wf, host);
      if outcome.Fail? {
        return;
      }

      state := Completed;
    }
  }

  /** An unquoted `dir\stem.exe` followed by its arguments, no working
      folder, one active session and every native call succeeding: the
      process is created from that file, with the arguments unchanged
      (leading space included) and `dir` as its working directory. */
  lemma ExecutableLaunch(dir: string, stem: string, args: string, host: Host, sessionId: UInt32, token: int)
    requires dir != [] && dir[0] != '"' && ' ' !in dir
    requires ' ' !in stem && '\\' !in stem
    requires args == "" || args[0] == ' '
    requires host.enumeration.Enumerated? && SelectSession(ActiveSessionIds(host.enumeration.sessions)) == Ok(sessionId)
    requires host.token == TokenIssued(token) && host.creation == Created
    ensures var file := dir + "\\" + stem + ".exe";
            RunOutcome(Some(LaunchParams(None, Some(file + args))), host)
            == Spawn(Pass, [EnumerateSessions, FreeSessionMemory, QueryUserToken(sessionId),
                            CreateProcessAsUser(LaunchRequest(token, file, args, dir, Some(DefaultStartupInfo)))])
  {
    var file := dir + "\\" + stem + ".exe";
    ExecutableFile(dir, stem);
    SplitUnquoted(file, args);
    HelperReceivesSplit(LaunchParams(None, Some(file + args)), host);
    ExecutableIgnoresRegistry(file, host.registry, host.registry);
    SuccessfulRun(Some(DefaultStartupInfo), Resolution([], Some(file)), args, None, host, sessionId);
    var request := LaunchRequest(token, file, args, dir, Some(DefaultStartupInfo));
    assert ResolveTarget(file, host.registry) == Resolution([], Some(file));
    assert WorkingDirectory(None, file) == dir;
    assert SpawnFrom(Some(DefaultStartupInfo), Resolution([], Some(file)), args, None, host)
           == Spawn(Pass, [EnumerateSessions, FreeSessionMemory] + [] + [QueryUserToken(sessionId), CreateProcessAsUser(request)]);
    JoinPairs(EnumerateSessions, FreeSessionMemory, [], QueryUserToken(sessionId), CreateProcessAsUser(request));
    assert SpawnOutcome(Some(DefaultStartupInfo), file, args, None, host)
           == Spawn(Pass, [EnumerateSessions, FreeSessionMemory, QueryUserToken(sessionId), CreateProcessAsUser(request)]);
    assert CommandFqfn(file + args) == Some(file);
    assert RunOutcome(Some(LaunchParams(None, Some(file + args))), host) == SpawnOutcome(Some(DefaultStartupInfo), file, args, None, host);
  }

  /** The facts about `dir\stem.exe` that the launch above relies on. */
  lemma ExecutableFile(dir: string, stem: string)
    requires dir != [] && dir[0] != '"' && ' ' !in dir
    requires ' ' !in stem && '\\' !in stem
    ensures var file := dir + "\\" + stem + ".exe";
            && file[0] != '"' && ' ' !in file
            && TrimQuotes(file) == file && IsExecutable(file)
            && GetDirectoryName(file) == dir
  {
    var file := dir + "\\" + stem + ".exe";
    AppendAssoc(dir + "\\", stem, ".exe");
    assert '\\' !in stem + ".exe";
    DirectoryAfterSeparator(dir, stem + ".exe");
    assert file[0] == dir[0] && file[|file| - 1] == 'e';
    UnquotedTarget(file);
    ExtensionOf(dir + "\\" + stem, ".exe");
    ExtensionIsExe(file);
    JoinedWithoutSpace(dir, stem);
  }

  /** Joining space-free parts with `\` and `.exe` adds no space. */
  lemma JoinedWithoutSpace(dir: string, stem: string)
    requires ' ' !in dir && ' ' !in stem
    ensures ' ' !in dir + "\\" + stem + ".exe"
  {
    var file := dir + "\\" + stem + ".exe";
    forall i | 0 <= i < |file| ensures file[i] != ' ' {
      if i < |dir| {
        assert file[i] == dir[i];
      } else if i == |dir| {
        assert file[i] == '\\';
      } else if i <= |dir| + |stem| {
        assert file[i] == stem[i - |dir| - 1];
      }
    }
  }

  /** A target whose unquoted extension is `.exe` is an executable. */
  lemma ExtensionIsExe(target: string)
    requires GetExtension(TrimQuotes(target)) == ".exe"
    ensures IsExecutable(target)
  {
  }

  /** A quoted document `"base.ext"` of a type that is not `.exe`: one
      registry lookup of `.ext`, then the whole open command found there is
      the file that is run, in the working folder given. */
  lemma DocumentLaunch(base: string, ext: string, args: string, folder: string, command: string,
                       host: Host, sessionId: UInt32, token: int)
    requires '"' !in base
    requires |ext| >= 2 && ext[0] == '.' && '.' !in ext[1..] && '\\' !in ext && '"' !in ext
    requires !EqualsIgnoreCase(ext, ".exe")
    requires LookupOpenVerb(ext, host.registry) == Some(command) && command != ""
    requires host.enumeration.Enumerated? && SelectSession(ActiveSessionIds(host.enumeration.sessions)) == Ok(sessionId)
    requires host.token == TokenIssued(token) && host.creation == Created
    ensures var file := "\"" + (base + ext) + "\"";
            RunOutcome(Some(LaunchParams(Some(folder), Some(file + args))), host)
            == Spawn(Pass, [EnumerateSessions, FreeSessionMemory, OpenFileAssociation(ext), QueryUserToken(sessionId),
                            CreateProcessAsUser(LaunchRequest(token, command, args, folder, Some(DefaultStartupInfo)))])
  {
    var path := base + ext;
    var file := "\"" + path + "\"";
    QuotedDocument(base, ext);
    SplitQuoted(path, args);
    HelperReceivesSplit(LaunchParams(Some(folder), Some(file + args)), host);
    ExecutableIgnoresRegistry(file, host.registry, host.registry);
    var resolution := Resolution([OpenFileAssociation(ext)], Some(command));
    assert ResolveTarget(file, host.registry) == resolution;
    SuccessfulRun(Some(DefaultStartupInfo), resolution, args, Some(folder), host, sessionId);
    var request := LaunchRequest(token, command, args, folder, Some(DefaultStartupInfo));
    assert WorkingDirectory(Some(folder), command) == folder;
    JoinPairs(EnumerateSessions, FreeSessionMemory, [OpenFileAssociation(ext)], QueryUserToken(sessionId), CreateProcessAsUser(request));
    assert SpawnOutcome(Some(DefaultStartupInfo), file, args, Some(folder), host)
           == Spawn(Pass, [EnumerateSessions, FreeSessionMemory, OpenFileAssociation(ext), QueryUserToken(sessionId), CreateProcessAsUser(request)]);
    assert CommandFqfn(file + args) == Some(file);
  }

  /** The facts about `"base.ext"` that the launch above relies on. */
  lemma QuotedDocument(base: string, ext: string)
    requires '"' !in base
    requires |ext| >= 2 && ext[0] == '.' && '.' !in ext[1..] && '\\' !in ext && '"' !in ext
    ensures var path := base + ext;
            '"' !in path && TrimQuotes("\"" + path + "\"") == path && GetExtension(path) == ext
  {
    var path := base + ext;
    assert "\"" + path + "\"" == ['"'] + path + ['"'];
    assert path[0] != '"' && path[|path| - 1] != '"';
    TrimEnclosed(path, {'"'}, '"');
    ExtensionOf(base, ext);
  }

  /** An unquoted `base.ext` without spaces is split into itself and no arguments. */
  lemma UnquotedDocumentSplit(base: string, ext: string)
    requires base != [] && base[0] != '"' && ' ' !in base && ' ' !in ext
    ensures CommandFqfn(base + ext) == Some(base + ext) && CommandArguments(base + ext) == Ok("")
  {
    var file := base + ext;
    assert file[0] == base[0];
    assert file + "" == file;
    SplitUnquoted(file, "");
  }

  /** An unquoted `base.ext` of a type other than `.exe` is resolved through
      one lookup of `.ext`. */
  lemma UnquotedDocumentResolves(base: string, ext: string, registry: Registry)
    requires base != [] && base[0] != '"'
    requires |ext| >= 2 && ext[0] == '.' && '.' !in ext[1..] && '\\' !in ext && '"' !in ext
    requires !EqualsIgnoreCase(ext, ".exe")
    ensures ResolveTarget(base + ext, registry) == Resolution([OpenFileAssociation(ext)], LookupOpenVerb(ext, registry))
  {
    var file := base + ext;
    assert file[0] == base[0] && file[|file| - 1] == ext[|ext| - 1];
    UnquotedTarget(file);
    ExtensionOf(base, ext);
    ExecutableIgnoresRegistry(file, registry, registry);
  }

  /** A document whose type has no open command is refused after the one
      lookup, before any token is asked for. */
  lemma UnknownFileType(base: string, ext: string, host: Host, sessionId: UInt32)
    requires base != [] && base[0] != '"' && ' ' !in base
    requires |ext| >= 2 && ext[0] == '.' && '.' !in ext[1..] && '\\' !in ext && '"' !in ext && ' ' !in ext
    requires !EqualsIgnoreCase(ext, ".exe")
    requires LookupOpenVerb(ext, host.registry) == None
    requires host.enumeration.Enumerated? && SelectSession(ActiveSessionIds(host.enumeration.sessions)) == Ok(sessionId)
    ensures RunOutcome(Some(LaunchParams(None, Some(base + ext))), host)
            == Spawn(Fail(InvalidOperation(NoFileTypeHandlerMessage)),
                     [EnumerateSessions, FreeSessionMemory, OpenFileAssociation(ext)])
  {
    var file := base + ext;
    UnquotedDocumentSplit(base, ext);
    UnquotedDocumentResolves(base, ext, host.registry);
    HelperReceivesSplit(LaunchParams(None, Some(file)), host);
    var resolution := Resolution([OpenFileAssociation(ext)], None);
    UnresolvedRun(Some(DefaultStartupInfo), resolution, "", None, host, sessionId);
    PairThenOne(EnumerateSessions, FreeSessionMemory, OpenFileAssociation(ext));
  }
}
