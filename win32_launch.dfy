/** LaunchProcessCommandWin32Helper: start a program inside the single active
    interactive session.  The native calls (session enumeration, freeing the
    enumeration buffer, the user-token query and process creation) and the
    class-registration store are an oracle, `Host`, that answers each call;
    the helper's run is recorded as the sequence of calls it makes. */
module Win32Launch {
  import opened Common
  import opened Text

  /** WTS_CONNECTSTATE_CLASS. */
  datatype ConnectState =
    | WTSActive | WTSConnected | WTSConnectQuery | WTSShadow | WTSDisconnected
    | WTSIdle | WTSListen | WTSReset | WTSDown | WTSInit

  /** WTS_SESSION_INFO, as copied out of the enumeration buffer. */
  datatype SessionInfo = SessionInfo(sessionId: Int32, winStationName: string, state: ConnectState)

  /** SECURITY_ATTRIBUTES. */
  datatype SecurityAttributes = SecurityAttributes(size: Int32, securityDescriptor: int, inheritHandles: bool)

  /** `new SECURITY_ATTRIBUTES()`: every field zero. */
  const EmptySecurityAttributes := SecurityAttributes(0, 0, false)

  /** STARTUPINFO, whose layout is not part of this model: the value that
      `STARTUPINFO.DefaultStartupInfo()` returns, or some other one. */
  datatype StartupInfo = DefaultStartupInfo | CustomStartupInfo(id: nat)

  /** HKEY_CLASSES_ROOT, as far as the association chain reads it.  A key of
      `extensionKeys` is an extension key; its value is the key's default
      value (`None` when it has none).  A key of `openCommandKeys` is a progId
      whose `<progId>\shell\open\command` key exists; its value is that key's
      default value if it is a string. */
  datatype Registry = Registry(extensionKeys: map<string, Option<string>>, openCommandKeys: map<string, Option<string>>)

  /** What `WTSEnumerateSessions` reports. */
  datatype EnumerationReply = EnumerationFailed(lastError: int) | Enumerated(sessions: seq<SessionInfo>)

  /** What `WTSQueryUserToken` reports. */
  datatype TokenReply = TokenDenied(lastError: int) | TokenIssued(token: int)

  /** What `CreateProcessAsUser` reports. */
  datatype CreationReply = CreationFailed(lastError: int) | Created

  /** The host as the helper sees it: one reply per native call, and the registry. */
  datatype Host = Host(enumeration: EnumerationReply, registry: Registry, token: TokenReply, creation: CreationReply)

  /** The arguments of one `CreateProcessAsUser` call. */
  datatype CreateRequest = CreateRequest(
    token: int,
    applicationName: string,
    commandLine: string,
    processAttributes: SecurityAttributes,
    threadAttributes: SecurityAttributes,
    inheritHandles: bool,
    creationFlags: UInt32,
    environment: int,
    currentDirectory: string,
    startupInfo: StartupInfo)

  /** One call the helper makes into the host. */
  datatype HostCall =
    | EnumerateSessions
    | FreeSessionMemory
    | OpenFileAssociation(extension: string)
    | QueryUserToken(sessionId: UInt32)
    | CreateProcessAsUser(request: CreateRequest)

  /** How a spawn ends, and the calls it made on the way. */
  datatype Spawn = Spawn(outcome: Outcome, calls: seq<HostCall>)

  const EnumerationFailedMessage := "Failed to enumerate sessions."
  const MultipleDesktopsMessage := "Multiple desktops detected.\nThe LaunchProcessCommand is not supported on multidesktop system."
  const NoActiveSessionMessage := "No active session found."
  const NoFileTypeHandlerMessage := "Unable to locate file type handler."
  const TokenQueryFailedMessage := "Failed to query user's access token."

  function LaunchFailedMessage(commandFile: string, commandArguments: string): string {
    "Unable to execute the following command:\n" + commandFile + " " + commandArguments
  }

  /** The ids, cast to `uint`, of the sessions in state WTSActive, in list order. */
  function ActiveSessionIds(sessions: seq<SessionInfo>): (ids: seq<UInt32>)
    ensures |ids| <= |sessions|
  {
    if sessions == [] then []
    else
      var last := sessions[|sessions| - 1];
      ActiveSessionIds(sessions[..|sessions| - 1]) + (if last.state == WTSActive then [ToUInt32(last.sessionId)] else [])
  }

  /** The sessions of `a + b` that are active are those of `a`, then those of `b`. */
  lemma {:induction false} ActiveSessionIdsAppend(a: seq<SessionInfo>, b: seq<SessionInfo>)
    ensures ActiveSessionIds(a + b) == ActiveSessionIds(a) + ActiveSessionIds(b)
    decreases |b|
  {
    if b == [] {
      assert a + b == a;
    } else {
      var b' := b[..|b| - 1];
      assert (a + b)[..|a + b| - 1] == a + b';
      ActiveSessionIdsAppend(a, b');
    }
  }

  /** Sessions in any of the other nine states are never counted. */
  lemma {:induction false} InactiveSessionsAreIgnored(sessions: seq<SessionInfo>, others: seq<SessionInfo>)
    requires forall i :: 0 <= i < |others| ==> others[i].state != WTSActive
    ensures ActiveSessionIds(sessions + others) == ActiveSessionIds(sessions)
    decreases |others|
  {
    if others != [] {
      var others' := others[..|others| - 1];
      assert (sessions + others)[..|sessions + others| - 1] == sessions + others';
      InactiveSessionsAreIgnored(sessions, others');
    } else {
      assert sessions + others == sessions;
    }
  }

  /** Session ids in the (non-negative) range Windows hands out never
      collide with the `uint.MaxValue` sentinel. */
  lemma {:induction false} NonNegativeIdsMissSentinel(sessions: seq<SessionInfo>)
    requires forall i :: 0 <= i < |sessions| ==> sessions[i].sessionId >= 0
    ensures forall k :: 0 <= k < |ActiveSessionIds(sessions)| ==> ActiveSessionIds(sessions)[k] < UInt32Max
    decreases |sessions|
  {
    if sessions != [] {
      NonNegativeIdsMissSentinel(sessions[..|sessions| - 1]);
    }
  }

  /** Scanning one more session extends the active ids by at most its id. */
  lemma ActiveSessionIdsStep(sessions: seq<SessionInfo>, i: nat)
    requires i < |sessions|
    ensures ActiveSessionIds(sessions[..i + 1])
            == ActiveSessionIds(sessions[..i]) + (if sessions[i].state == WTSActive then [ToUInt32(sessions[i].sessionId)] else [])
  {
    assert sessions[..i + 1][..i] == sessions[..i];
  }

  /** Once a prefix of the sessions shows a conflict, the whole list does. */
  lemma ConflictIsFinal(sessions: seq<SessionInfo>, n: nat, k: nat)
    requires n <= |sessions|
    requires k < |ActiveSessionIds(sessions[..n])| - 1 && ActiveSessionIds(sessions[..n])[k] != UInt32Max
    ensures SelectSession(ActiveSessionIds(sessions)) == Err(NotSupported(MultipleDesktopsMessage))
  {
    ActiveSessionIdsAppend(sessions[..n], sessions[n..]);
    assert sessions[..n] + sessions[n..] == sessions;
    assert ActiveSessionIds(sessions)[k] == ActiveSessionIds(sessions[..n])[k];
  }

  /** What the selection loop over the active ids `ids` ends with: the loop
      throws at the second active session unless the first one's id is the
      sentinel itself, and after the loop a sentinel id means "none found". */
  function SelectSession(ids: seq<UInt32>): Result<UInt32> {
    if exists k :: 0 <= k < |ids| - 1 && ids[k] != UInt32Max then Err(NotSupported(MultipleDesktopsMessage))
    else if ids == [] || ids[|ids| - 1] == UInt32Max then Err(InvalidOperation(NoActiveSessionMessage))
    else Ok(ids[|ids| - 1])
  }

  /** The single-active-session policy: none is an error, exactly one is
      selected, two or more is an error; list order never breaks a tie. */
  lemma SelectionPolicy(ids: seq<UInt32>)
    requires forall k :: 0 <= k < |ids| ==> ids[k] != UInt32Max
    ensures |ids| == 0 <==> SelectSession(ids) == Err(InvalidOperation(NoActiveSessionMessage))
    ensures |ids| == 1 <==> SelectSession(ids).Ok?
    ensures SelectSession(ids).Ok? ==> SelectSession(ids).value == ids[0]
    ensures |ids| >= 2 <==> SelectSession(ids) == Err(NotSupported(MultipleDesktopsMessage))
  {
    if |ids| >= 2 {
      assert ids[0] != UInt32Max;
    }
  }

  /** An active session whose id is -1 reads as the sentinel: it is not found,
      and it does not count towards "multiple desktops". */
  lemma SentinelCollision()
    ensures var minusOne := SessionInfo(-1, "Console", WTSActive);
            var one := SessionInfo(1, "RDP-Tcp#0", WTSActive);
            && SelectSession(ActiveSessionIds([minusOne])) == Err(InvalidOperation(NoActiveSessionMessage))
            && SelectSession(ActiveSessionIds([minusOne, one])) == Ok(1)
  {
    var minusOne := SessionInfo(-1, "Console", WTSActive);
    var one := SessionInfo(1, "RDP-Tcp#0", WTSActive);
    assert [minusOne][..0] == [];
    assert [minusOne, one][..1] == [minusOne];
    assert ActiveSessionIds([minusOne, one]) == [UInt32Max, 1];
  }

  /** `LookupOpenVerb`: the extension key's default value is the progId
      (an absent value reads as ""); the default value of that progId's
      `shell\open\command` key is the result; a missing key gives null. */
  function LookupOpenVerb(extension: string, registry: Registry): (r: Option<string>)
    ensures extension !in registry.extensionKeys ==> r.None?
    ensures r.Some? ==> var progId := registry.extensionKeys[extension].GetOr("");
                        progId in registry.openCommandKeys && registry.openCommandKeys[progId] == r
    ensures extension in registry.extensionKeys ==>
              var progId := registry.extensionKeys[extension].GetOr("");
              && (progId in registry.openCommandKeys ==> r == registry.openCommandKeys[progId])
              && (progId !in registry.openCommandKeys ==> r.None?)
  {
    if extension !in registry.extensionKeys then None
    else
      var progId := registry.extensionKeys[extension].GetOr("");
      if progId in registry.openCommandKeys then registry.openCommandKeys[progId] else None
  }

  /** The target with its quotes trimmed. */
  function TrimQuotes(target: string): string {
    Trim(target, {'"'})
  }

  /** A target that neither starts nor ends with a quote is used as it is. */
  lemma UnquotedTarget(target: string)
    requires target != [] && target[0] != '"' && target[|target| - 1] != '"'
    ensures TrimQuotes(target) == target
  {
  }

  /** The extension decides: `.exe`, in any letter case, runs directly. */
  predicate IsExecutable(target: string) {
    EqualsIgnoreCase(GetExtension(TrimQuotes(target)), ".exe")
  }

  /** Target resolution: the registry lookups it makes and the command file
      it settles on (null when the file type has no open command). */
  datatype Resolution = Resolution(calls: seq<HostCall>, commandFile: Option<string>)

  /** The file that is run: the trimmed target itself when it is an `.exe`,
      otherwise the whole open command of its file type, found through one
      registry lookup. */
  function ResolveTarget(target: string, registry: Registry): (r: Resolution)
    ensures |r.calls| <= 1 && forall c :: c in r.calls ==> c.OpenFileAssociation?
    ensures r.calls == [] <==> IsExecutable(target)
  {
    var commandFile := TrimQuotes(target);
    var fileExt := GetExtension(commandFile);
    if EqualsIgnoreCase(fileExt, ".exe") then Resolution([], Some(commandFile))
    else Resolution([OpenFileAssociation(fileExt)], LookupOpenVerb(fileExt, registry))
  }

  /** An `.exe` target is used as it is, whatever the registry holds, and
      is never empty; any other target costs one lookup of its extension. */
  lemma ExecutableIgnoresRegistry(target: string, r1: Registry, r2: Registry)
    ensures IsExecutable(target) ==>
              && ResolveTarget(target, r1) == ResolveTarget(target, r2) == Resolution([], Some(TrimQuotes(target)))
              && TrimQuotes(target) != ""
    ensures !IsExecutable(target) ==>
              var ext := GetExtension(TrimQuotes(target));
              ResolveTarget(target, r1) == Resolution([OpenFileAssociation(ext)], LookupOpenVerb(ext, r1))
  {
    if IsExecutable(target) {
      assert |GetExtension(TrimQuotes(target))| == 4;
    }
  }

  /** The working directory: the given folder whenever it is not null, even
      when it is empty; otherwise the folder of the command file. */
  function WorkingDirectory(workingFolder: Option<string>, commandFile: string): (d: string)
    ensures workingFolder.Some? ==> d == workingFolder.value
    ensures workingFolder.None? ==> |d| <= |commandFile| && d == commandFile[..|d|]
    ensures workingFolder.None? && '\\' in commandFile ==> |d| < |commandFile| && commandFile[|d|] == '\\'
    ensures workingFolder.None? && '\\' !in commandFile ==> d == ""
    ensures workingFolder.None? ==> forall k :: |d| < k < |commandFile| ==> commandFile[k] != '\\'
  {
    workingFolder.GetOr(GetDirectoryName(commandFile))
  }

  /** The request passed to `CreateProcessAsUser`: the resolved file, the
      unchanged arguments, no handle inheritance, zero flags, a null
      environment and one empty SECURITY_ATTRIBUTES for process and thread. */
  function LaunchRequest(token: int, commandFile: string, commandArguments: string, workingDirectory: string, startupInfo: Option<StartupInfo>): CreateRequest {
    CreateRequest(token, commandFile, commandArguments, EmptySecurityAttributes, EmptySecurityAttributes,
                  false, 0, 0, workingDirectory, startupInfo.GetOr(DefaultStartupInfo))
  }

  /** Calls made before a stage, followed by that stage's run. */
  function After(before: seq<HostCall>, s: Spawn): (r: Spawn)
    ensures r.outcome == s.outcome && r.calls == before + s.calls
  {
    Spawn(s.outcome, before + s.calls)
  }

  /** The process-creation step. */
  function CreateStage(request: CreateRequest, creation: CreationReply): (s: Spawn)
    ensures s.calls == [CreateProcessAsUser(request)]
    ensures s.outcome.Pass? <==> creation.Created?
    ensures s.outcome.Fail? ==>
              s.outcome.error == Win32(creation.lastError, LaunchFailedMessage(request.applicationName, request.commandLine))
  {
    match creation
    case CreationFailed(code) =>
      Spawn(Fail(Win32(code, LaunchFailedMessage(request.applicationName, request.commandLine))), [CreateProcessAsUser(request)])
    case Created => Spawn(Pass, [CreateProcessAsUser(request)])
  }

  /** The token query for the selected session, then process creation. */
  function TokenStage(sessionId: UInt32, commandFile: string, commandArguments: string,
                      workingFolder: Option<string>, startupInfo: Option<StartupInfo>, host: Host): (s: Spawn)
    ensures |s.calls| >= 1 && s.calls[0] == QueryUserToken(sessionId)
    ensures forall c :: c in s.calls ==> c == QueryUserToken(sessionId) || c.CreateProcessAsUser?
    ensures host.token.TokenDenied? ==>
              s == Spawn(Fail(Win32(host.token.lastError, TokenQueryFailedMessage)), [QueryUserToken(sessionId)])
    ensures host.token.TokenIssued? ==>
              && s.calls == [QueryUserToken(sessionId),
                             CreateProcessAsUser(LaunchRequest(host.token.token, commandFile, commandArguments,
                                                               WorkingDirectory(workingFolder, commandFile), startupInfo))]
              && (s.outcome.Pass? <==> host.creation.Created?)
  {
    match host.token
    case TokenDenied(code) => Spawn(Fail(Win32(code, TokenQueryFailedMessage)), [QueryUserToken(sessionId)])
    case TokenIssued(token) =>
      var directory := WorkingDirectory(workingFolder, commandFile);
      After([QueryUserToken(sessionId)],
            CreateStage(LaunchRequest(token, commandFile, commandArguments, directory, startupInfo), host.creation))
  }

  /** The null-or-empty check on the resolved command file, then the token stage. */
  function ResolveStage(sessionId: UInt32, resolution: Resolution, commandArguments: string,
                        workingFolder: Option<string>, startupInfo: Option<StartupInfo>, host: Host): (s: Spawn)
    ensures forall c :: c in s.calls ==> c in resolution.calls || c == QueryUserToken(sessionId) || c.CreateProcessAsUser?
  {
    var commandFile := resolution.commandFile;
    if commandFile.None? || commandFile.value == "" then
      Spawn(Fail(InvalidOperation(NoFileTypeHandlerMessage)), resolution.calls)
    else
      After(resolution.calls, TokenStage(sessionId, commandFile.value, commandArguments, workingFolder, startupInfo, host))
  }

  /** A run of `SpawnProcessToActiveConsole` for a given target resolution. */
  function SpawnFrom(startupInfo: Option<StartupInfo>, resolution: Resolution, commandArguments: string,
                     workingFolder: Option<string>, host: Host): Spawn
  {
    match host.enumeration
    case EnumerationFailed(code) => Spawn(Fail(Win32(code, EnumerationFailedMessage)), [EnumerateSessions])
    case Enumerated(sessions) =>
      match SelectSession(ActiveSessionIds(sessions))
      case Err(e) => Spawn(Fail(e), [EnumerateSessions, FreeSessionMemory])
      case Ok(sessionId) =>
        After([EnumerateSessions, FreeSessionMemory],
              ResolveStage(sessionId, resolution, commandArguments, workingFolder, startupInfo, host))
  }

  /** One run of `SpawnProcessToActiveConsole`, as a value. */
  function SpawnOutcome(startupInfo: Option<StartupInfo>, target: string, commandArguments: string,
                        workingFolder: Option<string>, host: Host): Spawn
  {
    SpawnFrom(startupInfo, ResolveTarget(target, host.registry), commandArguments, workingFolder, host)
  }

  /** A failed enumeration is reported before anything else is attempted. */
  lemma EnumerationFailureComesFirst(startupInfo: Option<StartupInfo>, resolution: Resolution, args: string,
                                     workingFolder: Option<string>, host: Host)
    requires host.enumeration.EnumerationFailed?
    ensures SpawnFrom(startupInfo, resolution, args, workingFolder, host)
            == Spawn(Fail(Win32(host.enumeration.lastError, EnumerationFailedMessage)), [EnumerateSessions])
  {
  }

  /** After a successful enumeration the buffer is freed, once, before
      selection; a selection error ends the run there, and otherwise the
      rest of the run is the resolution's lookups and the token stage. */
  lemma {:induction false} BufferFreedBeforeSelection(startupInfo: Option<StartupInfo>, resolution: Resolution, args: string,
                                                      workingFolder: Option<string>, host: Host)
    requires host.enumeration.Enumerated?
    requires forall c :: c in resolution.calls ==> c.OpenFileAssociation?
    ensures var s := SpawnFrom(startupInfo, resolution, args, workingFolder, host);
            && |s.calls| >= 2 && s.calls[..2] == [EnumerateSessions, FreeSessionMemory]
            && FreeSessionMemory !in s.calls[2..] && EnumerateSessions !in s.calls[2..]
    ensures var selected := SelectSession(ActiveSessionIds(host.enumeration.sessions));
            selected.Err? ==> SpawnFrom(startupInfo, resolution, args, workingFolder, host)
                              == Spawn(Fail(selected.error), [EnumerateSessions, FreeSessionMemory])
  {
    var selected := SelectSession(ActiveSessionIds(host.enumeration.sessions));
    var s := SpawnFrom(startupInfo, resolution, args, workingFolder, host);
    if selected.Ok? {
      var r := ResolveStage(selected.value, resolution, args, workingFolder, startupInfo, host);
      assert s.calls == [EnumerateSessions, FreeSessionMemory] + r.calls;
      assert s.calls[2..] == r.calls;
    }
  }

  /** The token is asked for the selected session, and only once a command
      file has been resolved to a non-empty string. */
  lemma TokenForSelectedSession(startupInfo: Option<StartupInfo>, resolution: Resolution, args: string,
                                workingFolder: Option<string>, host: Host, id: UInt32)
    requires forall c :: c in resolution.calls ==> c.OpenFileAssociation?
    requires QueryUserToken(id) in SpawnFrom(startupInfo, resolution, args, workingFolder, host).calls
    ensures host.enumeration.Enumerated?
    ensures SelectSession(ActiveSessionIds(host.enumeration.sessions)) == Ok(id)
    ensures resolution.commandFile.Some? && resolution.commandFile.value != ""
  {
    var selected := SelectSession(ActiveSessionIds(host.enumeration.sessions));
    var s := SpawnFrom(startupInfo, resolution, args, workingFolder, host);
    assert selected.Ok?;
    var r := ResolveStage(selected.value, resolution, args, workingFolder, startupInfo, host);
    assert s.calls == [EnumerateSessions, FreeSessionMemory] + r.calls;
    assert QueryUserToken(id) in r.calls;
    var f := resolution.commandFile;
    assert f.Some? && f.value != "";
    var t := TokenStage(selected.value, f.value, args, workingFolder, startupInfo, host);
    assert r.calls == resolution.calls + t.calls;
  }

  /** An `.exe` target never consults the registry, so the run does not
      depend on it. */
  lemma ExecutableNeverOpensAssociation(startupInfo: Option<StartupInfo>, target: string, args: string,
                                        workingFolder: Option<string>, host: Host, other: Registry)
    requires IsExecutable(target)
    ensures forall c :: c in SpawnOutcome(startupInfo, target, args, workingFolder, host).calls ==> !c.OpenFileAssociation?
    ensures SpawnOutcome(startupInfo, target, args, workingFolder, host)
            == SpawnOutcome(startupInfo, target, args, workingFolder, host.(registry := other))
  {
    ExecutableIgnoresRegistry(target, host.registry, other);
    var resolution := Resolution([], Some(TrimQuotes(target)));
    NoLookupNoAssociation(startupInfo, resolution, args, workingFolder, host);
    SpawnIgnoresRegistry(startupInfo, resolution, args, workingFolder, host, other);
  }

  /** A resolution without lookups leaves none in the run. */
  lemma NoLookupNoAssociation(startupInfo: Option<StartupInfo>, resolution: Resolution, args: string,
                              workingFolder: Option<string>, host: Host)
    requires resolution.calls == []
    ensures forall c :: c in SpawnFrom(startupInfo, resolution, args, workingFolder, host).calls ==> !c.OpenFileAssociation?
  {
    if host.enumeration.Enumerated? && SelectSession(ActiveSessionIds(host.enumeration.sessions)).Ok? {
      var id := SelectSession(ActiveSessionIds(host.enumeration.sessions)).value;
      var f := resolution.commandFile;
      if f.Some? && f.value != "" {
        var t := TokenStage(id, f.value, args, workingFolder, startupInfo, host);
        assert SpawnFrom(startupInfo, resolution, args, workingFolder, host).calls
               == [EnumerateSessions, FreeSessionMemory] + t.calls;
      }
    }
  }

  /** Past target resolution the run reads nothing from the registry. */
  lemma SpawnIgnoresRegistry(startupInfo: Option<StartupInfo>, resolution: Resolution, args: string,
                             workingFolder: Option<string>, host: Host, other: Registry)
    ensures SpawnFrom(startupInfo, resolution, args, workingFolder, host)
            == SpawnFrom(startupInfo, resolution, args, workingFolder, host.(registry := other))
  {
  }

  /** Every process creation is handed the resolved file, the unchanged
      arguments, the working-directory default and the fixed flags; it is
      the last call, it follows the token query for the selected session,
      and its failure is reported with the command line. */
  lemma CreationRequestShape(startupInfo: Option<StartupInfo>, resolution: Resolution, args: string,
                             workingFolder: Option<string>, host: Host, request: CreateRequest)
    requires forall c :: c in resolution.calls ==> c.OpenFileAssociation?
    requires CreateProcessAsUser(request) in SpawnFrom(startupInfo, resolution, args, workingFolder, host).calls
    ensures var s := SpawnFrom(startupInfo, resolution, args, workingFolder, host);
            var f := resolution.commandFile;
            && host.enumeration.Enumerated? && SelectSession(ActiveSessionIds(host.enumeration.sessions)).Ok?
            && f.Some? && f.value != "" && host.token.TokenIssued?
            && s.calls == [EnumerateSessions, FreeSessionMemory] + resolution.calls
                          + [QueryUserToken(SelectSession(ActiveSessionIds(host.enumeration.sessions)).value),
                             CreateProcessAsUser(request)]
            && request == LaunchRequest(host.token.token, f.value, args, WorkingDirectory(workingFolder, f.value), startupInfo)
            && !request.inheritHandles && request.creationFlags == 0 && request.environment == 0
            && request.processAttributes == request.threadAttributes == EmptySecurityAttributes
            && (host.creation.Created? ==> s.outcome == Pass)
            && (host.creation.CreationFailed? ==> s.outcome == Fail(Win32(host.creation.lastError, LaunchFailedMessage(f.value, args))))
  {
    var s := SpawnFrom(startupInfo, resolution, args, workingFolder, host);
    assert host.enumeration.Enumerated?;
    var selected := SelectSession(ActiveSessionIds(host.enumeration.sessions));
    assert selected.Ok?;
    var r := ResolveStage(selected.value, resolution, args, workingFolder, startupInfo, host);
    assert s.calls == [EnumerateSessions, FreeSessionMemory] + r.calls;
    var f := resolution.commandFile;
    assert f.Some? && f.value != "";
    var t := TokenStage(selected.value, f.value, args, workingFolder, startupInfo, host);
    assert r == After(resolution.calls, t);
    assert host.token.TokenIssued?;
    var req := LaunchRequest(host.token.token, f.value, args, WorkingDirectory(workingFolder, f.value), startupInfo);
    assert t == After([QueryUserToken(selected.value)], CreateStage(req, host.creation));
    assert request == req;
  }

  /** Every run starts with the enumeration, and it fails only with a host
      error, the multiple-desktop refusal or an invalid-operation error. */
  lemma SpawnFailureKinds(startupInfo: Option<StartupInfo>, resolution: Resolution, args: string,
                          workingFolder: Option<string>, host: Host)
    ensures var s := SpawnFrom(startupInfo, resolution, args, workingFolder, host);
            && |s.calls| >= 1 && s.calls[0] == EnumerateSessions
            && (s.outcome.Fail? ==> s.outcome.error.Win32? || s.outcome.error.NotSupported? || s.outcome.error.InvalidOperation?)
  {
  }

  /** A run always makes the enumeration call, so it is never a run that
      made no calls. */
  lemma SpawnMakesCalls(startupInfo: Option<StartupInfo>, target: string, args: string,
                        workingFolder: Option<string>, host: Host, outcome: Outcome)
    ensures SpawnOutcome(startupInfo, target, args, workingFolder, host) != Spawn(outcome, [])
  {
    SpawnFailureKinds(startupInfo, ResolveTarget(target, host.registry), args, workingFolder, host);
  }

  /** A run completes exactly when every step succeeds. */
  lemma SpawnSucceedsIffAllStepsSucceed(startupInfo: Option<StartupInfo>, resolution: Resolution, args: string,
                                        workingFolder: Option<string>, host: Host)
    ensures SpawnFrom(startupInfo, resolution, args, workingFolder, host).outcome.Pass? <==>
            && host.enumeration.Enumerated?
            && SelectSession(ActiveSessionIds(host.enumeration.sessions)).Ok?
            && resolution.commandFile.Some?
            && resolution.commandFile.value != ""
            && host.token.TokenIssued?
            && host.creation.Created?
  {
  }

  /** A run in which every step succeeds: the enumeration and the freeing
      of its buffer, the resolution's lookups, the token query for the
      selected session and the creation of the process from the resolved
      file, in that order. */
  lemma SuccessfulRun(startupInfo: Option<StartupInfo>, resolution: Resolution, args: string,
                      workingFolder: Option<string>, host: Host, sessionId: UInt32)
    requires host.enumeration.Enumerated? && SelectSession(ActiveSessionIds(host.enumeration.sessions)) == Ok(sessionId)
    requires resolution.commandFile.Some? && resolution.commandFile.value != ""
    requires host.token.TokenIssued? && host.creation.Created?
    ensures var f := resolution.commandFile.value;
            SpawnFrom(startupInfo, resolution, args, workingFolder, host)
            == Spawn(Pass, [EnumerateSessions, FreeSessionMemory] + resolution.calls
                           + [QueryUserToken(sessionId),
                              CreateProcessAsUser(LaunchRequest(host.token.token, f, args, WorkingDirectory(workingFolder, f), startupInfo))])
  {
    var f := resolution.commandFile.value;
    var t := TokenStage(sessionId, f, args, workingFolder, startupInfo, host);
    assert t.calls == [QueryUserToken(sessionId),
                       CreateProcessAsUser(LaunchRequest(host.token.token, f, args, WorkingDirectory(workingFolder, f), startupInfo))];
    AppendAssoc([EnumerateSessions, FreeSessionMemory], resolution.calls, t.calls);
  }

  /** A run whose resolution found no open command stops after the lookups. */
  lemma UnresolvedRun(startupInfo: Option<StartupInfo>, resolution: Resolution, args: string,
                      workingFolder: Option<string>, host: Host, sessionId: UInt32)
    requires host.enumeration.Enumerated? && SelectSession(ActiveSessionIds(host.enumeration.sessions)) == Ok(sessionId)
    requires resolution.commandFile.None? || resolution.commandFile.value == ""
    ensures SpawnFrom(startupInfo, resolution, args, workingFolder, host)
            == Spawn(Fail(InvalidOperation(NoFileTypeHandlerMessage)), [EnumerateSessions, FreeSessionMemory] + resolution.calls)
  {
  }

  class LaunchProcessCommandWin32Helper {
    /** The STARTUPINFO passed to process creation (null: the default one). */
    var startupInfo: Option<StartupInfo>

    constructor ()
      ensures startupInfo == Some(DefaultStartupInfo)
    {
      startupInfo := Some(DefaultStartupInfo);
    }

    /** The `foreach` over the copied session list with the `uint.MaxValue`
        "none yet" sentinel. */
    static method SelectActiveSession(sessions: seq<SessionInfo>) returns (r: Result<UInt32>)
      ensures r == SelectSession(ActiveSessionIds(sessions))
    {
      var sessionId: UInt32 := UInt32Max;
      var i := 0;
      while i < |sessions|
        invariant 0 <= i <= |sessions|
        invariant var ids := ActiveSessionIds(sessions[..i]);
                  && (forall k :: 0 <= k < |ids| - 1 ==> ids[k] == UInt32Max)
                  && sessionId == (if ids == [] then UInt32Max else ids[|ids| - 1])
      {
        var si := sessions[i];
        ActiveSessionIdsStep(sessions, i);
        if si.state == WTSActive {
          if sessionId != UInt32Max {
            ConflictIsFinal(sessions, i + 1, |ActiveSessionIds(sessions[..i])| - 1);
            return Err(NotSupported(MultipleDesktopsMessage));
          }
          sessionId := ToUInt32(si.sessionId);
        }
        i := i + 1;
      }
      assert sessions[..i] == sessions;
      if sessionId == UInt32Max {
        return Err(InvalidOperation(NoActiveSessionMessage));
      }
      return Ok(sessionId);
    }

    /** `SpawnProcessToActiveConsole`: enumerate and free, select the active
        session, then resolve and launch in it, stopping at the first failure. */
    method SpawnProcessToActiveConsole(targetFile: string, commandArguments: string,
                                       workingFolder: Option<string>, host: Host)
      returns (outcome: Outcome, calls: seq<HostCall>)
      ensures Spawn(outcome, calls) == SpawnOutcome(startupInfo, targetFile, commandArguments, workingFolder, host)
    {
      calls := [EnumerateSessions];
      if host.enumeration.EnumerationFailed? {
        return Fail(Win32(host.enumeration.lastError, EnumerationFailedMessage)), calls;
      }
      var sessions := host.enumeration.sessions;
      calls := calls + [FreeSessionMemory];
      assert calls == [EnumerateSessions, FreeSessionMemory];

      var selected := SelectActiveSession(sessions);
      if selected.Err? {
        return Fail(selected.error), calls;
      }
      var laterCalls;
      outcome, laterCalls := LaunchInSession(selected.value, targetFile, commandArguments, workingFolder, host);
      calls := calls + laterCalls;
    }

    /** Where the target's file name or type leads: the file itself for an
        `.exe`, otherwise the open command of its extension. */
    static method LocateCommandFile(targetFile: string, registry: Registry)
      returns (commandFile: Option<string>, lookups: seq<HostCall>)
      ensures Resolution(lookups, commandFile) == ResolveTarget(targetFile, registry)
    {
      var trimmed := TrimQuotes(targetFile);
      var fileExt := GetExtension(trimmed);
      if EqualsIgnoreCase(fileExt, ".exe") {
        return Some(trimmed), [];
      }
      commandFile := LookupOpenVerb(fileExt, registry);
      lookups := [OpenFileAssociation(fileExt)];
    }

    /** The rest of the run inside the selected session: resolve the target,
        default the working folder, query the token and create the process. */
    method LaunchInSession(sessionId: UInt32, targetFile: string, commandArguments: string,
                           workingFolder: Option<string>, host: Host)
      returns (outcome: Outcome, calls: seq<HostCall>)
      ensures Spawn(outcome, calls)
              == ResolveStage(sessionId, ResolveTarget(targetFile, host.registry), commandArguments, workingFolder, startupInfo, host)
    {
      var commandFile, lookups := LocateCommandFile(targetFile, host.registry);
      calls := lookups;
      if commandFile.None? || commandFile.value == "" {
        return Fail(InvalidOperation(NoFileTypeHandlerMessage)), calls;
      }

      var workingDirectory := if workingFolder.Some? then workingFolder.value else GetDirectoryName(commandFile.value);
      calls := calls + [QueryUserToken(sessionId)];
      if host.token.TokenDenied? {
        return Fail(Win32(host.token.lastError, TokenQueryFailedMessage)), calls;
      }

      var startInfo := if startupInfo.Some? then startupInfo.value else DefaultStartupInfo;
      var request := CreateRequest(host.token.token, commandFile.value, commandArguments,
                                   EmptySecurityAttributes, EmptySecurityAttributes,
                                   false, 0, 0, workingDirectory, startInfo);
      AppendAssoc(lookups, [QueryUserToken(sessionId)], [CreateProcessAsUser(request)]);
      calls := calls + [CreateProcessAsUser(request)];
      if host.creation.CreationFailed? {
        return Fail(Win32(host.creation.lastError, LaunchFailedMessage(commandFile.value, commandArguments))), calls;
      }
      outcome := Pass;
    }
  }
}
