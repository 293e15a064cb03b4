# Custom web server agent: launch, ambient report and kernel bootstrap, in Dafny

This project models the core of the Windows client-services agent. Three parts are covered:

- **LaunchProcess command.** It reads a JSON `LaunchProcessParameters`, a working folder and a command line, and splits the command line into the file to run (`CommandFqfn`) and its arguments (`CommandArguments`). It then asks `LaunchProcessCommandWin32Helper` to start that file in the one active console session. The helper:
  - enumerates the terminal-services sessions and frees the buffer;
  - picks the single session in state `WTSActive`;
  - resolves the target: an `.exe` runs as is, while any other file type runs through the open command registered for its extension;
  - queries the session user's token;
  - calls `CreateProcessAsUser`.
- **AmbientReport command.** It collects the operating system, the Windows firewall profile state (from `HNetCfg.FwMgr` before Vista, `HNetCfg.FwPolicy2` from Vista on), and the antivirus and third-party firewall products that Windows Security Center reports over WMI. It decodes `productState` on Security Center 2, and builds a result with a running message.
- **KernelBootstrapper.** It creates the kernel's application domain and instantiates the kernel engine from the `engineTypeId` setting, falling back to default names. It starts the engine, and restarts the kernel either on request (`Reboot`, through the domain-unload handshake) or after a failed start (through the restart timer).

## How the model is built

- Everything Windows answers is an oracle value handed to the model, and the calls made are recorded in order as a trace (`seq<HostCall>` for the launch helper, `seq<KernelEvent>` for the bootstrapper). The oracle covers session enumeration, the user token, process creation, the registry, WMI, the firewall COM objects, the configuration file and the engine's `Run`.
- Each operation exists twice:
  - a specification function on values: `SpawnOutcome`, `RunOutcome`, `RunReport`, `BootKernel`, `RebootKernel`, `DomainUnloaded`, `RestartTimeElapsed`;
  - a class with the source's fields, whose methods update those fields step by step and are proved equal to the function.
- The lemmas then state what the source promises about the functions.
- Exceptions are values (`Common.Exception`), and a method that can throw returns an `Outcome`.
- Session ids are cast to `uint` explicitly: the value modulo 2^32.
- `Path.GetExtension`, `Path.GetDirectoryName`, `Trim`, `IndexOf`, `string.Format` with one argument, `Convert.ToInt32`, `ToString("X6")` and `byte.Parse` are written out in `text.dfy` and `ambient_report.dfy` for the inputs the core gives them.

Where the written description of the system and the code differ, the model follows the code:

- The whole open-command string found in the registry is the file handed to `CreateProcessAsUser`. It is not split into an executable and its own arguments.
- The working-folder default (the directory of the command file) applies only when the folder is null. An empty folder is passed on.
- `LaunchProcessCommand.Run` sets `Running` before it validates its parameters. A failed run leaves `Running`: there is no faulted state.
- The arguments keep the space that separated them from the file name.
- `AmbientReportCommand.Run` does not always complete. When the firewall object cannot be created, or the profile type is `NET_FW_PROFILE2_ALL`, the logging call throws `FormatException`. The run then stops with only the OS recorded and the state left `Running`, and the "cannot be determined" note is never written (see Findings).

## Model

| member | source | states |
|---|---|---|
| Common.ToUInt32 | LaunchProcessCommandWin32Helper.cs:212 | the `(uint)` cast of a session id keeps a non-negative id and adds 2^32 to a negative one |
| Text.IndexOf | LaunchProcessParameters.cs:35 | -1 exactly when the character does not occur from the start position on; otherwise the first position from there that holds it |
| Text.LastIndexOf | LaunchProcessCommandWin32Helper.cs:231 | -1 exactly when the character does not occur; otherwise the last position that holds it |
| Text.FirstSegment | KernelBootstrapper.cs:146 | `Split(sep)[0]` is the longest prefix without the separator, which is followed by the separator unless it is the whole text |
| Text.Trim | KernelBootstrapper.cs:146-147 | the trimmed text is no longer, neither starts nor ends with a trimmed character, and a text that already does not is unchanged |
| Text.TrimIsInfix | KernelBootstrapper.cs:146-147 | the trimmed text is one contiguous piece of the text, and every character before and after that piece is a trimmed character |
| Text.TrimLeadingBlank | KernelBootstrapper.cs:146 | trimming a trimmed text with one blank added in front gives the text back |
| Text.TrimEnclosed | LaunchProcessCommandWin32Helper.cs:221 | `Trim('"')` of a text enclosed in quotes gives the inner text, when that does not start or end with a quote |
| Text.GetExtension | LaunchProcessCommandWin32Helper.cs:222 | the extension is a suffix of the file name, a dot followed by at least one character and no other dot; it is empty only when the file name has no dot or the path ends with one |
| Text.ExtensionOf | LaunchProcessCommandWin32Helper.cs:222 | a name ending in a dot-led extension without dots or separators has that extension |
| Text.GetDirectoryName | LaunchProcessCommandWin32Helper.cs:231 | the directory is the prefix before the last backslash, and empty when there is none |
| Text.DirectoryAfterSeparator | LaunchProcessCommandWin32Helper.cs:231 | the directory of `dir\name` is `dir` |
| LaunchParameters.CommandFqfn | LaunchProcessParameters.cs:26-49 | a line starting with a quote yields the prefix through the next quote, and null exactly when there is no closing quote; any other line yields the prefix up to the first space (the whole line without one) |
| LaunchParameters.CommandArguments | LaunchProcessParameters.cs:51-58 | throws a null reference exactly when `CommandFqfn` is null; otherwise `CommandFqfn + CommandArguments` is the whole line |
| LaunchParameters.FqfnOfValidLine | LaunchProcessParameters.cs:26-63 | on a non-empty line, the file is null exactly for an unterminated leading quote and empty exactly for a leading space |
| LaunchParameters.LoneQuoteHasNoFqfn | LaunchProcessParameters.cs:33-40 | the line `"` has no file, and reading its arguments throws |
| LaunchParameters.LeadingSpaceGivesEmptyFqfn | LaunchProcessParameters.cs:41-45 | a line starting with a space has the empty file, and the whole line is its arguments |
| LaunchParameters.SplitUnquoted | LaunchProcessParameters.cs:41-58 | an unquoted file without spaces, followed by arguments that start with a space, splits back into exactly that file and those arguments |
| LaunchParameters.SplitQuoted | LaunchProcessParameters.cs:33-58 | a quoted file followed by any arguments splits back into the quoted file and those arguments |
| LaunchParameters.ReportArguments | LaunchProcessParameters.cs:41-58 | `C:\Tools\report.exe --full` splits into the program and ` --full`, keeping the leading space |
| LaunchCommand.InvalidParametersCallNothing | LaunchProcessCommand.cs:34-39 | missing parameters, or a null or empty command line, fail with "Invalid parameters." and make no native call, and only those do |
| LaunchCommand.SyntaxErrorCases | LaunchProcessCommand.cs:41-46 | on valid parameters, the run fails with a syntax error and no native call exactly when the line has an unterminated leading quote or a leading space |
| LaunchCommand.HelperReceivesSplit | LaunchProcessCommand.cs:41-54 | otherwise the helper is handed the file, the rest of the line as arguments, and the working folder as given |
| LaunchCommand.LaunchProcessCommand.constructor | LaunchProcessCommand.cs:16-18 | a new command has not started and has no parameters |
| LaunchCommand.LaunchProcessCommand.ReadParameters | LaunchProcessCommand.cs:24-30 | a null or empty JSON text leaves the parameters as they were; any other replaces them with the deserialized value |
| LaunchCommand.LaunchProcessCommand.Run | LaunchProcessCommand.cs:32-57 | the outcome and native calls are those of `RunOutcome`; the state ends `Completed` exactly when the run succeeded, and `Running` otherwise |
| LaunchCommand.ExecutableLaunch | LaunchProcessCommand.cs:32-57 | `dir\stem.exe args` with no working folder runs in `dir`: enumerate, free, query the token, then create the process from the file itself and the arguments, with no registry lookup |
| LaunchCommand.ExecutableFile | LaunchProcessCommandWin32Helper.cs:221-231 | such a file needs no quote trimming, counts as an `.exe`, and its directory name is `dir` |
| LaunchCommand.ExtensionIsExe | LaunchProcessCommandWin32Helper.cs:222-223 | a target whose trimmed extension is `.exe` is run as is |
| LaunchCommand.DocumentLaunch | LaunchProcessCommandWin32Helper.cs:221-260 | a quoted document with a registered type: one lookup of its extension, and the whole open command is the file that is created, in the given folder |
| LaunchCommand.QuotedDocument | LaunchProcessCommandWin32Helper.cs:221-222 | trimming the quotes off `"base.ext"` gives `base.ext`, whose extension is `.ext` |
| LaunchCommand.UnquotedDocumentSplit | LaunchProcessParameters.cs:41-58 | an unquoted document with no spaces is the whole line and leaves no arguments |
| LaunchCommand.UnquotedDocumentResolves | LaunchProcessCommandWin32Helper.cs:221-223 | a non-`.exe` document makes one lookup of its extension and takes what it finds |
| LaunchCommand.UnknownFileType | LaunchProcessCommandWin32Helper.cs:223-228 | a document whose type has no open command fails with "Unable to locate file type handler." after the lookup, before any token query |
| Win32Launch.ActiveSessionIdsAppend | LaunchProcessCommandWin32Helper.cs:204-214 | the active ids of two lists joined are the active ids of each, in order |
| Win32Launch.InactiveSessionsAreIgnored | LaunchProcessCommandWin32Helper.cs:206 | sessions in any state other than WTSActive do not affect the selection |
| Win32Launch.NonNegativeIdsMissSentinel | LaunchProcessCommandWin32Helper.cs:203-212 | non-negative session ids never equal the `uint.MaxValue` sentinel after the cast |
| Win32Launch.ConflictIsFinal | LaunchProcessCommandWin32Helper.cs:206-211 | once the sessions seen so far contain a second active session after a real one, the whole scan throws "Multiple desktops detected." |
| Win32Launch.SelectionPolicy | LaunchProcessCommandWin32Helper.cs:203-219 | for real ids: none active fails with "No active session found.", exactly one is selected, two or more fail with "Multiple desktops detected." |
| Win32Launch.SentinelCollision | LaunchProcessCommandWin32Helper.cs:203-219 | a session id of -1 casts to the sentinel: alone it reads as "no active session", and before another active session it is silently replaced |
| Win32Launch.LookupOpenVerb | LaunchProcessCommandWin32Helper.cs:169-185 | no key for the extension gives null; for an existing key, the extension's default value (null read as "") names the program id, and the result is that id's `shell\open\command` value, or null when that key is missing |
| Win32Launch.UnquotedTarget | LaunchProcessCommandWin32Helper.cs:221 | a target that neither starts nor ends with a quote is not changed by `Trim('"')` |
| Win32Launch.ResolveTarget | LaunchProcessCommandWin32Helper.cs:221-223 | at most one registry lookup, and none exactly when the target is an `.exe` |
| Win32Launch.ExecutableIgnoresRegistry | LaunchProcessCommandWin32Helper.cs:221-223 | an `.exe` target resolves to itself, non-empty, whatever the registry holds; any other target resolves to the open command of its extension |
| Win32Launch.WorkingDirectory | LaunchProcessCommandWin32Helper.cs:231 | a given folder is used as is; otherwise the command file up to its last backslash, and "" when it has none |
| Win32Launch.CreateStage | LaunchProcessCommandWin32Helper.cs:243-260 | one `CreateProcessAsUser` call; success exactly when it launched; failure carries the last error and "Unable to execute the following command:" with the file and arguments |
| Win32Launch.TokenStage | LaunchProcessCommandWin32Helper.cs:232-260 | a refused token fails with its last error and "Failed to query user's access token." after that one query; an issued token is followed by exactly one `CreateProcessAsUser` with that token, the file, the arguments, the working directory and the startup info, and the stage passes exactly when the process was created |
| Win32Launch.ResolveStage | LaunchProcessCommandWin32Helper.cs:221-236 | past resolution, the run makes only the resolution's lookups, the token query for the session, and process creation |
| Win32Launch.EnumerationFailureComesFirst | LaunchProcessCommandWin32Helper.cs:193-196 | a failed enumeration throws "Failed to enumerate sessions." with its error code, after that one call |
| Win32Launch.BufferFreedBeforeSelection | LaunchProcessCommandWin32Helper.cs:198-219 | after enumeration the buffer is freed once, before anything else; a selection error ends the run there |
| Win32Launch.TokenForSelectedSession | LaunchProcessCommandWin32Helper.cs:216-236 | a token is queried only for the selected session, and only once a non-empty command file is known |
| Win32Launch.ExecutableNeverOpensAssociation | LaunchProcessCommandWin32Helper.cs:221-223 | running an `.exe` never opens a registry key, and its run does not depend on the registry |
| Win32Launch.NoLookupNoAssociation | LaunchProcessCommandWin32Helper.cs:225-260 | past resolution no registry key is opened |
| Win32Launch.SpawnIgnoresRegistry | LaunchProcessCommandWin32Helper.cs:225-260 | past resolution the run does not read the registry |
| Win32Launch.CreationRequestShape | LaunchProcessCommandWin32Helper.cs:238-260 | every creation is the last call and follows the token query; it gets the resolved file, the unchanged arguments, the working directory, empty security attributes, no inherited handles, zero flags and environment, and the startup info |
| Win32Launch.SpawnFailureKinds | LaunchProcessCommandWin32Helper.cs:187-261 | the first call is always the enumeration, and the run fails only with a Win32, not-supported or invalid-operation error |
| Win32Launch.SpawnMakesCalls | LaunchProcessCommandWin32Helper.cs:193 | every run makes at least one native call |
| Win32Launch.SpawnSucceedsIffAllStepsSucceed | LaunchProcessCommandWin32Helper.cs:187-261 | the launch succeeds exactly when enumeration, selection, resolution, token query and creation all succeed |
| Win32Launch.SuccessfulRun | LaunchProcessCommandWin32Helper.cs:187-261 | a successful launch makes exactly: enumerate, free, the lookups, the token query, the creation |
| Win32Launch.UnresolvedRun | LaunchProcessCommandWin32Helper.cs:225-228 | a null or empty command file fails with "Unable to locate file type handler." before any token query |
| Win32Launch.LaunchProcessCommandWin32Helper.constructor | LaunchProcessCommandWin32Helper.cs:162-165 | the startup info starts as the default one |
| Win32Launch.LaunchProcessCommandWin32Helper.SelectActiveSession | LaunchProcessCommandWin32Helper.cs:203-219 | the selection loop returns what `SelectSession` gives on the active ids, throwing at the second active session |
| Win32Launch.LaunchProcessCommandWin32Helper.SpawnProcessToActiveConsole | LaunchProcessCommandWin32Helper.cs:187-261 | the outcome and the native calls in order are those of `SpawnOutcome` |
| Win32Launch.LaunchProcessCommandWin32Helper.LocateCommandFile | LaunchProcessCommandWin32Helper.cs:221-223 | the command file and the lookups made are those of `ResolveTarget` |
| Win32Launch.LaunchProcessCommandWin32Helper.LaunchInSession | LaunchProcessCommandWin32Helper.cs:221-260 | the rest of the run, after selection, is `ResolveStage` |
| AmbientReport.AtLeastIsTotalOrder | AmbientReportCommand.cs:34 | the `Version` comparison is reflexive, total, antisymmetric and transitive |
| AmbientReport.WscSelection | AmbientReportCommand.cs:13-57 | at the boundary versions around 6.0.6001.18000, Security Center 2 and `productState` are used from that version on, and the older namespace and its two flags just below it |
| AmbientReport.FindProperty | AmbientReportCommand.cs:59-61 | the property is the first whose name matches ignoring case, and none exactly when no name matches |
| AmbientReport.ParseInt32 | AmbientReportCommand.cs:128 | a converted text is an optional minus sign followed by one or more digits, and its value is the decimal value of those digits, negated after a minus; the only errors are format and overflow |
| AmbientReport.ParseInt32RoundTrip | AmbientReportCommand.cs:128 | every 32-bit integer written in decimal converts back to itself |
| AmbientReport.ToInt32 | AmbientReportCommand.cs:128 | an integer converts to itself exactly when it fits in 32 bits; the only errors are overflow and format |
| AmbientReport.ToBoolean | AmbientReportCommand.cs:70-71 | null converts to false, a boolean to itself, a number to "non-zero"; a text converts exactly when its trimmed form is `True` or `False` in any case, to that value, and any other text fails with a format error |
| AmbientReport.DisplayString | AmbientReportCommand.cs:74 | `Value.ToString()` fails exactly on a null value, with a null reference; a text is itself |
| AmbientReport.FormatX6 | AmbientReportCommand.cs:128 | the X6 text has at least six digits |
| AmbientReport.ParseByte | AmbientReportCommand.cs:129 | a parsed byte is below 256; the only errors are format and overflow |
| AmbientReport.DecodeWsc2ProductEnabledState | AmbientReportCommand.cs:126-132 | decoding fails only with a format or overflow error |
| AmbientReport.DecodeWsc2ProductUpdatedState | AmbientReportCommand.cs:134-140 | decoding fails only with a format or overflow error |
| AmbientReport.X6Nibbles | AmbientReportCommand.cs:128 | below 0x1000000 the X6 text is the six hexadecimal digits, most significant first |
| AmbientReport.ParseOneHexDigit | AmbientReportCommand.cs:129 | one hexadecimal digit parses as its value when it is a decimal digit, and throws a format error when it is a letter |
| AmbientReport.ParseTwoHexDigits | AmbientReportCommand.cs:137 | two hexadecimal digits parse as a decimal number, or throw if either is a letter |
| AmbientReport.EnabledReadsBits12To15 | AmbientReportCommand.cs:126-132 | "enabled" is true exactly when bits 12-15 of the state hold 1; a letter nibble there throws |
| AmbientReport.UpdatedReadsLowByte | AmbientReportCommand.cs:134-140 | "up to date" is true exactly when the low byte is 0; a letter nibble in it throws |
| AmbientReport.EnabledUpToDateExample | AmbientReportCommand.cs:126-140 | 0x061100 reads as enabled and up to date |
| AmbientReport.DisabledOutOfDateExample | AmbientReportCommand.cs:126-140 | 0x060110 reads as disabled and out of date |
| AmbientReport.LetterNibbleExample | AmbientReportCommand.cs:126-140 | 0x00A000 and 0x00001B throw a format error |
| AmbientReport.ProductStateOverflows | AmbientReportCommand.cs:128 | a state of 2^31 or more overflows the conversion to `int` |
| AmbientReport.ReadEnabled | AmbientReportCommand.cs:70 | reading "enabled" fails only with a format or overflow error |
| AmbientReport.ReadUpdated | AmbientReportCommand.cs:71 | reading "up to date" fails only with a format or overflow error |
| AmbientReport.AntivirusStep | AmbientReportCommand.cs:32-79 | only the antivirus entry and the message change; when the first product has a display name and readable states, the pass records exactly that name and those states; a pass keeps the old entry otherwise; a failed query fails with a WMI error and changes nothing; no products appends "Antivirus product not installed."; any failure is a WMI or conversion error and leaves the message alone |
| AmbientReport.OnlyFirstAntivirusProduct | AmbientReportCommand.cs:46-54 | products after the first are ignored |
| AmbientReport.FirewallProductStep | AmbientReportCommand.cs:81-124 | the same for the third-party firewall entry, with "Third party firewall product not installed." |
| AmbientReport.OnlyFirstFirewallProduct | AmbientReportCommand.cs:81-124 | firewall products after the first are ignored |
| AmbientReport.FormatOneArg | AmbientReportCommand.cs:154 | formatting with one argument fails only with a format error |
| AmbientReport.TrailingItemOneThrows | AmbientReportCommand.cs:154 | any format text ending in `{1}` throws when given one argument |
| AmbientReport.FormatsNameItemOne | AmbientReportCommand.cs:154-204 | the three logging formats all throw with their single argument |
| AmbientReport.ManagerSettings | AmbientReportCommand.cs:158-179 | the manager settings with the logging corrected: no manager gives null; the domain and standard profiles fill only their own field; any other profile type leaves every field unset and adds "Unknown Windows Firewall state." |
| AmbientReport.ManagerSettingsAsWritten | AmbientReportCommand.cs:142-180 | as written: a manager that cannot be created throws a format error from the logging call, and only then; otherwise the result is the corrected settings |
| AmbientReport.PolicySettings | AmbientReportCommand.cs:198-228 | the policy settings with the logging corrected: no policy, or the profile type ALL, gives null; otherwise each of the domain, private and public bits that is set fills its own field with that profile's flag, and the standard field stays unset |
| AmbientReport.PolicySettingsAsWritten | AmbientReportCommand.cs:182-229 | as written: a policy that cannot be created, or the profile type NET_FW_PROFILE2_ALL, throws a format error, and only those; otherwise the result is the corrected settings |
| AmbientReport.FirewallSettings | AmbientReportCommand.cs:233 | the manager is used before version 6 and the policy from 6 on; as written it throws a format error exactly in the three throwing cases, corrected it never throws; the policy adds no message |
| AmbientReport.CorrectedFirewallFailures | AmbientReportCommand.cs:142-240 | in the three throwing cases, the step as written fails with a format error and changes nothing, while the corrected step records null and "Windows firewall state cannot be determined."; in every other case the as-written and corrected runs are equal |
| AmbientReport.WindowsFirewallStep | AmbientReportCommand.cs:231-240 | fails exactly when the logging is as written and one of the three throwing cases occurs, and then changes nothing; otherwise the firewall entry is the manager's or policy's settings, the other entries stay, the "cannot be determined" line is added exactly when the entry is null, and the message is otherwise unchanged except for the unknown-profile line |
| AmbientReport.AsWrittenNeverUndetermined | AmbientReportCommand.cs:235-238 | as written, a step that passes always records a firewall entry, so the "cannot be determined" line is never added |
| AmbientReport.RunReport | AmbientReportCommand.cs:244-261 | the OS is always recorded; as written, a throwing firewall load ends the run with a format error and only the OS recorded; a completed run records the firewall settings and the first antivirus and firewall products' data, and its message ends with "Command completed."; a failed run failed with a WMI or conversion error |
| AmbientReport.InconclusiveProfileStopsRun | AmbientReportCommand.cs:200-206 | on Vista or later with the profile type ALL, the run as written stops at the firewall with a format error; corrected, it passes with the three notes and the closing line |
| AmbientReport.NothingInstalled | AmbientReportCommand.cs:216-261 | on Vista or later with only the private profile active and no products, the run as written passes, records only the private flag, and has exactly the two "not installed" notes and the closing line |
| AmbientReport.AmbientReportCommand.constructor | AmbientReportCommand.cs:15-19 | a new command has not started and has no result |
| AmbientReport.AmbientReportCommand.Parameters | AmbientReportCommand.cs:23-26 | the command has no parameters |
| AmbientReport.AmbientReportCommand.ReadParameters | AmbientReportCommand.cs:242 | reading parameters changes nothing |
| AmbientReport.AmbientReportCommand.LoadOsInfo | AmbientReportCommand.cs:263-269 | only the OS entry of the result is set |
| AmbientReport.AmbientReportCommand.LoadWindowsFirewallInfo | AmbientReportCommand.cs:231-240 | the result and outcome are `WindowsFirewallStep` of the old result with the logging as written |
| AmbientReport.AmbientReportCommand.LoadWscAntivirusProductInfo | AmbientReportCommand.cs:32-79 | the result and outcome are `AntivirusStep` on the reply of the antivirus query, in the namespace for the OS version |
| AmbientReport.AmbientReportCommand.LoadWscFirewallProductInfo | AmbientReportCommand.cs:81-124 | the result and outcome are `FirewallProductStep` on the reply of the firewall query |
| AmbientReport.AmbientReportCommand.Run | AmbientReportCommand.cs:244-261 | the result and outcome are `RunReport` with the logging as written; the state ends `Completed` exactly when no load threw, and `Running` otherwise; a throwing firewall load leaves `Running` with only the OS recorded |
| Hosting.SplitEngineTypeId | KernelBootstrapper.cs:143-148 | `Substring` throws exactly when the trimmed first segment of `Split(',')` plus one is longer than the setting; otherwise the class name is that trimmed segment, which has no comma and no blank at either end, and the assembly name is the trimmed text from position length + 1 on |
| Hosting.SplitsAtComma | KernelBootstrapper.cs:143-148 | `Class,Assembly` with a trimmed class name gives the class and the trimmed assembly |
| Hosting.NoCommaFallsBack | KernelBootstrapper.cs:140-154 | a setting without a comma and without surrounding blanks cannot be split, and the default names are used, as for a missing setting |
| Hosting.SplitAfterBlank | KernelBootstrapper.cs:146-147 | with a blank before the class name, the class is still found, but the assembly cut falls one character early |
| Hosting.LeadingBlankKeepsComma | KernelBootstrapper.cs:146-147 | then the assembly name handed to `CreateInstanceAndUnwrap` starts with the comma |
| Hosting.InitializeRestart | KernelBootstrapper.cs:82-91 | the timer is created only if there is none, then enabled; a timer kept after disposal stays disposed; nothing else changes |
| Hosting.RestartOutcome | KernelBootstrapper.cs:82-91 | enabling throws `ObjectDisposedException` exactly when the timer is disposed and not already enabled |
| Hosting.DisposeRestartSecond | KernelBootstrapper.cs:45-51 | an existing timer is disposed and disabled but kept; without one nothing changes |
| Hosting.BootKernel | KernelBootstrapper.cs:129-187 | refused (nothing changes) while a partition exists; otherwise the partition exists afterwards and the engine is set if created; a successful start sets the reboot delegate and disposes the timer; no engine, or a throwing start, leaves an enabled timer; effects are only appended |
| Hosting.BootOutcome | KernelBootstrapper.cs:129-187 | a boot throws "Kernel partition already exists." exactly when a partition exists; otherwise it throws exactly when the start does not succeed and the timer it enables is disposed and not enabled, with `ObjectDisposedException` |
| Hosting.BootEffects | KernelBootstrapper.cs:137-186 | the effects of a boot in order: create the domain, create the engine instance, run the engine if there is one and the configuration loads, then either set the delegate and dispose the timer, or create the timer if needed and enable it |
| Hosting.RebootKernel | KernelBootstrapper.cs:110-127 | the engine, if any, is disposed first; with a partition, the reboot flag is set and the partition is unloaded, leaving the timer alone; without one, the kernel boots at once; `Rebooting` is never set without a partition |
| Hosting.RebootOutcome | KernelBootstrapper.cs:110-127 | a reboot with a partition never throws; without one it throws exactly when its boot does, with `ObjectDisposedException` |
| Hosting.DomainUnloaded | KernelBootstrapper.cs:61-69 | the partition is cleared; if a reboot was requested, the flag is reset and the kernel boots |
| Hosting.DomainUnloadedOutcome | KernelBootstrapper.cs:61-69 | the unload handler throws only when a reboot was requested and its boot throws, with `ObjectDisposedException` |
| Hosting.StepsKeepConsistent | KernelBootstrapper.cs:61-187 | every entry point keeps `Rebooting` confined to times when a partition exists |
| Hosting.TimerDisabledFirst | KernelBootstrapper.cs:53-57 | the timer handler disables the timer before anything `Reboot` does |
| Hosting.RestartElapsedOutcome | KernelBootstrapper.cs:53-57 | the timer handler throws only with `ObjectDisposedException`, only without a partition, and only for a disposed timer |
| Hosting.RebootHandshake | KernelBootstrapper.cs:61-127 | `Reboot` then the unload notification disposes the engine, unloads, and boots a kernel with no partition, so that boot is never refused |
| Hosting.FailedBootRetries | KernelBootstrapper.cs:82-187 | a boot that gets no engine leaves an enabled timer; when it fires, the kernel unloads and boots again once the domain is gone |
| Hosting.DisposedTimerRearmed | KernelBootstrapper.cs:45-51 | a successful boot disposes the timer but keeps it; after a reboot, the unload handler's boot that gets no engine enables the disposed timer and throws `ObjectDisposedException`, leaving a disposed, enabled timer |
| Hosting.CorrectedDisposeRestartSecond | KernelBootstrapper.cs:45-51 | with the reference cleared after disposal: no timer is left, and a disposal is recorded exactly when there was one |
| Hosting.CorrectedTimerRearmed | KernelBootstrapper.cs:45-51 | after the corrected disposal, the next restart creates a new timer and enables it without throwing |
| Hosting.KernelBootstrapper.constructor | KernelBootstrapper.cs:13-20 | no partition, engine, reboot flag or timer, and no effects yet |
| Hosting.KernelBootstrapper.InitializeRestartSecond | KernelBootstrapper.cs:82-91 | the fields become `InitializeRestart` of the old fields, and the outcome is `RestartOutcome` |
| Hosting.KernelBootstrapper.DisposeRestartSecondTimer | KernelBootstrapper.cs:45-51 | the fields become `DisposeRestartSecond` of the old fields |
| Hosting.KernelBootstrapper.Boot | KernelBootstrapper.cs:129-187 | the fields become `BootKernel` of the old fields, and the outcome is `BootOutcome` |
| Hosting.KernelBootstrapper.Reboot | KernelBootstrapper.cs:110-127 | the fields become `RebootKernel` of the old fields, and the outcome is `RebootOutcome` |
| Hosting.KernelBootstrapper.KernelPartitionDomainUnload | KernelBootstrapper.cs:61-69 | the fields become `DomainUnloaded` of the old fields, and the outcome is `DomainUnloadedOutcome` |
| Hosting.KernelBootstrapper.RestartSecondTimeElapsed | KernelBootstrapper.cs:53-57 | the fields become `RestartTimeElapsed` of the old fields, and the outcome is `RestartElapsedOutcome` |
| Hosting.KernelBootstrapper.Dispose | KernelBootstrapper.cs:189-193 | the timer is disposed; then, if a partition exists, the engine is disposed and cleared, the unload handler is detached and the partition is unloaded |

## Left out

- Native calls, COM, WMI, the registry, the configuration file and the engine are oracle values. Marshalling of `WTS_SESSION_INFO` and `STARTUPINFO` is not modelled, and neither are handle lifetimes: the token handle and the process handles returned by `CreateProcessAsUser` are not closed in the code shown, and whether the helper's base class releases them is not part of this model.
- The registry is two maps with exact-match keys. Registry key names are case-insensitive on Windows; the model does not fold case.
- Text handling covers ASCII only: `char.IsWhiteSpace` is the ASCII white-space set, and case-insensitive comparison folds ASCII letters only.
- `Path.GetExtension` and `Path.GetDirectoryName` are modelled for backslash-separated paths. Invalid path characters, `/` separators, drive roots and UNC prefixes are not modelled.
- JSON deserialization is an input to `ReadParameters`, not modelled.
- The `Monitor` and `TraceSource` logging is left out, except where it changes behaviour: the `string.Format` calls of the firewall loading throw, and that is modelled in the run as written (`Logging.AsWritten`), which is what `AmbientReportCommand.Run` does. `Logging.Corrected` is the corrected half of the Findings.
- `Environment.OSVersion` is an input. `VersionString` and `Platform` are strings given to the model.
- `Convert.ToInt32` and `Convert.ToBoolean` on texts are modelled without `Int32.Parse`'s leading and trailing white space, `+` sign and culture rules. Values other than null, integers, booleans and texts are not modelled.
- `AmbientReport.FormatOneArg`: `{{` and `}}` escapes, a lone `}`, and alignment or format parts of a format item are not modelled; the core's format texts use none of them.
- The interval of the restart timer (`startupSequenceRetryIntervalInSeconds`) is not modelled, since the model has no time. `int.TryParse` always writes its `out` argument, so the initial 30 is overwritten, with 0 when the setting is missing or not a number. A setting that is missing, not a number, or gives an interval of zero or less makes `new Timer` throw `ArgumentException` in `InitializeSecond`, which then escapes `InitializeRestart`, `Boot` and the handler that called it. The model assumes the timer is always created.
- The `Enabled` setter of `System.Timers.Timer` is modelled by its effect: it stores the new value, then throws `ObjectDisposedException` when the timer is disposed and the value changed. The timer's thread-pool callback is not modelled.
- `Hosting.KernelBootstrapper.Boot`: `AppDomain.CreateDomain`, setting `RebootDelegate` across the domain boundary, and `Log.TraceEvent` are assumed not to throw, and so is the creation of the restart timer (see the interval line above). Only the engine's creation, the configuration load, `Run` and enabling the timer are modelled as throwing.
- The callbacks of the bootstrapper (domain unload, timer elapsed) are methods the environment calls one at a time. Their concurrency with each other and with `Dispose` is not modelled.
- `InitializeLifetimeService`, the `MarshalByRefObject` remoting lifetime, is not modelled.
- Turbine.cs is not part of this model: the engine is an oracle that is created or not, and whose `Run` throws or not.
- `LaunchProcessCommandWin32Helper` derives from `Win32Helper`, which is not part of this model, so what its constructor argument `1` means is not modelled. The helper is disposed by `using` in `LaunchProcessCommand.Run`; that disposal is not modelled.
- The `ShellExecute` import and the unused native declarations of the helper are not modelled.

## Findings

| source | as written | input that shows it | evidently intended | confidence | as-written member | corrected member |
|---|---|---|---|---|---|---|
| AmbientReportCommand.cs:154 | `string.Format("...exception:\n{1}", ex.ToString())` names format item 1 with only one argument, so it throws `FormatException` inside the `catch`, and `Run` stops with the state left `Running` | `HNetCfg.FwMgr` cannot be created on a pre-Vista host | log the exception with `{0}`, and return null so the message reports "Windows firewall state cannot be determined." | high; not executed | AmbientReport.ManagerSettingsAsWritten | AmbientReport.CorrectedFirewallFailures |
| AmbientReportCommand.cs:194 | the same `{1}` with one argument, when the firewall policy cannot be created | `HNetCfg.FwPolicy2` cannot be created on Vista or later | log with `{0}` and return null | high; not executed | AmbientReport.PolicySettingsAsWritten | AmbientReport.CorrectedFirewallFailures |
| AmbientReportCommand.cs:204 | `string.Format("Inconclusive Windows firewall profile type: {1}", currentProfile)` throws for the inconclusive profile type | `CurrentProfileTypes` is `NET_FW_PROFILE2_ALL` | log with `{0}` and return null | high; not executed | AmbientReport.InconclusiveProfileStopsRun | AmbientReport.CorrectedFirewallFailures |
| KernelBootstrapper.cs:45-51 | `DisposeRestartSecond` disposes the timer but keeps the reference, so a later `InitializeRestart` does not create a new one and sets `Enabled` on the disposed timer, which throws `ObjectDisposedException` out of `Boot` and the handler that called it | a boot that starts the engine, then `Reboot`, then an unload notification whose boot gets no engine | clear the reference after disposal, so that the next restart creates a new timer | high; not executed | Hosting.DisposedTimerRearmed | Hosting.CorrectedTimerRearmed |
