# os-service, modelled in Dafny

A model of the service lifecycle manager of the Node.js package `os-service`.
The manager registers a Node.js program as an operating-system service, removes
that registration, and lets the running program notice a stop request. The model
covers two files:

- **`index.js`**: `add`, `remove`, `run`, `stop`, `isStopRequested` and
  `runProcess`. On POSIX hosts, `add` renders an LSB init script or a systemd
  unit from a template. It writes that file and registers it with `chkconfig`,
  `update-rc.d` or `systemctl`. `remove` does the reverse.
- **`src/service.cc`**: the native Windows addon. It holds the status record
  reported to the service control manager, the control handler and the stop
  flag. It also guards `Run` and `Stop`, and validates the arguments of `Add`
  and `Remove`, releasing every service-manager handle it opens.

Modules, leaves first:

| file | module | what it holds |
|---|---|---|
| `wrappers.dfy` | `Wrappers` | `Option` |
| `strings.dfy` | `Strings` | JavaScript's `indexOf` and `replace` (with `$` patterns), `join`, `split`, decimal numerals |
| `templates.dfy` | `Templates` | the two templates, line by line, as text and placeholders |
| `render.dfy` | `Render` | the per-line replacement chain and what it computes |
| `options.dfy` | `Options` | defaults, argument quoting, dependencies, run levels, paths, substitution tables |
| `host.dfy` | `Installer` | `runProcess` and the POSIX `add`/`remove` flows, as functions and as callback chains on a `Host` class |
| `native.dfy` | `Native` | the addon: `set_status`, `handler`, `IsStopRequested`, `Run`, `Stop`, `Add`, `Remove`, as a `NativeService` class |
| `service.dfy` | `OsService` | the module state of `index.js` and its exported functions, as a `ServiceModule` class |

How each external call turns out is a parameter rather than something the model
performs:

- **POSIX calls** are described by `Installer.Env`: `fs.stat`, `fs.writeFile`
  (with how much of the file a failed write leaves), `fs.unlink`, and how each
  spawned tool ends. A tool `Env` does not list is not
  installed.
- **Win32 calls** are described by `OsService.Win32Env`: whether `require`
  loads the addon, then `OpenSCManager`, `CreateService`, `OpenService`,
  `DeleteService` and `CreateThread`.
- **`process.execPath` and `process.argv[1]`** are `Options.ProcessInfo`.
- **`os.platform()`** is a string.

Where the module's documentation and its code differ, the model follows the
code:

- **Re-entrant expansion.** Replacements run in table order. A value that
  contains the placeholder of a later token is expanded again
  (`Render.LaterTokenInValueExpands`).
- **Missing files on `remove`.** `remove` fails when both the init script and
  the unit file are missing, even after a successful deregistration
  (`Installer.RemoveBothMissing`).
- **File mode.** Control files are written with mode 493 (`rwxr-xr-x`), so
  others may read and run them.
- **Exit code reported on Windows.** `stop(rcode)` calls the addon's `stop`
  with a single argument, and the addon reads an exit code only when given more
  than one. The service therefore always reports exit code 0, while the process
  exits with `rcode || 0` (`Native.StopSingleArgument`,
  `OsService.ServiceModule.Stop`).
- **Polling never stops.** The Windows poll installed by `run` keeps running
  after a stop request; each stop control is seen by one poll only
  (`OsService.StopSeenOnce`).
- **Error messages.** Their spelling is kept as written:
  - `"update-rd.d failed: "` on `add`;
  - the message `"Name argument must be a string"` for a bad path in `Add`
    and for a bad exit code in `Stop`;
  - `"Two arguments are required"` although `Add` needs three.

## Model

| member | source | states |
|---|---|---|
| Strings.IndexOf | index.js:277-284 | the index `replace` works at: -1 exactly when the pattern does not occur, otherwise the first occurrence |
| Strings.IndexOfIsFirst | index.js:277-284 | an occurrence with none before it is the index found |
| Strings.ReplaceFirstAbsent | index.js:277-284 | `line.replace(p, v)` leaves a line without `p` unchanged |
| Strings.ReplaceFirstAt | index.js:277-284 | a `$`-free value replaces the first occurrence, and only it |
| Strings.ReplaceFirstVerbatim | index.js:277-284 | JavaScript's `replace` equals literal insertion for values without `$` |
| Strings.ReplaceFirstMatchPattern | index.js:277-284 | replacing with `"$&"` puts the matched placeholder back, leaving the line unchanged |
| Strings.ReplaceVerbatim | index.js:277-284 | literal replacement: text before the first occurrence, the value, then the text after it |
| Strings.SplitJoin | index.js:289 | lines joined with a character none of them holds split back into the same lines |
| Strings.SplitJoinThen | index.js:230-232 | a join followed by the separator splits into the parts, then the parts of what follows |
| Strings.JoinAvoids | index.js:289 | a join holds no character that neither the parts nor the separator hold |
| Strings.DecimalNat | index.js:172 | the exit code in a failure message is a non-empty string of decimal digits: `"0"` for zero, otherwise with no leading zero |
| Strings.DecimalNatValue | index.js:172 | the numeral reads back, digit by digit, as the number it was made from |
| Templates.TokenName | index.js:14-158 | each placeholder word starts with an upper-case letter and holds only upper-case letters and `_` |
| Templates.TokenNameInjective | index.js:14-158 | distinct tokens have distinct placeholders |
| Render.RenderedLines | index.js:274-287 | one rendered line per template line |
| Render.RenderTemplate | index.js:274-289 | the rendering loop returns the rendered lines joined with `"\n"` |
| Render.RenderLineFilled | index.js:277-284 | for a table without repeated tokens and values without placeholder starts, the chain replaces each bound placeholder by its value and changes nothing else |
| Render.RenderLineInert | index.js:277-284 | a line without placeholder starts is unchanged |
| Render.RenderLineComplete | index.js:277-284 | when the table binds every token of the line, no placeholder remains |
| Render.RenderedTextComplete | index.js:274-289 | a rendered text whose table binds every token of the template holds no placeholder |
| Render.RenderedTextLines | index.js:286-289 | with values free of line breaks, the text splits back into exactly the rendered lines, one per template line |
| Render.LaterTokenInValueExpands | index.js:277-284 | a value holding a later token's placeholder is expanded again |
| Render.RenderLineAsWrittenAgrees | index.js:277-284 | the chain as written with `replace` and the literal chain agree when no value holds `$` |
| Render.RenderedTextAsWrittenAgrees | index.js:274-289 | when no value holds `$`, the text rendered with `replace` is the text of the literal chain |
| Render.AsWrittenKeepsPlaceholder | index.js:277 | a value `"$&"` leaves the placeholder in the line as written, while literal replacement removes it |
| Render.AsWrittenKept | index.js:277 | the as-written half of the finding, for a chosen slot |
| Render.LiteralReplaced | index.js:277 | the corrected half of the finding: literal replacement of `"$&"` removes the placeholder |
| Render.ReplaceWhole | index.js:277-284 | a line that is just a placeholder renders to the value |
| Render.RenderLineAvoids | index.js:277-289 | a character absent from the line and every value is absent from the rendered line |
| Options.StringOr | index.js:195-201 | `options.x` is taken when it is a non-empty string, otherwise the fallback; the result is empty only if both are |
| Options.Credential | index.js:203-204 | `options.username \|\| null`: present exactly when a non-empty string is given |
| Options.DefaultsOfNoOptions | index.js:189-204 | with `{}` or `null` options every setting takes its default: the running executable and script, the name, no credentials, run levels 2 3 4 5, `multi-user.target`, no arguments |
| Options.ChosenNonEmpty | index.js:207-209 | the display name and the systemd target are never empty for a non-empty name |
| Options.Quote | index.js:226 | a quoted argument is the argument between two double quotes |
| Options.QuoteArgs | index.js:242-250 | the POSIX quoting loop yields each argument of a present list quoted, in order, and none for an absent list |
| Options.ServiceCommandLine | index.js:211-228 | the Windows command line is the quoted node path, node arguments, program path and program arguments, joined with spaces |
| Options.PushAll | index.js:215-223 | pushing a present list appends it, in order; an absent one appends nothing |
| Options.QuoteInPlace | index.js:225-226 | quoting in place turns each element into its quoted form |
| Options.ParseQuotedJoin | index.js:225-228 | a command line built from arguments without `"` reads back as the same list in order |
| Options.QuotedParts | index.js:225-228 | splitting a quoted command line at `"` puts the i-th argument at position 2i+1 |
| Options.PosixDependencies | index.js:259-261 | without a dependency list the substituted value is empty |
| Options.PosixDependenciesSplit | index.js:259-261 | names without spaces, joined with spaces, split back into the same names |
| Options.WindowsDependencies | index.js:230-232 | reading the dependencies throws exactly for `null` options; an absent list gives `""`; a present one ends in two NULs |
| Options.WindowsDependenciesRoundTrip | index.js:230-232 | the double-NUL string reads back, as a multi-string, as exactly the names given |
| Options.NamesBeforeEmptyPrefix | index.js:230-232 | reading a multi-string keeps every non-empty name before the first empty one |
| Options.DefaultLevelStrings | index.js:252-254 | the default run levels give `"2 3 4 5"` and `"2345"` |
| Options.LevelsSpacedSplit | index.js:282 | the spaced run levels split back into their numerals |
| Options.LevelsPackedDigits | index.js:283 | one-digit run levels concatenate to exactly one digit each |
| Options.LevelsPlain | index.js:282-283 | run-level strings hold no `#`, no line break and no `$` |
| Options.UnitPathsAgree | index.js:264 | `remove` targets exactly the unit file `add` writes |
| Options.PathsInjective | index.js:263-264 | distinct names give distinct init scripts and distinct unit files, and an init script is never a unit file |
| Options.PosixSettings | index.js:242-261 | the POSIX settings: the chosen paths, the quoted argument lists joined with spaces, the run levels, the dependencies and the target |
| Options.LookupListed | index.js:277-284 | a table binds exactly the tokens it lists |
| Options.InitTableSound | index.js:277-284 | the init table has no repeated token and binds every token except the systemd target |
| Options.UnitTableSound | index.js:327-333 | the unit table has no repeated token and binds every token except the two run-level ones |
| Options.HashFreeNoMarker | index.js:277-284 | a value without `#` holds no placeholder start |
| Options.InitScriptComplete | index.js:274-289 | a rendered init script holds no placeholder when the settings hold no placeholder start |
| Options.UnitComplete | index.js:324-338 | a rendered unit holds no placeholder when the settings hold no placeholder start |
| Options.InitScriptLines | index.js:286-289 | with single-line settings, the init script has exactly as many lines as its template |
| Options.UnitLines | index.js:335-338 | with single-line settings, the unit has exactly as many lines as its template |
| Installer.ProcessError | index.js:167-187 | no error exactly for exit code 0; a not-found (`ENOENT`) error exactly when spawning failed with `ENOENT` |
| Installer.ExitCodeReported | index.js:171-174 | a non-zero exit fails with `"<tool> failed: <code>"` and the code attached, never as `ENOENT` |
| Installer.Prefixed | index.js:300 | a prefixed error is present exactly when the underlying one is |
| Installer.InitTextAsWritten | index.js:274-289 | when no setting holds `$`, the init script index.js renders is exactly `InitText` |
| Installer.UnitTextAsWritten | index.js:324-338 | when no setting holds `$`, the unit index.js renders is exactly `UnitText` |
| Installer.AddProbeFailure | index.js:314-316 | a failed probe other than `ENOENT` ends `add` after the probe, with the `stat` message and nothing written |
| Installer.AddWritesArtifact | index.js:269-291 | the probe comes first; then the unit file is written when the directory exists, the init script when it is missing |
| Installer.AddWriteFailure | index.js:291-293 | a failed write runs no tool and fails; no other file changes, and the control file is as it was when it could not be opened, otherwise it holds the start of its text |
| Installer.AddFallback | index.js:295-300 | `update-rc.d` runs exactly when there is no systemd, the script was written and `chkconfig` could not be spawned for lack of the executable |
| Installer.AddChkconfigExit | index.js:295-307 | a `chkconfig` that exits non-zero fails `add` with `"chkconfig failed: "` put before the `runProcess` message `"chkconfig failed: <code>"`, so the prefix appears twice |
| Installer.AddUpdateRcFailure | index.js:298-300 | a failing `update-rc.d` is reported with the prefix `"update-rd.d failed: "` |
| Installer.AddSuccess | index.js:263-354 | a successful `add` has written exactly one control file: the unit file on a systemd host, else the init script |
| Installer.DeregisterSucceeds | index.js:397-429 | deregistration succeeds exactly when the service manager accepts it, and it unlinks nothing |
| Installer.DeregistrationFirst | index.js:397-429 | files are unlinked exactly when deregistration succeeded; otherwise both files stay and `remove` fails |
| Installer.RemoveFilesOrder | index.js:377-395 | the unit file is tried only after unlinking the init script failed with `ENOENT`, and right after it |
| Installer.UnlinkOrder | index.js:377-395 | in the whole `remove`, the unit file is unlinked only after the init script turned out missing, and right after it |
| Installer.RemoveBothMissing | index.js:381-383 | with both files missing, `remove` fails with the `unlink` error of the unit file and changes nothing |
| Installer.RemoveSuccess | index.js:372-430 | a successful `remove` was deregistered and deletes exactly one file: the init script if present, else the unit file |
| Installer.AddThenRemoveUnit | index.js:263-430 | on a systemd host where every call succeeds, `remove` deletes the unit file `add` wrote |
| Installer.AddThenRemoveInit | index.js:263-430 | without systemd, where every call succeeds, `remove` deletes the init script `add` wrote |
| Installer.Host.StatDir | index.js:269 | a probe is logged and answered from the environment |
| Installer.Host.WriteFile | index.js:291 | a write is logged and touches only its path; on success the file holds the text, on failure it is as it was or holds the part written |
| Installer.Host.Unlink | index.js:378 | an unlink is logged; a missing file fails with `ENOENT`; on success the file is gone |
| Installer.Host.Spawn | index.js:168 | a spawn is logged and ends as the environment says |
| Installer.RunProcess | index.js:167-187 | the callback of `runProcess` receives `ProcessError` for the tool's end, after one logged spawn |
| Installer.RegisterInit | index.js:295-311 | the registration chain takes the steps and ends with the error `Register` specifies |
| Installer.EnableUnit | index.js:344-350 | `systemctl enable` takes the step and ends with the error `Enable` specifies |
| Installer.Install | index.js:291-313 | writing then registering takes the steps, leaves the files and ends with the error `Installed` specifies |
| Installer.AddPosix | index.js:263-354 | the POSIX `add` callback chain takes exactly the steps, leaves exactly the files and reports exactly the error `AddSpec` specifies |
| Installer.RemoveCtlPaths | index.js:377-395 | `removeCtlPaths` takes the steps, leaves the files and reports the error `RemoveFiles` specifies |
| Installer.DeregisterService | index.js:397-429 | the deregistration chain takes the steps and ends with the error `Deregister` specifies |
| Installer.RemovePosix | index.js:372-430 | the POSIX `remove` callback chain takes exactly the steps, leaves exactly the files and reports exactly the error `RemoveSpec` specifies |
| Native.StatusRecord | src/service.cc:39-52 | an own-process service accepting stop and shutdown, the given state, wait hint 10000; a service-specific code forces `ERROR_SERVICE_SPECIFIC_ERROR` |
| Native.StatusSuccess | src/service.cc:47-50 | the reported Win32 exit code is `NO_ERROR` exactly when both codes are 0 |
| Native.AddArgsAccepted | src/service.cc:137-162 | `Add` proceeds exactly when its first three arguments are strings; with three or more arguments any refusal is a `TypeError` |
| Native.RemoveArgsAccepted | src/service.cc:205-216 | `Remove` proceeds exactly when its first argument is a string |
| Native.StopSingleArgument | src/service.cc:280-288 | with one argument `Stop` reports exit code 0; with two it reads a uint32 first argument and throws for any other |
| Native.NativeService.constructor | src/service.cc:15-24 | the addon starts uninitialised, with no stop requested and nothing reported |
| Native.NativeService.SetStatus | src/service.cc:39-59 | one status record is reported |
| Native.NativeService.Handler | src/service.cc:61-73 | a stop or shutdown control reports a pending stop and sets the flag; any other control changes nothing |
| Native.NativeService.IsStopRequested | src/service.cc:191-200 | the flag is returned and cleared |
| Native.NativeService.ServiceMain | src/service.cc:75-86 | a failed handler registration reports a stop with the system error; otherwise the service reports that it runs |
| Native.NativeService.Run | src/service.cc:251-272 | nothing once initialised; a failed thread creation throws and leaves the addon uninitialised; otherwise it initialises |
| Native.NativeService.Stop | src/service.cc:274-297 | nothing unless initialised; a bad exit code throws before any report; otherwise a pending stop, the release of the service main, and a stop with the exit code |
| Native.NativeService.OpenHandle | src/service.cc:164-175 | a new handle is opened and the call logged |
| Native.NativeService.CloseServiceHandle | src/service.cc:185-186 | the handle is closed and the call logged |
| Native.NativeService.Add | src/service.cc:134-189 | bad arguments throw before any service-manager call; every handle opened is closed; the exact error of each failing call; installed exactly when both calls succeed |
| Native.NativeService.Remove | src/service.cc:202-249 | the same for `Remove`: uninstalled exactly when opening the manager, opening the service and deleting it all succeed |
| Native.StopRequestReadOnce | src/service.cc:61-73 | after a stop control, the first read of the flag is true and the second false |
| Native.RunTwice | src/service.cc:254-255 | a second `Run` does nothing, whatever thread creation would do |
| OsService.Listeners | index.js:434-449 | the 2000 ms poll is installed exactly on Windows and the `SIGINT` and `SIGTERM` handlers exactly elsewhere; nothing else is installed and nothing twice |
| OsService.HostReply | index.js:291-311 | the callback gets an error exactly when the flow ended with one |
| OsService.NativeReply | index.js:234-240 | the callback gets an error exactly when loading the addon or the addon's call threw |
| OsService.CredentialValue | index.js:203-204 | a credential reaches the addon as the given string, or `null` when none is given |
| OsService.ExitStatus | index.js:463 | `rcode \|\| 0`: the exit status is truthy exactly when the code is, is then that code, and is otherwise 0 |
| OsService.ServiceModule.constructor | index.js:7-8 | at load no addon is loaded, `run` has not run, and nothing is listening |
| OsService.ServiceModule.GetServiceWrap | index.js:161-165 | the addon is loaded on the first call and the same one returned afterwards; a failed `require` caches nothing and throws |
| OsService.ServiceModule.Run | index.js:433-457 | listeners are installed on the first call only; on Windows each call loads the addon, throwing if it cannot, and runs its `Run`, reporting its outcome; the addon kept is the cached one or a fresh one, and its stop flag, services and reports stay |
| OsService.ServiceModule.IsStopRequested | index.js:360-362 | the addon's flag is returned and cleared, or the load failure thrown; the addon kept is the cached one or a fresh one, and its run state, services and reports stay |
| OsService.ServiceModule.Stop | index.js:459-464 | the process exits with `rcode \|\| 0` unless the addon fails to load, which throws; on Windows a running service reports a pending stop, then a stop with code 0; the addon kept is the cached one or a fresh one, and its run state, stop flag and services stay |
| OsService.ServiceModule.AddWindows | index.js:206-240 | `null` options throw a `TypeError` before the addon is loaded; otherwise a load failure or an addon error reaches the callback, and the service is created under the display name with the quoted command line; the addon kept is the cached one or a fresh one, and its run state, stop flag and reports stay |
| OsService.ServiceModule.AddPosix | index.js:241-355 | the POSIX branch does what `AddSpec` says for the settings the options give |
| OsService.ServiceModule.Add | index.js:189-358 | on Windows it throws exactly for `null` options and installs exactly when the addon loads and the service manager accepts, a load failure reaching the callback; elsewhere it does what `AddSpec` says; the addon kept is the cached one or a fresh one, and its run state, stop flag and reports stay |
| OsService.ServiceModule.Remove | index.js:364-431 | on Windows it uninstalls exactly when the addon loads and the service manager accepts, a load failure reaching the callback; elsewhere it does what `RemoveSpec` says; the addon kept is the cached one or a fresh one, and its run state, stop flag and reports stay |
| OsService.Load | index.js:10-159 | the loaded module holds the two templates, with nothing run and no addon loaded |
| OsService.StopSeenOnce | index.js:436-440 | on Windows a stop control is seen by the next poll and not by the one after |
| OsService.RunPollStop | index.js:433-464 | on Windows, `run`, a stop control, the poll that sees it and `stop` end with a pending stop and a stop with code 0 reported, and the process exiting with `rcode \|\| 0` |

## Left out

- Render.RenderTemplate, Installer.AddPosix, OsService.ServiceModule.AddPosix, OsService.ServiceModule.Add: values are inserted literally. This is the corrected rendering of the Findings row. For a setting holding `$$`, `$&`, `` $` `` or `$'`, the file these members are proved to write differs from the one index.js writes with `replace`. `Installer.InitTextAsWritten` and `Installer.UnitTextAsWritten` prove that the two texts are equal whenever no setting holds `$`.
- OsService.NativeReply, OsService.ServiceModule.AddWindows, OsService.ServiceModule.Remove: the callback is assumed not to throw. `cb()` is called inside the `try` of index.js lines 234-240 and 366-371, so a callback that throws is called a second time, with its own error; callbacks are caller code, which is not part of this model.
- **Unlink outcomes:** in `Installer.Env`, one `unlink` outcome stands for every existing file, so the init script and the unit file cannot fail to unlink in different ways.
- **File system and processes:** real I/O, the child process and timers are left out. How each call ends is a parameter, and each callback chain runs to completion in one step.
- **Double callback in `runProcess`:** when a child emits both `error` and `exit`, `runProcess` calls back twice. The model takes one end per spawn.
- **`run_thread`:** its busy-wait and sleep loops (src/service.cc lines 88-109) are left out, and so is the wait on `stop_service` in the service main function. `stop_service` is a flag that `Stop` sets.
- **Mutexes and threads** in src/service.cc are left out. The model runs each call atomically.
- **System error text:** `raw_strerror` is a failure reason passed in with each failing Win32 call.
- **Native `Add` arguments:** it ignores the credentials and dependencies it is passed (src/service.cc passes 0 to `CreateService` for them). The model records that they are passed and does not use them.
- **Signals and stream redirection:** signal delivery is left out; the model records which listeners `run` installs. Stream redirection is not part of this model.
- **The init script's shell semantics** (start/stop/status loops) are not modelled. The template is text.
- **Node's `ENOENT` messages** are assumed to have the form `"ENOENT: no such file or directory, unlink '<path>'"` and `"spawn <cmd> ENOENT"`.
- Options.PosixDependencies: states only the absent case. The present case is the space join, stated by `PosixDependenciesSplit` for names without spaces.
- Options.PosixSettings: run levels are natural numbers. Negative or fractional numbers in `options.runLevels` are not modelled.
- Native.StopSingleArgument: `IsUint32` is modelled on integers only. JavaScript numbers with a fraction are not modelled.
- **Option types:** options are typed. A string option holding a non-string JavaScript value, or an argument list that is not an array, is not modelled.

## Findings

| source | as written | input that shows it | evidently intended | confidence | as-written member | corrected member |
|---|---|---|---|---|---|---|
| index.js:277-284 | each substitution uses `String.prototype.replace` with the value as the replacement string, so `$&`, `$$`, `` $` `` and `$'` in a value are read as patterns | a service name `"$&"`: `"##NAME##".replace("##NAME##", "$&")` yields `"##NAME##"`, so the placeholder stays in the rendered script | the value inserted literally | high (not executed) | Render.AsWrittenKeepsPlaceholder | Render.LiteralReplaced |
