/**
  * The POSIX branches of `add` and `remove` in index.js (lines 263-354 and
  * 373-430) and `runProcess` (lines 167-187), over an abstract host.
  *
  * The host is a map from paths to file contents together with `Env`, which
  * says how each call the installer makes turns out: whether `fs.stat` of
  * the systemd unit directory succeeds, whether `fs.writeFile` succeeds
  * and, when it fails, how much of the file it wrote, how `fs.unlink` of an existing file turns out, and how each tool ends
  * when spawned. A tool `Env` does not list is not installed, so spawning
  * it fails with `ENOENT`; unlinking a file that does not exist fails with
  * `ENOENT` too.
  *
  * `AddSpec` and `RemoveSpec` state, as functions of the host, the steps
  * each flow takes, the files it leaves and the error it reports; the
  * methods `AddPosix` and `RemovePosix` run the callback chains step by
  * step against a `Host` and are proved to agree with them.
  */
module Installer {
  import opened Strings
  import opened Wrappers
  import opened Templates
  import opened Render
  import opened Options

  /** A Node.js system error: its `code` (such as `"ENOENT"`) and its message. */
  datatype Fault = Fault(code: string, message: string)

  /** How a spawned tool ends: with an exit code, by a signal (exit code null), or not at all. */
  datatype Spawned = Exited(status: nat) | Signalled | SpawnFailed(fault: Fault)

  /** The `code` property of an error passed to a callback. */
  datatype ErrorCode = NoCode | NullCode | NumberCode(n: int) | NameCode(name: string)

  /** A JavaScript `Error` passed to a callback. */
  datatype Error = Error(message: string, code: ErrorCode)

  /** `error.code == "ENOENT"`: an exit code, a number, never compares equal to it. */
  predicate NotFoundError(e: Error) {
    e.code == NameCode("ENOENT")
  }

  /** Node.js's error for a call on a path that does not exist. */
  function Missing(syscall: string, path: string): Fault {
    Fault("ENOENT", "ENOENT: no such file or directory, " + syscall + " '" + path + "'")
  }

  /**
    * How `fs.writeFile` fails: its error, and how far it got. `written`
    * is `None` when the file could not be opened, so the path is as it
    * was; it is `Some(k)` when the file was opened, which creates or
    * truncates it, and then `k` characters were written before the
    * failure, so a half-written file is left at the path.
    */
  datatype WriteFailure = WriteFailure(fault: Fault, written: Option<nat>)

  /** The text a failed write leaves at its path: the part of `text` written before the failure. */
  function Leftover(text: string, written: nat): (r: string)
    ensures r <= text
  {
    text[..if written < |text| then written else |text|]
  }

  /** The files after a failed write of `text` to `path`. */
  function AfterFailedWrite(files: map<string, string>, path: string, text: string, w: WriteFailure): map<string, string> {
    if w.written.None? then files else files[path := Leftover(text, w.written.value)]
  }

  /**
    * What the host does with each call the installer makes. One outcome
    * stands for every `fs.unlink` of an existing file, so the init script
    * and the unit file cannot fail to unlink in different ways; a missing
    * file always fails with `ENOENT` (`UnlinkFault`). This is a deliberate
    * simplification.
    */
  datatype Env = Env(
    stat: Option<Fault>,
    write: Option<WriteFailure>,
    unlink: Option<Fault>,
    tools: map<string, Spawned>)

  /** How spawning `cmd` ends. */
  function ToolRun(env: Env, cmd: string): Spawned {
    if cmd in env.tools then env.tools[cmd] else SpawnFailed(Fault("ENOENT", "spawn " + cmd + " ENOENT"))
  }

  /** How unlinking `path` turns out: a missing file fails with `ENOENT`. */
  function UnlinkFault(env: Env, files: map<string, string>, path: string): Option<Fault> {
    if path !in files then Some(Missing("unlink", path)) else env.unlink
  }

  /** One call the installer makes on the host. */
  datatype Action =
    | Stat(path: string)
    | WriteFile(path: string, text: string, mode: nat)
    | Spawn(cmd: string, args: seq<string>)
    | Unlink(path: string)

  /** The mode the control files are written with: `rwxr-xr-x`. */
  const ControlFileMode: nat := 493

  /**
    * The error `runProcess` passes on for a tool that ran (index.js lines
    * 167-187): a non-zero or null exit code fails with the code attached;
    * a spawn error is passed on as it is.
    */
  function ProcessError(path: string, outcome: Spawned): (err: Option<Error>)
    ensures err.None? <==> outcome == Exited(0)
    ensures err.Some? && NotFoundError(err.value) <==> outcome.SpawnFailed? && outcome.fault.code == "ENOENT"
  {
    match outcome
    case Exited(status) =>
      if status != 0 then Some(Error(path + " failed: " + Decimal(status), NumberCode(status))) else None
    case Signalled => Some(Error(path + " failed: null", NullCode))
    case SpawnFailed(fault) => Some(Error(fault.message, NameCode(fault.code)))
  }

  /** A tool that ran and exited non-zero reports its exit code, in the message and as `code`. */
  lemma ExitCodeReported(path: string, status: nat)
    requires status != 0
    ensures ProcessError(path, Exited(status)) == Some(Error(path + " failed: " + Decimal(status), NumberCode(status)))
    ensures !NotFoundError(ProcessError(path, Exited(status)).value)
  {
  }

  /** `new Error(prefix + error.message)` for a failed step, or no error. */
  function Prefixed(prefix: string, err: Option<Error>): (r: Option<Error>)
    ensures r.None? <==> err.None?
  {
    if err.None? then None else Some(Error(prefix + err.value.message, NoCode))
  }

  /** The steps a flow takes, the files it leaves and the error it reports. */
  datatype Outcome = Outcome(steps: seq<Action>, files: map<string, string>, err: Option<Error>)

  /** The init script `template` rendered for the given settings. */
  function InitText(template: seq<Line>, s: Settings): string {
    Join(RenderedLines(template, InitTable(s)), "\n")
  }

  /** The systemd unit `template` rendered for the given settings. */
  function UnitText(template: seq<Line>, s: Settings): string {
    Join(RenderedLines(template, UnitTable(s)), "\n")
  }

  /**
    * `InitText` inserts the values literally. The script index.js renders
    * with `replace` is the same text whenever no setting holds a `$`.
    */
  lemma InitTextAsWritten(template: seq<Line>, s: Settings)
    requires DollarFreeSettings(s)
    ensures Join(RenderedLinesAsWritten(template, InitTable(s)), "\n") == InitText(template, s)
  {
    LevelsPlain(s.runLevels, '$');
    RenderedTextAsWrittenAgrees(template, InitTable(s));
  }

  /** The same for the systemd unit. */
  lemma UnitTextAsWritten(template: seq<Line>, s: Settings)
    requires DollarFreeSettings(s)
    ensures Join(RenderedLinesAsWritten(template, UnitTable(s)), "\n") == UnitText(template, s)
  {
    RenderedTextAsWrittenAgrees(template, UnitTable(s));
  }

  /** Steps taken and the error they end with, if any. */
  datatype Stage = Stage(steps: seq<Action>, err: Option<Error>)

  // ----- add -----

  /**
    * The POSIX branch of `add` (index.js lines 263-354): the systemd unit
    * directory is probed; if it exists the unit is written and enabled
    * with `systemctl`; if it is missing the init script is written and
    * registered with `chkconfig`, falling back to `update-rc.d` when
    * `chkconfig` is not installed; any other failure of the probe ends
    * the call.
    */
  function AddSpec(env: Env, files: map<string, string>, name: string, initText: string, unitText: string): Outcome {
    var probe := [Stat(SystemDir)];
    match env.stat
    case Some(f) =>
      if f.code == "ENOENT" then Installed(env, files, probe, InitPath(name), initText, Register(env, name))
      else Outcome(probe, files, Some(Error("stat(/usr/lib/systemd/system) failed: " + f.message, NoCode)))
    case None => Installed(env, files, probe, UnitPath(name), unitText, Enable(env, name))
  }

  /** A control file is written after the steps `done`; only once it is written does `register` run. */
  function Installed(env: Env, files: map<string, string>, done: seq<Action>, path: string, text: string,
                     register: Stage): Outcome {
    var write := done + [WriteFile(path, text, ControlFileMode)];
    match env.write
    case Some(w) =>
      Outcome(write, AfterFailedWrite(files, path, text, w), Some(Error("writeFile(" + path + ") failed: " + w.fault.message, NoCode)))
    case None => Outcome(write + register.steps, files[path := text], register.err)
  }

  /**
    * Registration of an init script (index.js lines 295-311):
    * `chkconfig --add`, and `update-rc.d defaults` when `chkconfig` cannot
    * be spawned because it is not installed.
    */
  function Register(env: Env, name: string): Stage {
    var chk := [Spawn("chkconfig", ["--add", name])];
    match ProcessError("chkconfig", ToolRun(env, "chkconfig"))
    case None => Stage(chk, None)
    case Some(e) =>
      if NotFoundError(e) then
        Stage(chk + [Spawn("update-rc.d", [name, "defaults"])],
              Prefixed("update-rd.d failed: ", ProcessError("update-rc.d", ToolRun(env, "update-rc.d"))))
      else Stage(chk, Some(Error("chkconfig failed: " + e.message, NoCode)))
  }

  /** Registration of a unit (index.js lines 344-350): `systemctl enable`. */
  function Enable(env: Env, name: string): Stage {
    Stage([Spawn("systemctl", ["enable", name])],
          Prefixed("systemctl failed: ", ProcessError("systemctl", ToolRun(env, "systemctl"))))
  }

  /** The systemd unit directory is present. */
  predicate HasSystemd(env: Env) {
    env.stat.None?
  }

  /** The systemd unit directory is missing. */
  predicate LacksSystemd(env: Env) {
    env.stat.Some? && env.stat.value.code == "ENOENT"
  }

  /** Any other failure to probe the directory writes nothing and runs nothing. */
  lemma AddProbeFailure(env: Env, files: map<string, string>, name: string, initText: string, unitText: string)
    requires !HasSystemd(env) && !LacksSystemd(env)
    ensures AddSpec(env, files, name, initText, unitText)
      == Outcome([Stat(SystemDir)], files, Some(Error("stat(/usr/lib/systemd/system) failed: " + env.stat.value.message, NoCode)))
  {
  }

  /** The flow writes the unit file when the directory is present, and the init script when it is missing. */
  lemma AddWritesArtifact(env: Env, files: map<string, string>, name: string, initText: string, unitText: string)
    requires HasSystemd(env) || LacksSystemd(env)
    ensures var o := AddSpec(env, files, name, initText, unitText);
      |o.steps| >= 2 && o.steps[0] == Stat(SystemDir)
      && o.steps[1] == (if HasSystemd(env) then WriteFile(UnitPath(name), unitText, ControlFileMode)
                        else WriteFile(InitPath(name), initText, ControlFileMode))
  {
  }

  /**
    * A write failure runs no tool and fails. No file but the control file
    * changes; that one is as it was when the write could not open it, and
    * otherwise holds the start of its text: no rollback is attempted.
    */
  lemma AddWriteFailure(env: Env, files: map<string, string>, name: string, initText: string, unitText: string)
    requires env.write.Some?
    ensures var o := AddSpec(env, files, name, initText, unitText);
      o.err.Some? && forall i | 0 <= i < |o.steps| :: !o.steps[i].Spawn?
    ensures var o := AddSpec(env, files, name, initText, unitText);
      var path := if HasSystemd(env) then UnitPath(name) else InitPath(name);
      var text := if HasSystemd(env) then unitText else initText;
      && o.files - {path} == files - {path}
      && (env.write.value.written.None? || !(HasSystemd(env) || LacksSystemd(env)) ==> o.files == files)
      && (env.write.value.written.Some? && (HasSystemd(env) || LacksSystemd(env)) ==>
            path in o.files && o.files[path] <= text)
  {
  }

  /**
    * `update-rc.d` runs exactly when the directory is missing, the init
    * script was written, and spawning `chkconfig` failed with `ENOENT`;
    * a `chkconfig` that ran and exited non-zero is fatal.
    */
  lemma AddFallback(env: Env, files: map<string, string>, name: string, initText: string, unitText: string)
    ensures var o := AddSpec(env, files, name, initText, unitText);
      (Spawn("update-rc.d", [name, "defaults"]) in o.steps)
      <==> LacksSystemd(env) && env.write.None?
           && ToolRun(env, "chkconfig").SpawnFailed? && ToolRun(env, "chkconfig").fault.code == "ENOENT"
  {
    var o := AddSpec(env, files, name, initText, unitText);
    var fallback := Spawn("update-rc.d", [name, "defaults"]);
    if LacksSystemd(env) && env.write.None? && ToolRun(env, "chkconfig").SpawnFailed?
       && ToolRun(env, "chkconfig").fault.code == "ENOENT" {
      assert o.steps[|o.steps| - 1] == fallback;
    } else {
      forall i | 0 <= i < |o.steps|
        ensures o.steps[i] != fallback
      {
      }
    }
  }

  /** A `chkconfig` that exits non-zero fails the flow with its exit code in the message. */
  lemma AddChkconfigExit(env: Env, files: map<string, string>, name: string, initText: string, unitText: string, status: nat)
    requires LacksSystemd(env) && env.write.None? && ToolRun(env, "chkconfig") == Exited(status) && status != 0
    ensures AddSpec(env, files, name, initText, unitText).err
      == Some(Error("chkconfig failed: " + ("chkconfig failed: " + Decimal(status)), NoCode))
  {
    ExitCodeReported("chkconfig", status);
    assert "chkconfig" + " failed: " == "chkconfig failed: ";
  }

  /**
    * A failing `update-rc.d` is reported as `"update-rd.d failed: "`, the
    * spelling of index.js line 300.
    */
  lemma AddUpdateRcFailure(env: Env, files: map<string, string>, name: string, initText: string, unitText: string)
    requires LacksSystemd(env) && env.write.None?
    requires ToolRun(env, "chkconfig").SpawnFailed? && ToolRun(env, "chkconfig").fault.code == "ENOENT"
    requires ProcessError("update-rc.d", ToolRun(env, "update-rc.d")).Some?
    ensures AddSpec(env, files, name, initText, unitText).err
      == Some(Error("update-rd.d failed: " + ProcessError("update-rc.d", ToolRun(env, "update-rc.d")).value.message, NoCode))
  {
  }

  /**
    * A successful `add` has written exactly one control file: the unit
    * file on a systemd host, the init script otherwise.
    */
  lemma AddSuccess(env: Env, files: map<string, string>, name: string, initText: string, unitText: string)
    requires AddSpec(env, files, name, initText, unitText).err.None?
    ensures HasSystemd(env) ==> AddSpec(env, files, name, initText, unitText).files == files[UnitPath(name) := unitText]
    ensures !HasSystemd(env) ==> AddSpec(env, files, name, initText, unitText).files == files[InitPath(name) := initText]
  {
  }

  // ----- remove -----

  /**
    * Deregistration (index.js lines 397-429): with `systemctl disable`
    * when the unit directory exists, otherwise with `chkconfig --del`,
    * falling back to `update-rc.d remove` when `chkconfig` is not
    * installed; any other failure of the probe ends the call.
    */
  function Deregister(env: Env, name: string): Stage {
    var probe := [Stat(SystemDir)];
    match env.stat
    case Some(f) =>
      if f.code == "ENOENT" then
        var chk := probe + [Spawn("chkconfig", ["--del", name])];
        match ProcessError("chkconfig", ToolRun(env, "chkconfig"))
        case None => Stage(chk, None)
        case Some(e) =>
          if NotFoundError(e) then
            Stage(chk + [Spawn("update-rc.d", [name, "remove"])],
                  Prefixed("update-rc.d failed: ", ProcessError("update-rc.d", ToolRun(env, "update-rc.d"))))
          else Stage(chk, Some(Error("chkconfig failed: " + e.message, NoCode)))
      else Stage(probe, Some(Error("stat(" + SystemDir + ") failed: " + f.message, NoCode)))
    case None =>
      Stage(probe + [Spawn("systemctl", ["disable", name])],
            Prefixed("systemctl failed: ", ProcessError("systemctl", ToolRun(env, "systemctl"))))
  }

  /** `removeCtlPaths` (index.js lines 377-395): the init script goes, or, when it is missing, the unit file. */
  function RemoveFiles(env: Env, files: map<string, string>, name: string): Outcome {
    var initPath, unitPath := InitPath(name), UnitPathIn(SystemDir, name);
    match UnlinkFault(env, files, initPath)
    case None => Outcome([Unlink(initPath)], files - {initPath}, None)
    case Some(f) =>
      if f.code == "ENOENT" then
        var both := [Unlink(initPath), Unlink(unitPath)];
        match UnlinkFault(env, files, unitPath)
        case None => Outcome(both, files - {unitPath}, None)
        case Some(g) => Outcome(both, files, Some(Error("unlink(" + unitPath + ") failed: " + g.message, NoCode)))
      else Outcome([Unlink(initPath)], files, Some(Error("unlink(" + initPath + ") failed: " + f.message, NoCode)))
  }

  /** The POSIX branch of `remove` (index.js lines 372-430): deregistration, then removal of the control file. */
  function RemoveSpec(env: Env, files: map<string, string>, name: string): Outcome {
    var d := Deregister(env, name);
    if d.err.Some? then Outcome(d.steps, files, d.err)
    else
      var r := RemoveFiles(env, files, name);
      Outcome(d.steps + r.steps, r.files, r.err)
  }

  /** The service manager has accepted the deregistration. */
  predicate Deregistered(env: Env) {
    || (HasSystemd(env) && ToolRun(env, "systemctl") == Exited(0))
    || (LacksSystemd(env) && ToolRun(env, "chkconfig") == Exited(0))
    || (LacksSystemd(env) && ToolRun(env, "chkconfig").SpawnFailed? && ToolRun(env, "chkconfig").fault.code == "ENOENT"
        && ToolRun(env, "update-rc.d") == Exited(0))
  }

  /**
    * Deregistration succeeds exactly when the service manager accepts it,
    * and unlinks nothing.
    */
  lemma DeregisterSucceeds(env: Env, name: string)
    ensures Deregister(env, name).err.None? <==> Deregistered(env)
    ensures forall i | 0 <= i < |Deregister(env, name).steps| :: !Deregister(env, name).steps[i].Unlink?
  {
  }

  /**
    * Files are unlinked only once the service has been deregistered; when
    * deregistration fails, both files are left untouched and the call
    * fails.
    */
  lemma DeregistrationFirst(env: Env, files: map<string, string>, name: string)
    ensures var o := RemoveSpec(env, files, name);
      (exists i | 0 <= i < |o.steps| :: o.steps[i].Unlink?) <==> Deregistered(env)
    ensures !Deregistered(env) ==> RemoveSpec(env, files, name).files == files && RemoveSpec(env, files, name).err.Some?
  {
    DeregisterSucceeds(env, name);
    var d := Deregister(env, name);
    var o := RemoveSpec(env, files, name);
    if Deregistered(env) {
      assert o.steps[|d.steps|] == Unlink(InitPath(name));
    }
  }

  /** Unlinking the init script failed with `ENOENT`: it is missing. */
  predicate InitScriptMissing(env: Env, files: map<string, string>, name: string) {
    var f := UnlinkFault(env, files, InitPath(name));
    f.Some? && f.value.code == "ENOENT"
  }

  /** `removeCtlPaths` tries the unit file only after the init script turned out to be missing. */
  lemma RemoveFilesOrder(env: Env, files: map<string, string>, name: string)
    ensures var r := RemoveFiles(env, files, name);
      Unlink(UnitPath(name)) in r.steps ==>
        InitScriptMissing(env, files, name) && r.steps == [Unlink(InitPath(name)), Unlink(UnitPath(name))]
  {
    UnitPathsAgree(name);
    PathsInjective(name, name);
  }

  /**
    * The unit file is unlinked only when the init script is missing, and
    * right after the attempt on the init script.
    */
  lemma UnlinkOrder(env: Env, files: map<string, string>, name: string)
    ensures var o := RemoveSpec(env, files, name);
      Unlink(UnitPath(name)) in o.steps ==>
        InitScriptMissing(env, files, name) && |o.steps| >= 2 && o.steps[|o.steps| - 2] == Unlink(InitPath(name))
  {
    DeregisterSucceeds(env, name);
    RemoveFilesOrder(env, files, name);
    var d := Deregister(env, name);
    var r := RemoveFiles(env, files, name);
    var o := RemoveSpec(env, files, name);
    if Unlink(UnitPath(name)) in o.steps {
      var i :| 0 <= i < |o.steps| && o.steps[i] == Unlink(UnitPath(name));
      assert d.err.None? && i >= |d.steps|;
      assert o.steps == d.steps + r.steps;
      assert r.steps[i - |d.steps|] == Unlink(UnitPath(name));
    }
  }

  /** When both control files are missing, `remove` fails, even after a successful deregistration. */
  lemma RemoveBothMissing(env: Env, files: map<string, string>, name: string)
    requires Deregistered(env)
    requires InitPath(name) !in files && UnitPath(name) !in files
    ensures RemoveSpec(env, files, name).files == files
    ensures RemoveSpec(env, files, name).err
      == Some(Error("unlink(" + UnitPath(name) + ") failed: " + Missing("unlink", UnitPath(name)).message, NoCode))
  {
    UnitPathsAgree(name);
    DeregisterSucceeds(env, name);
  }

  /**
    * A successful `remove` deletes exactly one control file: the init
    * script when it exists, otherwise the unit file.
    */
  lemma RemoveSuccess(env: Env, files: map<string, string>, name: string)
    requires RemoveSpec(env, files, name).err.None?
    ensures Deregistered(env)
    ensures InitPath(name) in files ==> RemoveSpec(env, files, name).files == files - {InitPath(name)}
    ensures InitPath(name) !in files ==>
      UnitPath(name) in files && RemoveSpec(env, files, name).files == files - {UnitPath(name)}
  {
    UnitPathsAgree(name);
    DeregisterSucceeds(env, name);
  }

  /**
    * On a systemd host where every call succeeds and no init script is
    * left over, `remove` deletes the unit file `add` wrote: the files end
    * as they were, less any unit file of that name.
    */
  lemma AddThenRemoveUnit(env: Env, files: map<string, string>, name: string, initText: string, unitText: string)
    requires HasSystemd(env) && env.write.None? && env.unlink.None?
    requires ToolRun(env, "systemctl") == Exited(0)
    requires InitPath(name) !in files
    ensures var added := AddSpec(env, files, name, initText, unitText);
      added.err.None? && RemoveSpec(env, added.files, name) == Outcome(
        [Stat(SystemDir), Spawn("systemctl", ["disable", name]), Unlink(InitPath(name)), Unlink(UnitPath(name))],
        files - {UnitPath(name)}, None)
  {
    UnitPathsAgree(name);
    PathsInjective(name, name);
    var added := files[UnitPath(name) := unitText];
    assert InitPath(name) !in added;
    assert added - {UnitPath(name)} == files - {UnitPath(name)};
  }

  /**
    * On a host without systemd where every call succeeds, `remove`
    * deletes the init script `add` wrote: the files end as they were,
    * less any init script of that name.
    */
  lemma AddThenRemoveInit(env: Env, files: map<string, string>, name: string, initText: string, unitText: string)
    requires LacksSystemd(env) && env.write.None? && env.unlink.None?
    requires ToolRun(env, "chkconfig") == Exited(0)
    ensures var added := AddSpec(env, files, name, initText, unitText);
      added.err.None? && RemoveSpec(env, added.files, name) == Outcome(
        [Stat(SystemDir), Spawn("chkconfig", ["--del", name]), Unlink(InitPath(name))],
        files - {InitPath(name)}, None)
  {
    var added := files[InitPath(name) := initText];
    assert added - {InitPath(name)} == files - {InitPath(name)};
  }

  // ----- The flows, step by step -----

  /** A host the installer runs on. */
  class Host {
    const env: Env
    var files: map<string, string>
    /** The calls made on the host so far. */
    var log: seq<Action>

    constructor (env: Env, files: map<string, string>)
      ensures this.env == env && this.files == files && log == []
    {
      this.env := env;
      this.files := files;
      log := [];
    }

    /** `fs.stat` of the systemd unit directory. */
    method StatDir(path: string) returns (fault: Option<Fault>)
      modifies this`log
      ensures log == old(log) + [Stat(path)] && fault == env.stat
    {
      log := log + [Stat(path)];
      fault := env.stat;
    }

    /**
      * `fs.writeFile`: on success the file holds the text; a failure
      * leaves the path as it was or holding the part written.
      */
    method WriteFile(path: string, text: string, mode: nat) returns (failure: Option<WriteFailure>)
      modifies this`log, this`files
      ensures log == old(log) + [Action.WriteFile(path, text, mode)] && failure == env.write
      ensures failure.None? ==> files == old(files)[path := text]
      ensures failure.Some? ==> files == AfterFailedWrite(old(files), path, text, failure.value)
      ensures files - {path} == old(files) - {path}
    {
      log := log + [Action.WriteFile(path, text, mode)];
      failure := env.write;
      if failure.None? {
        files := files[path := text];
      } else if failure.value.written.Some? {
        files := files[path := Leftover(text, failure.value.written.value)];
      }
    }

    /** `fs.unlink`: a missing file fails with `ENOENT`; on success the file is gone. */
    method Unlink(path: string) returns (fault: Option<Fault>)
      modifies this`log, this`files
      ensures log == old(log) + [Action.Unlink(path)] && fault == UnlinkFault(env, old(files), path)
      ensures files == if fault.None? then old(files) - {path} else old(files)
    {
      log := log + [Action.Unlink(path)];
      fault := UnlinkFault(env, files, path);
      if fault.None? {
        files := files - {path};
      }
    }

    /** `child_process.spawn`, to the end of the child. */
    method Spawn(cmd: string, args: seq<string>) returns (outcome: Spawned)
      modifies this`log
      ensures log == old(log) + [Action.Spawn(cmd, args)] && outcome == ToolRun(env, cmd)
    {
      log := log + [Action.Spawn(cmd, args)];
      outcome := ToolRun(env, cmd);
    }
  }

  /** `runProcess` (index.js lines 167-187): the tool is spawned and its end mapped to an error, or none. */
  method RunProcess(host: Host, path: string, args: seq<string>) returns (err: Option<Error>)
    modifies host`log
    ensures host.log == old(host.log) + [Spawn(path, args)]
    ensures err == ProcessError(path, ToolRun(host.env, path))
  {
    var outcome := host.Spawn(path, args);
    match outcome {
      case Exited(code) =>
        if code != 0 {
          err := Some(Error(path + " failed: " + Decimal(code), NumberCode(code)));
        } else {
          err := None;
        }
      case Signalled =>
        err := Some(Error(path + " failed: null", NullCode));
      case SpawnFailed(fault) =>
        err := Some(Error(fault.message, NameCode(fault.code)));
    }
  }

  /** The registration chain of an init script, as its callbacks run: it does what `Register` says. */
  method RegisterInit(host: Host, name: string) returns (err: Option<Error>)
    modifies host`log
    ensures host.log == old(host.log) + Register(host.env, name).steps && err == Register(host.env, name).err
  {
    err := RunProcess(host, "chkconfig", ["--add", name]);
    if err.Some? {
      if err.value.code == NameCode("ENOENT") {
        var e2 := RunProcess(host, "update-rc.d", [name, "defaults"]);
        if e2.Some? {
          return Some(Error("update-rd.d failed: " + e2.value.message, NoCode));
        }
        return None;
      }
      return Some(Error("chkconfig failed: " + err.value.message, NoCode));
    }
  }

  /** `systemctl enable`, as its callback runs: it does what `Enable` says. */
  method EnableUnit(host: Host, name: string) returns (err: Option<Error>)
    modifies host`log
    ensures host.log == old(host.log) + Enable(host.env, name).steps && err == Enable(host.env, name).err
  {
    var e := RunProcess(host, "systemctl", ["enable", name]);
    if e.Some? {
      return Some(Error("systemctl failed: " + e.value.message, NoCode));
    }
    err := None;
  }

  /**
    * Writing a control file, then registering it, as the callbacks run:
    * it does what `Installed` says, for the registration `register` that
    * `Register` or `Enable` specifies.
    */
  method Install(host: Host, name: string, path: string, text: string, systemd: bool) returns (err: Option<Error>)
    modifies host`log, host`files
    ensures var o := Installed(host.env, old(host.files), old(host.log), path, text,
                               if systemd then Enable(host.env, name) else Register(host.env, name));
      host.log == o.steps && host.files == o.files && err == o.err
  {
    var writeFailure := host.WriteFile(path, text, ControlFileMode);
    if writeFailure.Some? {
      return Some(Error("writeFile(" + path + ") failed: " + writeFailure.value.fault.message, NoCode));
    }
    if systemd {
      err := EnableUnit(host, name);
    } else {
      err := RegisterInit(host, name);
    }
  }

  /**
    * The POSIX branch of `add` (index.js lines 263-354), as its callback
    * chain runs, for the templates of the init script and the systemd
    * unit: it does what `AddSpec` says.
    */
  method AddPosix(host: Host, s: Settings, initTemplate: seq<Line>, unitTemplate: seq<Line>) returns (err: Option<Error>)
    modifies host`log, host`files
    ensures var o := AddSpec(host.env, old(host.files), s.name, InitText(initTemplate, s), UnitText(unitTemplate, s));
      host.log == old(host.log) + o.steps && host.files == o.files && err == o.err
  {
    var statFault := host.StatDir(SystemDir);
    if statFault.None? {
      var text := RenderTemplate(unitTemplate, UnitTable(s));
      err := Install(host, s.name, UnitPath(s.name), text, true);
    } else if statFault.value.code == "ENOENT" {
      var text := RenderTemplate(initTemplate, InitTable(s));
      err := Install(host, s.name, InitPath(s.name), text, false);
    } else {
      err := Some(Error("stat(/usr/lib/systemd/system) failed: " + statFault.value.message, NoCode));
    }
  }

  /** `removeCtlPaths`, as its callbacks run: it does what `RemoveFiles` says. */
  method RemoveCtlPaths(host: Host, name: string) returns (err: Option<Error>)
    modifies host`log, host`files
    ensures var o := RemoveFiles(host.env, old(host.files), name);
      host.log == old(host.log) + o.steps && host.files == o.files && err == o.err
  {
    var initPath, systemPath := InitPath(name), UnitPathIn(SystemDir, name);
    var fault := host.Unlink(initPath);
    if fault.Some? {
      if fault.value.code == "ENOENT" {
        var fault2 := host.Unlink(systemPath);
        if fault2.Some? {
          return Some(Error("unlink(" + systemPath + ") failed: " + fault2.value.message, NoCode));
        }
        return None;
      }
      return Some(Error("unlink(" + initPath + ") failed: " + fault.value.message, NoCode));
    }
    err := None;
  }

  /** The deregistration chain, as its callbacks run: it does what `Deregister` says. */
  method DeregisterService(host: Host, name: string) returns (err: Option<Error>)
    modifies host`log
    ensures host.log == old(host.log) + Deregister(host.env, name).steps && err == Deregister(host.env, name).err
  {
    var statFault := host.StatDir(SystemDir);
    if statFault.None? {
      var e := RunProcess(host, "systemctl", ["disable", name]);
      if e.Some? {
        return Some(Error("systemctl failed: " + e.value.message, NoCode));
      }
      return None;
    }
    if statFault.value.code != "ENOENT" {
      return Some(Error("stat(" + SystemDir + ") failed: " + statFault.value.message, NoCode));
    }
    err := RunProcess(host, "chkconfig", ["--del", name]);
    if err.Some? {
      if err.value.code == NameCode("ENOENT") {
        var e2 := RunProcess(host, "update-rc.d", [name, "remove"]);
        if e2.Some? {
          return Some(Error("update-rc.d failed: " + e2.value.message, NoCode));
        }
        return None;
      }
      return Some(Error("chkconfig failed: " + err.value.message, NoCode));
    }
  }

  /** The POSIX branch of `remove`, as its callback chain runs: it does what `RemoveSpec` says. */
  method RemovePosix(host: Host, name: string) returns (err: Option<Error>)
    modifies host`log, host`files
    ensures var o := RemoveSpec(host.env, old(host.files), name);
      host.log == old(host.log) + o.steps && host.files == o.files && err == o.err
  {
    err := DeregisterService(host, name);
    if err.Some? {
      return;
    }
    err := RemoveCtlPaths(host, name);
  }
}
