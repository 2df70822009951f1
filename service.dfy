/**
  * The exported functions of index.js — `add`, `remove`, `run` and
  * `stop` — and `isStopRequested`, the internal function the Windows poll
  * installed by `run` calls, over the two platforms: on Windows they call
  * the native addon, loaded on first use; elsewhere `add` and `remove`
  * write and register control files on a `Host`, and `run` and `stop`
  * only wire up signals and the process exit.
  *
  * Whether the addon loads and how each Win32 call turns out are a
  * parameter (`Win32Env`), as is the set of services installed when the
  * addon is loaded.
  */
module OsService {
  import opened Wrappers
  import opened Strings
  import opened Options
  import opened Templates
  import opened Installer
  import Native

  /** `os.platform() == "win32"`. */
  predicate IsWindows(platform: string) {
    platform == "win32"
  }

  /**
    * How loading the addon with `require` turns out (a failure carries
    * the message of the error `require` throws), and how each Win32 call
    * the addon makes turns out.
    */
  datatype Win32Env = Win32Env(
    load: Native.Call,
    openManager: Native.Call,
    createService: Native.Call,
    openService: Native.Call,
    deleteService: Native.Call,
    createThread: Native.Call)

  /** What `run` has set up to call the stop callback. */
  datatype Listener = Poll(intervalMs: nat) | OnSignal(signal: string)

  /** The interval at which `run` polls `isStopRequested` on Windows, in milliseconds. */
  const PollInterval: nat := 2000

  /**
    * The listeners `run` installs (index.js lines 434-449): a poll of the
    * stop flag on Windows, handlers for `SIGINT` and `SIGTERM` elsewhere.
    */
  function Listeners(platform: string): (r: seq<Listener>)
    ensures Poll(PollInterval) in r <==> IsWindows(platform)
    ensures OnSignal("SIGINT") in r <==> !IsWindows(platform)
    ensures OnSignal("SIGTERM") in r <==> !IsWindows(platform)
    ensures forall l | l in r :: l == Poll(PollInterval) || l == OnSignal("SIGINT") || l == OnSignal("SIGTERM")
    ensures forall i, j | 0 <= i < j < |r| :: r[i] != r[j]
  {
    if IsWindows(platform) then [Poll(PollInterval)] else [OnSignal("SIGINT"), OnSignal("SIGTERM")]
  }

  /**
    * The arguments `add` was called with: `add(name, cb)`, which makes
    * the options `{}`, or `add(name, options, cb)` with any options,
    * `null` included.
    */
  datatype AddArgs = NameOnly | WithOptions(options: Option<ServiceOptions>)

  /** The options `add` goes on with (index.js lines 190-193). */
  function AddOptions(a: AddArgs): Option<ServiceOptions> {
    match a
    case NameOnly => Some(NoOptions)
    case WithOptions(options) => options
  }

  /** The error passed to the callback. */
  datatype Failure = HostFailure(error: Installer.Error) | NativeFailure(thrown: Native.Thrown)

  /**
    * How a call of `add` or `remove` ends: the callback is called, with or
    * without an error, or an exception escapes before it is.
    */
  datatype Reply = Called(err: Option<Failure>) | Threw(kind: Native.ErrorKind)

  /** The callback's argument for an error of the POSIX branch. */
  function HostReply(err: Option<Installer.Error>): (r: Reply)
    ensures r.Called? && (r.err.None? <==> err.None?)
  {
    if err.None? then Called(None) else Called(Some(HostFailure(err.value)))
  }

  /**
    * The callback's argument when loading the addon or the native call
    * may have thrown: whatever the `try` of index.js lines 234-240 and
    * 366-371 catches is passed on.
    */
  function NativeReply(thrown: Option<Native.Thrown>): (r: Reply)
    ensures r.Called? && (r.err.None? <==> thrown.None?)
  {
    if thrown.None? then Called(None) else Called(Some(NativeFailure(thrown.value)))
  }

  /** The command line registered with the Windows service manager (index.js lines 211-228). */
  function CommandLine(o: ServiceOptions, proc: ProcessInfo): string {
    Join(Quoted(ServiceArgs(ChosenNodePath(o, proc), ListOr(o.nodeArgs, []), ChosenProgramPath(o, proc),
                            ListOr(o.programArgs, []))), " ")
  }

  /** A credential as the addon receives it: the string, or `null`. */
  function CredentialValue(v: Option<string>): (r: Native.JsValue)
    ensures r.Str? <==> Given(v)
    ensures r.Str? ==> r.s == v.value
    ensures !r.Str? ==> r == Native.Null
  {
    var c := Credential(v);
    if c.Some? then Native.Str(c.value) else Native.Null
  }

  /** `process.exit(rcode || 0)`: a falsy code exits with 0, any other is passed on. */
  function ExitStatus(rcode: Native.JsValue): (r: Native.JsValue)
    ensures Truthy(r) <==> Truthy(rcode)
    ensures Truthy(r) ==> r == rcode
    ensures !Truthy(r) ==> r == Native.Number(0)
  {
    if Truthy(rcode) then rcode else Native.Number(0)
  }

  /** JavaScript truthiness. */
  predicate Truthy(v: Native.JsValue) {
    match v
    case Undefined => false
    case Null => false
    case Bool(b) => b
    case Number(n) => n != 0
    case Str(s) => s != ""
    case Object => true
  }

  /** The module state of index.js and the addon it loads. */
  class ServiceModule {
    const platform: string
    const proc: ProcessInfo
    const win: Win32Env
    /** The services the Windows service manager holds when the addon is loaded. */
    const services: set<string>
    /** The host the POSIX branches work on. */
    const host: Host
    /** `initdTemplate`, the init script template. */
    const initTemplate: seq<InitLine>
    /** `systemdTemplate`, the systemd unit template. */
    const unitTemplate: seq<UnitLine>
    /** `runInitialised`: whether `run` has installed its listeners. */
    var runInitialised: bool
    /** `serviceWrap`: the native addon, once loaded. */
    var serviceWrap: Native.NativeService?
    /** The listeners installed by `run`. */
    var listeners: seq<Listener>
    /** The status passed to `process.exit`, once called. */
    var exitStatus: Option<Native.JsValue>

    ghost predicate Valid()
      reads this, serviceWrap
    {
      serviceWrap != null ==> serviceWrap.Valid()
    }

    /** The services installed now, as the Windows service manager sees them. */
    ghost function Services(): set<string>
      reads this, serviceWrap
    {
      if serviceWrap == null then services else serviceWrap.installed
    }

    /** The stop flag of the addon, which is clear until the addon is loaded. */
    ghost function StopFlag(): bool
      reads this, serviceWrap
    {
      serviceWrap != null && serviceWrap.stopRequested
    }

    /** Whether the addon's `Run` has started the service dispatcher. */
    ghost function NativeRunning(): bool
      reads this, serviceWrap
    {
      serviceWrap != null && serviceWrap.runInitialised
    }

    /** The statuses reported by the addon so far. */
    ghost function Reported(): seq<Native.ServiceStatus>
      reads this, serviceWrap
    {
      if serviceWrap == null then [] else serviceWrap.reported
    }

    /** The addon is loaded, or loads when `getServiceWrap` is next called. */
    predicate AddonAvailable()
      reads this
    {
      serviceWrap != null || win.load.Succeeds?
    }

    /** The exception `require` throws when the addon fails to load. */
    function LoadFailure(): Native.Thrown
      requires win.load.Fails?
    {
      Native.Thrown(Native.Error, win.load.reason)
    }

    /** The state when index.js is loaded: nothing run, no addon loaded. */
    constructor (platform: string, proc: ProcessInfo, win: Win32Env, services: set<string>, host: Host,
                 initTemplate: seq<InitLine>, unitTemplate: seq<UnitLine>)
      ensures Valid()
      ensures this.platform == platform && this.proc == proc && this.win == win
      ensures this.services == services && this.host == host
      ensures this.initTemplate == initTemplate && this.unitTemplate == unitTemplate
      ensures !runInitialised && serviceWrap == null && listeners == [] && exitStatus == None
    {
      this.platform := platform;
      this.proc := proc;
      this.win := win;
      this.services := services;
      this.host := host;
      this.initTemplate := initTemplate;
      this.unitTemplate := unitTemplate;
      runInitialised := false;
      serviceWrap := null;
      listeners := [];
      exitStatus := None;
    }

    /**
      * `getServiceWrap` (index.js lines 161-165): the addon is loaded on
      * the first call and the same one returned on every later call; when
      * `require` throws, nothing is cached and the exception is passed on.
      */
    method GetServiceWrap() returns (w: Native.NativeService?, err: Option<Native.Thrown>)
      requires Valid()
      modifies this`serviceWrap
      ensures Valid() && serviceWrap == w
      ensures w != null <==> err.None?
      ensures w != null <==> old(AddonAvailable())
      ensures old(serviceWrap) != null ==> w == old(serviceWrap)
      ensures old(serviceWrap) == null && win.load.Succeeds? ==>
        w != null && fresh(w) && !w.runInitialised && !w.stopRequested && w.reported == [] && w.calls == []
        && w.installed == services
      ensures old(serviceWrap) == null && win.load.Fails? ==> err == Some(LoadFailure())
    {
      if serviceWrap == null {
        if win.load.Fails? {
          return null, Some(LoadFailure());
        }
        serviceWrap := new Native.NativeService(services);
      }
      w, err := serviceWrap, None;
    }

    /**
      * `run` (index.js lines 433-457): the listeners are installed on the
      * first call only; on Windows every call also calls the addon's
      * `run`, which starts the service dispatcher once. A failure to load
      * the addon is thrown after the listeners are installed.
      */
    method Run() returns (err: Option<Native.Thrown>)
      requires Valid()
      modifies this`runInitialised, this`listeners, this`serviceWrap, serviceWrap
      ensures Valid() && runInitialised
      ensures listeners == if old(runInitialised) then old(listeners) else old(listeners) + Listeners(platform)
      ensures old(serviceWrap) != null ==> serviceWrap == old(serviceWrap)
      ensures old(serviceWrap) == null && serviceWrap != null ==> fresh(serviceWrap)
      ensures StopFlag() == old(StopFlag()) && Services() == old(Services()) && Reported() == old(Reported())
      ensures !IsWindows(platform) ==> err == None && serviceWrap == old(serviceWrap)
      ensures !IsWindows(platform) && serviceWrap != null ==> unchanged(serviceWrap)
      ensures IsWindows(platform) ==> (serviceWrap != null <==> old(AddonAvailable()))
      ensures IsWindows(platform) && !old(AddonAvailable()) ==> err == Some(LoadFailure())
      ensures IsWindows(platform) && old(AddonAvailable()) && (old(NativeRunning()) || win.createThread.Succeeds?) ==>
        err == None && NativeRunning()
      ensures IsWindows(platform) && old(AddonAvailable()) && !old(NativeRunning()) && win.createThread.Fails? ==>
        err == Some(Native.Thrown(Native.Error, "CreateThread() failed: " + win.createThread.reason))
        && !NativeRunning()
    {
      if !runInitialised {
        listeners := listeners + Listeners(platform);
        runInitialised := true;
      }
      err := None;
      if IsWindows(platform) {
        var w;
        w, err := GetServiceWrap();
        if w != null {
          err := w.Run(win.createThread);
        }
      }
    }

    /**
      * `isStopRequested` (index.js lines 360-362), which the poll `run`
      * installs on Windows calls every `PollInterval` milliseconds, calling
      * the stop callback when it returns `true`: the addon's flag is
      * returned and cleared. A failure to load the addon is thrown.
      */
    method IsStopRequested() returns (requested: bool, err: Option<Native.Thrown>)
      requires Valid()
      modifies this`serviceWrap, serviceWrap
      ensures Valid()
      ensures old(serviceWrap) != null ==> serviceWrap == old(serviceWrap)
      ensures old(serviceWrap) == null && serviceWrap != null ==> fresh(serviceWrap)
      ensures serviceWrap != null <==> old(AddonAvailable())
      ensures !old(AddonAvailable()) ==> err == Some(LoadFailure()) && !requested
      ensures old(AddonAvailable()) ==> err == None && requested == old(StopFlag())
      ensures !StopFlag()
      ensures NativeRunning() == old(NativeRunning()) && Services() == old(Services()) && Reported() == old(Reported())
    {
      var w;
      w, err := GetServiceWrap();
      requested := false;
      if w != null {
        requested := w.IsStopRequested();
      }
    }

    /**
      * `stop` (index.js lines 459-464): on Windows the addon's `stop` is
      * called with the one argument `rcode`, so the service reports that it
      * stopped with exit code 0; then the process exits with `rcode || 0`.
      * A failure to load the addon is thrown, and the process does not exit.
      */
    method Stop(rcode: Native.JsValue) returns (err: Option<Native.Thrown>)
      requires Valid()
      modifies this`exitStatus, this`serviceWrap, serviceWrap
      ensures Valid()
      ensures old(serviceWrap) != null ==> serviceWrap == old(serviceWrap)
      ensures old(serviceWrap) == null && serviceWrap != null ==> fresh(serviceWrap)
      ensures NativeRunning() == old(NativeRunning()) && StopFlag() == old(StopFlag()) && Services() == old(Services())
      ensures IsWindows(platform) && !old(AddonAvailable()) ==>
        err == Some(LoadFailure()) && exitStatus == old(exitStatus) && serviceWrap == null
      ensures !IsWindows(platform) || old(AddonAvailable()) ==> err == None && exitStatus == Some(ExitStatus(rcode))
      ensures !IsWindows(platform) ==> serviceWrap == old(serviceWrap)
      ensures !IsWindows(platform) && serviceWrap != null ==> unchanged(serviceWrap)
      ensures IsWindows(platform) && old(AddonAvailable()) ==> serviceWrap != null
      ensures IsWindows(platform) && old(NativeRunning()) ==>
        serviceWrap.stopSignalled
        && Reported() == old(Reported()) + [Native.StatusRecord(Native.ServiceStopPending, Native.NoError, 0),
                                            Native.StatusRecord(Native.ServiceStopped, Native.NoError, 0)]
      ensures IsWindows(platform) && !old(NativeRunning()) ==> Reported() == old(Reported())
    {
      err := None;
      if IsWindows(platform) {
        var w;
        w, err := GetServiceWrap();
        if w == null {
          return;
        }
        Native.StopSingleArgument(rcode);
        err := w.Stop([rcode]);
      }
      exitStatus := Some(ExitStatus(rcode));
    }

    /**
      * `add` on Windows (index.js lines 206-240): the dependencies are read
      * from the options, which throws for `null` options before the addon
      * is loaded; then the addon is loaded and installs the service under
      * the display name with the quoted command line, and an exception
      * either throws is passed to the callback.
      */
    method AddWindows(name: string, options: Option<ServiceOptions>) returns (reply: Reply)
      requires Valid()
      modifies this`serviceWrap, serviceWrap
      ensures Valid()
      ensures old(serviceWrap) != null ==> serviceWrap == old(serviceWrap)
      ensures old(serviceWrap) == null && serviceWrap != null ==> fresh(serviceWrap)
      ensures NativeRunning() == old(NativeRunning()) && StopFlag() == old(StopFlag()) && Reported() == old(Reported())
      ensures options.None? ==> reply == Threw(Native.TypeError) && serviceWrap == old(serviceWrap)
      ensures options.None? && serviceWrap != null ==> unchanged(serviceWrap)
      ensures options.Some? ==> (serviceWrap != null <==> old(AddonAvailable()))
      ensures options.Some? && !old(AddonAvailable()) ==>
        reply == Called(Some(NativeFailure(LoadFailure()))) && Services() == old(Services())
      ensures options.Some? && old(AddonAvailable()) && win.openManager.Succeeds? ==>
        var calls := serviceWrap.calls;
        var before := if old(serviceWrap) == null then 0 else |old(serviceWrap.calls)|;
        |calls| > before + 1 && calls[before] == Native.OpenManager
        && calls[before + 1] == Native.CreateService(name, ChosenDisplayName(options.value, name),
                                                     CommandLine(options.value, proc))
      ensures options.Some? && old(AddonAvailable()) && win.openManager.Succeeds? && win.createService.Succeeds? ==>
        reply == Called(None) && Services() == old(Services()) + {name}
      ensures options.Some? && old(AddonAvailable()) && win.openManager.Fails? ==>
        reply == Called(Some(NativeFailure(Native.Thrown(Native.Error, "OpenSCManager() failed: " + win.openManager.reason))))
        && Services() == old(Services())
      ensures options.Some? && old(AddonAvailable()) && win.openManager.Succeeds? && win.createService.Fails? ==>
        reply == Called(Some(NativeFailure(Native.Thrown(Native.Error, "CreateService() failed: " + win.createService.reason))))
        && Services() == old(Services())
    {
      var o := Effective(options);
      var displayName := ChosenDisplayName(o, name);
      var servicePath := ServiceCommandLine(ChosenNodePath(o, proc), o.nodeArgs, ChosenProgramPath(o, proc), o.programArgs);
      var deps := WindowsDependencies(options);
      if deps.None? {
        return Threw(Native.TypeError);
      }
      var w, loadErr := GetServiceWrap();
      if w == null {
        return NativeReply(loadErr);
      }
      var args := [Native.Str(name), Native.Str(displayName), Native.Str(servicePath),
                   CredentialValue(o.username), CredentialValue(o.password), Native.Str(deps.value)];
      assert Native.AddArgsError(args).None?;
      var thrown := w.Add(args, win.openManager, win.createService);
      reply := NativeReply(thrown);
    }

    /**
      * `add` elsewhere (index.js lines 241-355): the settings are computed
      * from the options and the control file written and registered.
      */
    method AddPosix(name: string, options: Option<ServiceOptions>) returns (reply: Reply)
      modifies host`log, host`files
      ensures var o := AddSpec(host.env, old(host.files), name,
                               InitText(initTemplate, ChosenSettings(name, options, proc)),
                               UnitText(unitTemplate, ChosenSettings(name, options, proc)));
        host.log == old(host.log) + o.steps && host.files == o.files && reply == HostReply(o.err)
    {
      var s := PosixSettings(name, options, proc);
      var err := Installer.AddPosix(host, s, initTemplate, unitTemplate);
      reply := HostReply(err);
    }

    /** `add` (index.js lines 189-358). */
    method Add(name: string, args: AddArgs) returns (reply: Reply)
      requires Valid()
      modifies this`serviceWrap, serviceWrap, host`log, host`files
      ensures Valid()
      ensures old(serviceWrap) != null ==> serviceWrap == old(serviceWrap)
      ensures old(serviceWrap) == null && serviceWrap != null ==> fresh(serviceWrap)
      ensures NativeRunning() == old(NativeRunning()) && StopFlag() == old(StopFlag()) && Reported() == old(Reported())
      ensures IsWindows(platform) ==> host.log == old(host.log) && host.files == old(host.files)
      ensures IsWindows(platform) ==> (reply == Threw(Native.TypeError) <==> AddOptions(args).None?)
      ensures IsWindows(platform) && AddOptions(args).Some? ==>
        (reply == Called(None) <==> old(AddonAvailable()) && win.openManager.Succeeds? && win.createService.Succeeds?)
      ensures IsWindows(platform) && AddOptions(args).Some? && !old(AddonAvailable()) ==>
        reply == Called(Some(NativeFailure(LoadFailure())))
      ensures IsWindows(platform) ==>
        Services() == if reply == Called(None) then old(Services()) + {name} else old(Services())
      ensures !IsWindows(platform) ==> serviceWrap == old(serviceWrap)
      ensures !IsWindows(platform) && serviceWrap != null ==> unchanged(serviceWrap)
      ensures !IsWindows(platform) ==>
        var o := AddSpec(host.env, old(host.files), name, InitText(initTemplate, ChosenSettings(name, AddOptions(args), proc)),
                         UnitText(unitTemplate, ChosenSettings(name, AddOptions(args), proc)));
        host.log == old(host.log) + o.steps && host.files == o.files && reply == HostReply(o.err)
    {
      var options := AddOptions(args);
      if IsWindows(platform) {
        reply := AddWindows(name, options);
      } else {
        reply := AddPosix(name, options);
      }
    }

    /**
      * `remove` (index.js lines 364-431): on Windows the addon is loaded
      * and removes the service, and an exception either throws is passed
      * to the callback; elsewhere the service is deregistered and its
      * control file removed.
      */
    method Remove(name: string) returns (reply: Reply)
      requires Valid()
      modifies this`serviceWrap, serviceWrap, host`log, host`files
      ensures Valid()
      ensures old(serviceWrap) != null ==> serviceWrap == old(serviceWrap)
      ensures old(serviceWrap) == null && serviceWrap != null ==> fresh(serviceWrap)
      ensures NativeRunning() == old(NativeRunning()) && StopFlag() == old(StopFlag()) && Reported() == old(Reported())
      ensures IsWindows(platform) ==> host.log == old(host.log) && host.files == old(host.files)
      ensures IsWindows(platform) ==> (serviceWrap != null <==> old(AddonAvailable())) && reply.Called?
      ensures IsWindows(platform) && !old(AddonAvailable()) ==> reply == Called(Some(NativeFailure(LoadFailure())))
      ensures IsWindows(platform) ==>
        (reply == Called(None) <==> old(AddonAvailable()) && win.openManager.Succeeds? && win.openService.Succeeds?
                                    && win.deleteService.Succeeds?)
      ensures IsWindows(platform) ==>
        Services() == if reply == Called(None) then old(Services()) - {name} else old(Services())
      ensures !IsWindows(platform) ==> serviceWrap == old(serviceWrap)
      ensures !IsWindows(platform) && serviceWrap != null ==> unchanged(serviceWrap)
      ensures !IsWindows(platform) ==>
        var o := RemoveSpec(host.env, old(host.files), name);
        host.log == old(host.log) + o.steps && host.files == o.files && reply == HostReply(o.err)
    {
      if IsWindows(platform) {
        var w, loadErr := GetServiceWrap();
        if w == null {
          return NativeReply(loadErr);
        }
        Native.RemoveArgsAccepted([Native.Str(name)]);
        var thrown := w.Remove([Native.Str(name)], win.openManager, win.openService, win.deleteService);
        reply := NativeReply(thrown);
      } else {
        var err := RemovePosix(host, name);
        reply := HostReply(err);
      }
    }
  }

  /** Loading index.js: the module state holds the templates of index.js lines 10-159. */
  method Load(platform: string, proc: ProcessInfo, win: Win32Env, services: set<string>, host: Host)
    returns (m: ServiceModule)
    ensures fresh(m) && m.Valid() && m.platform == platform && m.host == host
    ensures m.initTemplate == InitScript && m.unitTemplate == SystemUnit
    ensures !m.runInitialised && m.serviceWrap == null
  {
    m := new ServiceModule(platform, proc, win, services, host, InitScript, SystemUnit);
  }

  /**
    * On Windows, a stop control received by the service is seen by the
    * next poll, and only by that one: the stop callback runs once per
    * control.
    */
  method StopSeenOnce(m: ServiceModule) returns (first: bool, second: bool)
    requires m.Valid() && IsWindows(m.platform) && m.AddonAvailable()
    modifies m`serviceWrap, m.serviceWrap
    ensures first && !second
  {
    var w, loadErr := m.GetServiceWrap();
    w.Handler(Native.ServiceControlStop);
    var err1, err2;
    first, err1 := m.IsStopRequested();
    second, err2 := m.IsStopRequested();
  }

  /**
    * The life of a Windows service: `run` starts the dispatcher, the
    * service manager sends a stop control, the next poll sees it, and the
    * stop callback's `stop` reports a pending stop and then a stop with
    * exit code 0 before the process exits with `rcode || 0`.
    */
  method RunPollStop(m: ServiceModule, rcode: Native.JsValue) returns (requested: bool)
    requires m.Valid() && IsWindows(m.platform) && m.AddonAvailable()
    requires !m.NativeRunning() ==> m.win.createThread.Succeeds?
    modifies m, m.serviceWrap
    ensures requested && m.NativeRunning() && m.exitStatus == Some(ExitStatus(rcode))
    ensures var r := m.Reported();
      |r| >= 2 && r[|r| - 2..] == [Native.StatusRecord(Native.ServiceStopPending, Native.NoError, 0),
                                    Native.StatusRecord(Native.ServiceStopped, Native.NoError, 0)]
  {
    var runErr := m.Run();
    m.serviceWrap.Handler(Native.ServiceControlStop);
    var pollErr;
    requested, pollErr := m.IsStopRequested();
    var stopErr := m.Stop(rcode);
  }
}
