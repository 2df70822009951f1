/**
  * The native Windows service capability of src/service.cc: the status
  * record reported to the service control manager, the control handler and
  * its stop flag, the run-once guard on `Run`, the stop report of `Stop`,
  * and `Add` and `Remove`, which check their JavaScript arguments before
  * touching the service control manager and close every handle they open.
  *
  * The static globals of the file are the fields of `NativeService`. The
  * Win32 calls are not modelled; what each one does is supplied as an
  * outcome (`Call`), and the calls made are recorded in `calls`.
  */
module Native {
  import opened Wrappers

  /** A Win32 `DWORD`. */
  type Dword = n: int | 0 <= n < 0x1_0000_0000

  // Constants of the Win32 service API (winsvc.h and winerror.h).
  const ServiceWin32OwnProcess: Dword := 0x10
  const ServiceStopped: Dword := 1
  const ServiceStopPending: Dword := 3
  const ServiceRunning: Dword := 4
  const ServiceAcceptStop: Dword := 1
  const ServiceAcceptShutdown: Dword := 4
  const ServiceControlStop: Dword := 1
  const ServiceControlShutdown: Dword := 5
  const NoError: Dword := 0
  const ErrorServiceSpecificError: Dword := 1066

  /** The fields of a `SERVICE_STATUS` record. */
  datatype ServiceStatus = ServiceStatus(
    serviceType: Dword,
    currentState: Dword,
    controlsAccepted: Dword,
    win32ExitCode: Dword,
    serviceSpecificExitCode: Dword,
    checkPoint: Dword,
    waitHint: Dword)

  /**
    * The record `set_status` fills in (src/service.cc lines 39-52): an own
    * process service in the given state that accepts stop and shutdown,
    * whose Win32 exit code signals a service-specific error exactly when
    * the service's own code is not zero.
    */
  function StatusRecord(state: Dword, win32Rcode: Dword, serviceRcode: Dword): (st: ServiceStatus)
    ensures st.serviceType == ServiceWin32OwnProcess && st.currentState == state
    ensures st.controlsAccepted == 5
    ensures st.win32ExitCode == (if serviceRcode != 0 then ErrorServiceSpecificError else win32Rcode)
    ensures st.serviceSpecificExitCode == serviceRcode
    ensures st.checkPoint == 0 && st.waitHint == 10000
  {
    ServiceStatus(ServiceWin32OwnProcess, state, ServiceAcceptShutdown + ServiceAcceptStop,
                  if serviceRcode != 0 then ErrorServiceSpecificError else win32Rcode,
                  serviceRcode, 0, 10000)
  }

  /**
    * A status reports success exactly when neither code is set, and a set
    * service code can always be read back from the record.
    */
  lemma StatusSuccess(state: Dword, win32Rcode: Dword, serviceRcode: Dword)
    ensures StatusRecord(state, win32Rcode, serviceRcode).win32ExitCode == NoError
      <==> win32Rcode == NoError && serviceRcode == 0
    ensures StatusRecord(state, win32Rcode, serviceRcode).win32ExitCode == ErrorServiceSpecificError
      ==> serviceRcode != 0 || win32Rcode == ErrorServiceSpecificError
  {
  }

  // ----- JavaScript arguments -----

  /** A JavaScript value as the native functions test it. */
  datatype JsValue = Undefined | Null | Bool(b: bool) | Number(n: int) | Str(s: string) | Object

  /** `IsUint32()`: an integral number in the range of a `DWORD`. */
  predicate IsUint32(v: JsValue) {
    v.Number? && 0 <= v.n < 0x1_0000_0000
  }

  datatype ErrorKind = Error | TypeError

  /** An exception thrown into JavaScript. */
  datatype Thrown = Thrown(kind: ErrorKind, message: string)

  /** The outcome of one Win32 call: success, or failure with the system's text for the error. */
  datatype Call = Succeeds | Fails(reason: string)

  /**
    * The exception `Add` throws for its arguments (src/service.cc lines
    * 137-162), if any. The path check reuses the name check's message.
    */
  function AddArgsError(args: seq<JsValue>): Option<Thrown> {
    if |args| < 3 then Some(Thrown(Error, "Two arguments are required"))
    else if !args[0].Str? then Some(Thrown(TypeError, "Name argument must be a string"))
    else if !args[1].Str? then Some(Thrown(TypeError, "Display name argument must be a string"))
    else if !args[2].Str? then Some(Thrown(TypeError, "Name argument must be a string"))
    else None
  }

  /** `Add` goes on to the service manager exactly when its first three arguments are strings. */
  lemma AddArgsAccepted(args: seq<JsValue>)
    ensures AddArgsError(args).None? <==> |args| >= 3 && forall i | 0 <= i < 3 :: args[i].Str?
    ensures AddArgsError(args).Some? && |args| >= 3 ==> AddArgsError(args).value.kind == TypeError
  {
    if |args| >= 3 && AddArgsError(args).Some? {
      assert !args[0].Str? || !args[1].Str? || !args[2].Str?;
    }
  }

  /** The exception `Remove` throws for its arguments (src/service.cc lines 205-216), if any. */
  function RemoveArgsError(args: seq<JsValue>): Option<Thrown> {
    if |args| < 1 then Some(Thrown(Error, "One argument is required"))
    else if !args[0].Str? then Some(Thrown(TypeError, "Name argument must be a string"))
    else None
  }

  /** `Remove` goes on to the service manager exactly when its first argument is a string. */
  lemma RemoveArgsAccepted(args: seq<JsValue>)
    ensures RemoveArgsError(args).None? <==> |args| >= 1 && args[0].Str?
  {
  }

  /**
    * The exit code `Stop` reports (src/service.cc lines 280-288), or `None`
    * when it throws: the first argument is read only when more than one
    * argument is passed.
    */
  function StopExitCode(args: seq<JsValue>): Option<Dword> {
    if |args| > 1 then
      if IsUint32(args[0]) then Some(args[0].n) else None
    else Some(0)
  }

  /**
    * A call with a single argument, as `stop(rcode)` in index.js makes it,
    * always reports exit code 0, whatever the argument; only a second,
    * ignored argument lets the first one through.
    */
  lemma StopSingleArgument(v: JsValue)
    ensures StopExitCode([v]) == Some(0)
    ensures IsUint32(v) ==> StopExitCode([v, Undefined]) == Some(v.n)
    ensures !IsUint32(v) ==> StopExitCode([v, Undefined]) == None
  {
  }

  // ----- The service state -----

  /** A call the model makes to the service control manager. */
  datatype ScmCall =
    | OpenManager
    | CreateService(name: string, displayName: string, path: string)
    | OpenService(name: string)
    | DeleteService(name: string)
    | CloseHandle(handle: nat)

  class NativeService {
    /** `run_initialised`: set once the dispatcher thread has been started. */
    var runInitialised: bool
    /** `stop_requested`: set by the control handler, cleared when read. */
    var stopRequested: bool
    /** `status_handle`: the handle `RegisterServiceCtrlHandler` gave, or `None`. */
    var statusHandle: Option<nat>
    /** The status records passed to `SetServiceStatus`, in order. */
    var reported: seq<ServiceStatus>
    /** Whether `stop_service` has been signalled, which ends the service main function. */
    var stopSignalled: bool
    /** The service-manager handles currently open. */
    var open: set<nat>
    /** The number of handles opened so far, which names the next one. */
    var nextHandle: nat
    /** The service-manager calls made so far, in order. */
    var calls: seq<ScmCall>
    /** The names of the installed services. */
    var installed: set<string>

    ghost predicate Valid()
      reads this
    {
      forall h | h in open :: h < nextHandle
    }

    /** The state when the addon is loaded: no flag set, nothing reported. */
    constructor (installed: set<string>)
      ensures Valid()
      ensures !runInitialised && !stopRequested && statusHandle == None && !stopSignalled
      ensures reported == [] && open == {} && calls == [] && this.installed == installed
    {
      runInitialised := false;
      stopRequested := false;
      statusHandle := None;
      reported := [];
      stopSignalled := false;
      open := {};
      nextHandle := 0;
      calls := [];
      this.installed := installed;
    }

    /** `set_status`: one record reported. */
    method SetStatus(state: Dword, win32Rcode: Dword, serviceRcode: Dword)
      modifies this`reported
      ensures reported == old(reported) + [StatusRecord(state, win32Rcode, serviceRcode)]
    {
      reported := reported + [StatusRecord(state, win32Rcode, serviceRcode)];
    }

    /**
      * `handler` (src/service.cc lines 61-73): a stop or shutdown control
      * reports a pending stop and sets the stop flag; any other control
      * changes nothing.
      */
    method Handler(control: Dword)
      modifies this`reported, this`stopRequested
      ensures control == ServiceControlStop || control == ServiceControlShutdown ==>
        reported == old(reported) + [StatusRecord(ServiceStopPending, NoError, 0)] && stopRequested
      ensures control != ServiceControlStop && control != ServiceControlShutdown ==>
        reported == old(reported) && stopRequested == old(stopRequested)
    {
      if control == ServiceControlStop || control == ServiceControlShutdown {
        SetStatus(ServiceStopPending, NoError, 0);
        stopRequested := true;
      }
    }

    /** `IsStopRequested` (src/service.cc lines 191-200): the flag is returned and cleared. */
    method IsStopRequested() returns (requested: bool)
      modifies this`stopRequested
      ensures requested == old(stopRequested) && !stopRequested
    {
      requested := stopRequested;
      stopRequested := false;
    }

    /**
      * The service main function `run` (src/service.cc lines 75-86): the
      * control handler is registered; on failure the service reports that
      * it stopped with the system's error code, otherwise that it runs.
      * Waiting for `stop_service` afterwards is not modelled.
      */
    method ServiceMain(registration: Option<nat>, lastError: Dword)
      modifies this`statusHandle, this`reported
      ensures statusHandle == registration
      ensures registration.None? ==> reported == old(reported) + [StatusRecord(ServiceStopped, lastError, 0)]
      ensures registration.Some? ==> reported == old(reported) + [StatusRecord(ServiceRunning, NoError, 0)]
    {
      statusHandle := registration;
      if registration.None? {
        SetStatus(ServiceStopped, lastError, 0);
        return;
      }
      SetStatus(ServiceRunning, NoError, 0);
    }

    /**
      * `Run` (src/service.cc lines 251-272): nothing once initialised;
      * otherwise the dispatcher thread is created, and only when that
      * succeeds is the service marked initialised.
      */
    method Run(createThread: Call) returns (err: Option<Thrown>)
      modifies this`runInitialised
      ensures old(runInitialised) ==> err == None && runInitialised
      ensures !old(runInitialised) && createThread.Fails? ==>
        err == Some(Thrown(Error, "CreateThread() failed: " + createThread.reason)) && !runInitialised
      ensures !old(runInitialised) && createThread.Succeeds? ==> err == None && runInitialised
    {
      if runInitialised {
        return None;
      }
      if createThread.Fails? {
        return Some(Thrown(Error, "CreateThread() failed: " + createThread.reason));
      }
      runInitialised := true;
      err := None;
    }

    /**
      * `Stop` (src/service.cc lines 274-297): nothing unless initialised;
      * otherwise the exit code is read, then a pending stop is reported,
      * the service main function is released, and the stop is reported
      * with that exit code. A bad exit code throws before any report.
      */
    method Stop(args: seq<JsValue>) returns (err: Option<Thrown>)
      modifies this`reported, this`stopSignalled
      ensures !runInitialised ==> err == None && reported == old(reported) && stopSignalled == old(stopSignalled)
      ensures runInitialised && StopExitCode(args).None? ==>
        err == Some(Thrown(TypeError, "Name argument must be a string"))
        && reported == old(reported) && stopSignalled == old(stopSignalled)
      ensures runInitialised && StopExitCode(args).Some? ==>
        err == None && stopSignalled
        && reported == old(reported) + [StatusRecord(ServiceStopPending, NoError, 0),
                                        StatusRecord(ServiceStopped, NoError, StopExitCode(args).value)]
    {
      if !runInitialised {
        return None;
      }
      var rcode: Dword := 0;
      if |args| > 1 {
        if !IsUint32(args[0]) {
          return Some(Thrown(TypeError, "Name argument must be a string"));
        }
        rcode := args[0].n;
      }
      SetStatus(ServiceStopPending, NoError, 0);
      stopSignalled := true;
      SetStatus(ServiceStopped, NoError, rcode);
      err := None;
    }

    /** A new handle is opened. */
    method OpenHandle(call: ScmCall) returns (h: nat)
      requires Valid()
      modifies this`open, this`nextHandle, this`calls
      ensures Valid() && h !in old(open) && open == old(open) + {h}
      ensures calls == old(calls) + [call]
    {
      h := nextHandle;
      nextHandle := nextHandle + 1;
      open := open + {h};
      calls := calls + [call];
    }

    /** `CloseServiceHandle`. */
    method CloseServiceHandle(h: nat)
      requires Valid()
      modifies this`open, this`calls
      ensures Valid() && open == old(open) - {h}
      ensures calls == old(calls) + [CloseHandle(h)]
    {
      open := open - {h};
      calls := calls + [CloseHandle(h)];
    }

    /**
      * `Add` (src/service.cc lines 134-189): the arguments are checked
      * before the service manager is opened; then the manager is opened
      * and the service created. Whatever happens, every handle opened is
      * closed again, and the service is installed exactly when both calls
      * succeed.
      */
    method Add(args: seq<JsValue>, openManager: Call, createService: Call) returns (err: Option<Thrown>)
      requires Valid()
      modifies this`open, this`nextHandle, this`calls, this`installed
      ensures Valid() && open == old(open)
      ensures AddArgsError(args).Some? ==>
        err == AddArgsError(args) && calls == old(calls) && installed == old(installed)
      ensures AddArgsError(args).None? && openManager.Fails? ==>
        err == Some(Thrown(Error, "OpenSCManager() failed: " + openManager.reason))
        && calls == old(calls) + [OpenManager] && installed == old(installed)
      ensures AddArgsError(args).None? && openManager.Succeeds? ==>
        |calls| > |old(calls)| + 1 && calls[|old(calls)|] == OpenManager
        && calls[|old(calls)| + 1] == CreateService(args[0].s, args[1].s, args[2].s)
      ensures AddArgsError(args).None? && openManager.Succeeds? && createService.Fails? ==>
        err == Some(Thrown(Error, "CreateService() failed: " + createService.reason))
        && installed == old(installed)
      ensures AddArgsError(args).None? && openManager.Succeeds? && createService.Succeeds? ==>
        err == None && installed == old(installed) + {args[0].s}
    {
      err := AddArgsError(args);
      if err.Some? {
        return;
      }
      var name, displayName, path := args[0].s, args[1].s, args[2].s;
      if openManager.Fails? {
        calls := calls + [OpenManager];
        return Some(Thrown(Error, "OpenSCManager() failed: " + openManager.reason));
      }
      var scm := OpenHandle(OpenManager);
      if createService.Fails? {
        calls := calls + [CreateService(name, displayName, path)];
        CloseServiceHandle(scm);
        return Some(Thrown(Error, "CreateService() failed: " + createService.reason));
      }
      var svc := OpenHandle(CreateService(name, displayName, path));
      installed := installed + {name};
      CloseServiceHandle(svc);
      CloseServiceHandle(scm);
    }

    /**
      * `Remove` (src/service.cc lines 202-249): the argument is checked
      * before the service manager is opened; then the manager is opened,
      * the service opened and deleted. Whatever happens, every handle
      * opened is closed again, and the service is uninstalled exactly when
      * all three calls succeed.
      */
    method Remove(args: seq<JsValue>, openManager: Call, openService: Call, deleteService: Call)
      returns (err: Option<Thrown>)
      requires Valid()
      modifies this`open, this`nextHandle, this`calls, this`installed
      ensures Valid() && open == old(open)
      ensures RemoveArgsError(args).Some? ==>
        err == RemoveArgsError(args) && calls == old(calls) && installed == old(installed)
      ensures RemoveArgsError(args).None? && openManager.Fails? ==>
        err == Some(Thrown(Error, "OpenSCManager() failed: " + openManager.reason))
        && calls == old(calls) + [OpenManager] && installed == old(installed)
      ensures RemoveArgsError(args).None? && openManager.Succeeds? && openService.Fails? ==>
        err == Some(Thrown(Error, "OpenService() failed: " + openService.reason))
        && installed == old(installed)
      ensures RemoveArgsError(args).None? && openManager.Succeeds? && openService.Succeeds? && deleteService.Fails? ==>
        err == Some(Thrown(Error, "DeleteService() failed: " + deleteService.reason))
        && installed == old(installed)
      ensures RemoveArgsError(args).None? && openManager.Succeeds? && openService.Succeeds? && deleteService.Succeeds? ==>
        err == None && installed == old(installed) - {args[0].s}
    {
      err := RemoveArgsError(args);
      if err.Some? {
        return;
      }
      var name := args[0].s;
      if openManager.Fails? {
        calls := calls + [OpenManager];
        return Some(Thrown(Error, "OpenSCManager() failed: " + openManager.reason));
      }
      var scm := OpenHandle(OpenManager);
      if openService.Fails? {
        calls := calls + [OpenService(name)];
        CloseServiceHandle(scm);
        return Some(Thrown(Error, "OpenService() failed: " + openService.reason));
      }
      var svc := OpenHandle(OpenService(name));
      calls := calls + [DeleteService(name)];
      if deleteService.Fails? {
        CloseServiceHandle(svc);
        CloseServiceHandle(scm);
        return Some(Thrown(Error, "DeleteService() failed: " + deleteService.reason));
      }
      installed := installed - {name};
      CloseServiceHandle(svc);
      CloseServiceHandle(scm);
    }
  }

  /**
    * A stop control followed by two reads of the flag with no control in
    * between gives `true`, then `false`.
    */
  method StopRequestReadOnce(service: NativeService) returns (first: bool, second: bool)
    modifies service
    ensures first && !second && !service.stopRequested
  {
    service.Handler(ServiceControlStop);
    first := service.IsStopRequested();
    second := service.IsStopRequested();
  }

  /** A second `Run` does nothing, whatever the outcome of thread creation would be. */
  method RunTwice(service: NativeService, first: Call, second: Call) returns (err1: Option<Thrown>, err2: Option<Thrown>)
    modifies service
    ensures first.Succeeds? ==> err1 == None && err2 == None && service.runInitialised
    ensures !old(service.runInitialised) && first.Fails? && second.Succeeds? ==> err1.Some? && err2 == None && service.runInitialised
  {
    err1 := service.Run(first);
    err2 := service.Run(second);
  }
}
