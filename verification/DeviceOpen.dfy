/** Opening the modem: the protocol of one run, and the switch that carries it out. */
module DeviceOpen {
  import opened Wrappers

  datatype Service = Dms | Wds | Nas

  datatype Request =
    | CreateDevice
    | OpenDevice
    | Allocate(service: Service)
    | GetRevision
    | GetVersion
    | GetIds
    | GetMode

  datatype Mode = Online | Offline | OtherMode

  datatype Reply = Reply(ok: bool, mode: Mode)

  datatype Action =
    | Ask(request: Request)
    | Answer(request: Request, ok: bool)
    | StartScan
    | Notify(ready: bool, online: bool)
    | Release

  // What outlives a run: the device and the clients held on it.
  datatype Modem = Modem(created: bool, open: bool, clients: set<Service>)

  // A run at rest: what it will report, the request that holds its task, and what has happened.
  datatype Progress = Progress(modem: Modem, ready: bool, mode: Mode, holder: Option<Request>, log: seq<Action>)

  function Asking(p: Progress, q: Request): Progress {
    p.(holder := Some(q), log := p.log + [Ask(q)])
  }

  function Ending(callback: bool, ready: bool, mode: Mode): seq<Action> {
    (if callback then [Notify(ready, mode == Online)] else []) + [Release]
  }

  function Told(p: Progress, callback: bool): Progress {
    p.(holder := None, log := p.log + Ending(callback, p.ready, p.mode))
  }

  function Scanned(p: Progress, callback: bool): Progress {
    Told(p.(log := p.log + [StartScan]), callback)
  }

  function OpenNas(p: Progress, callback: bool): Progress {
    if Nas !in p.modem.clients then Asking(p, Allocate(Nas)) else Scanned(p, callback)
  }

  function OpenWds(p: Progress, callback: bool): Progress {
    if Wds !in p.modem.clients then Asking(p, Allocate(Wds)) else OpenNas(p, callback)
  }

  function OpenDms(p: Progress): Progress {
    if Dms !in p.modem.clients then Asking(p, Allocate(Dms)) else Asking(p, GetRevision)
  }

  function Begin(m: Modem, log: seq<Action>, ready: bool, mode: Mode): Progress {
    var p := Progress(m, ready, mode, None, log);
    if m.created && m.open then OpenDms(p.(ready := true)) else Asking(p, CreateDevice)
  }

  function Granted(p: Progress, service: Service): Progress {
    p.(modem := p.modem.(clients := p.modem.clients + {service}))
  }

  // What follows an answer. A device or a client refused ends the run; a query refused does not.
  function Settled(s: Progress, q: Request, callback: bool, r: Reply): Progress {
    match q
    case CreateDevice =>
      if !r.ok then Told(s.(ready := false), callback)
      else Asking(s.(modem := s.modem.(created := true, open := false)), OpenDevice)
    case OpenDevice =>
      if !r.ok then Told(s.(ready := false), callback)
      else OpenDms(s.(modem := s.modem.(open := true), ready := true))
    case Allocate(service) =>
      if !r.ok then Told(s, callback)
      else
        var t := Granted(s, service);
        (match service
         case Dms => Asking(t, GetRevision)
         case Wds => OpenNas(t, callback)
         case Nas => Scanned(t, callback))
    case GetRevision => Asking(s, GetVersion)
    case GetVersion => Asking(s, GetIds)
    case GetIds => Asking(s, GetMode)
    case GetMode => OpenWds(s.(mode := if r.ok then r.mode else Offline), callback)
  }

  function Heard(p: Progress, r: Reply): Progress
    requires p.holder.Some?
  {
    p.(log := p.log + [Answer(p.holder.value, r.ok)])
  }

  function Answered(p: Progress, callback: bool, r: Reply): Progress
    requires p.holder.Some?
  {
    Settled(Heard(p, r), p.holder.value, callback, r)
  }

  function Run(p: Progress, callback: bool, replies: seq<Reply>): Progress
    decreases |replies|
  {
    if p.holder.None? || replies == [] then p else Run(Answered(p, callback, replies[0]), callback, replies[1..])
  }

  // ---- The machine ----

  const BEGIN: nat := 1
  const DEVICE_OPEN: nat := 2
  const DMS_OPEN: nat := 3
  const GET_REVISION: nat := 4
  const GET_VERSION: nat := 5
  const GET_IMEI: nat := 6
  const GET_OPERATING_MODE: nat := 7
  const WDS_OPEN: nat := 8
  const GET_CAPABILITIES: nat := 9
  const NAS_OPEN: nat := 10
  const REGISTER_INDICATIONS: nat := 11
  const NETWORK_SCAN_INIT: nat := 12
  const NOTIFY: nat := 13

  // The step a request is made at; creating and opening the device share one.
  function StepOf(q: Request): nat {
    match q
    case CreateDevice => DEVICE_OPEN
    case OpenDevice => DEVICE_OPEN
    case Allocate(Dms) => DMS_OPEN
    case GetRevision => GET_REVISION
    case GetVersion => GET_VERSION
    case GetIds => GET_IMEI
    case GetMode => GET_OPERATING_MODE
    case Allocate(Wds) => WDS_OPEN
    case Allocate(Nas) => NAS_OPEN
  }

  class QmiContext {
    var deviceCreated: bool
    var deviceOpen: bool
    var validDmsClient: bool
    var validWdsClient: bool
    var validNasClient: bool
    var log: seq<Action>

    constructor ()
      ensures View() == Modem(false, false, {}) && log == []
    {
      deviceCreated, deviceOpen, validDmsClient, validWdsClient, validNasClient := false, false, false, false, false;
      log := [];
    }

    ghost function View(): Modem
      reads this
    {
      Modem(deviceCreated, deviceOpen,
            (if validDmsClient then {Dms} else {}) + (if validWdsClient then {Wds} else {})
            + (if validNasClient then {Nas} else {}))
    }
  }

  class OpenTask {
    const context: QmiContext
    const callback: bool
    var currentStep: nat
    var openStatusReady: bool
    var operatingMode: Mode
    var pending: Option<Request>
    var references: nat

    constructor (context: QmiContext, callback: bool, openStatusReady: bool, operatingMode: Mode)
      ensures this.context == context && this.callback == callback
      ensures this.openStatusReady == openStatusReady && this.operatingMode == operatingMode
      ensures currentStep == BEGIN && Running()
    {
      this.context, this.callback := context, callback;
      this.openStatusReady, this.operatingMode := openStatusReady, operatingMode;
      currentStep, pending, references := BEGIN, None, 1;
    }

    ghost predicate Running()
      reads this
    {
      pending.None? && references == 1
    }

    ghost predicate Valid()
      reads this
    {
      if pending.Some? then references == 1 && currentStep == StepOf(pending.value) else references == 0
    }

    ghost function View(): Progress
      reads this, context
    {
      Progress(context.View(), openStatusReady, operatingMode, pending, context.log)
    }

    method Send(q: Request)
      requires Running() && currentStep == StepOf(q)
      modifies this`pending, context`log
      ensures Valid() && View() == Asking(old(View()), q)
    {
      pending, context.log := Some(q), context.log + [Ask(q)];
    }

    /** Steps up to the first query. */
    method StepToQueries()
      requires Running() && BEGIN <= currentStep <= DMS_OPEN
      modifies this, context
      ensures Valid() && currentStep >= old(currentStep)
      ensures View() == if old(currentStep) == DMS_OPEN then OpenDms(old(View()))
                        else Begin(old(context.View()), old(context.log), old(openStatusReady), old(operatingMode))
    {
      if currentStep == BEGIN {
        currentStep := currentStep + 1;
      }
      if currentStep == DEVICE_OPEN {
        if context.deviceCreated && context.deviceOpen {
          openStatusReady := true;
        } else {
          Send(CreateDevice);
          return;
        }
        currentStep := currentStep + 1;
      }
      if currentStep == DMS_OPEN {
        if !context.validDmsClient {
          Send(Allocate(Dms));
          return;
        }
        currentStep := currentStep + 1;
      }
      Send(GetRevision);
    }

    /** The last steps, once no client is missing or one was refused. */
    method Finish()
      requires Running() && (currentStep == REGISTER_INDICATIONS || currentStep == NOTIFY)
      modifies this, context
      ensures Valid() && currentStep > old(currentStep)
      ensures View() == if old(currentStep) == NOTIFY then Told(old(View()), callback)
                        else Scanned(old(View()), callback)
    {
      if currentStep == REGISTER_INDICATIONS {
        currentStep := currentStep + 1;
      }
      if currentStep == NETWORK_SCAN_INIT {
        context.log := context.log + [StartScan];
        currentStep := currentStep + 1;
      }
      if callback {
        context.log := context.log + [Notify(openStatusReady, operatingMode == Online)];
      }
      currentStep := currentStep + 1;
      references, context.log := references - 1, context.log + [Release];
    }

    /** Steps through the last two clients to the end. */
    method StepToEnd()
      requires Running() && (currentStep == WDS_OPEN || currentStep == GET_CAPABILITIES)
      modifies this, context
      ensures Valid() && currentStep >= old(currentStep)
      ensures View() == if old(currentStep) == WDS_OPEN then OpenWds(old(View()), callback)
                        else OpenNas(old(View()), callback)
    {
      if currentStep == WDS_OPEN {
        if !context.validWdsClient {
          Send(Allocate(Wds));
          return;
        }
        currentStep := currentStep + 1;
      }
      currentStep := currentStep + 1;
      if !context.validNasClient {
        Send(Allocate(Nas));
        return;
      }
      currentStep := currentStep + 1;
      Finish();
    }

    method JumpToNotify()
      requires Running() && currentStep < NOTIFY
      modifies this, context
      ensures Valid() && currentStep >= NOTIFY && View() == Told(old(View()), callback)
    {
      currentStep := NOTIFY;
      Finish();
    }

    /** The completion of the request in flight, by the callback it was sent with. */
    method Complete(r: Reply)
      requires Valid() && pending.Some?
      modifies this, context
      ensures Valid() && View() == Answered(old(View()), callback, r)
      ensures currentStep > old(currentStep) || (currentStep == DEVICE_OPEN && pending == Some(OpenDevice))
    {
      var request := pending.value;
      pending, context.log := None, context.log + [Answer(request, r.ok)];
      match request {
        case CreateDevice => OnDeviceCreated(r);
        case OpenDevice => OnDeviceOpened(r);
        case Allocate(service) => OnClient(service, r);
        case GetMode => OnOperatingMode(r);
        case _ => OnQuery();
      }
    }

    /** A run of the machine, from its first step under a script of completions. */
    method RunAll(replies: seq<Reply>)
      requires Running() && currentStep == BEGIN
      modifies this, context
      ensures Valid()
      ensures View() == Run(Begin(old(context.View()), old(context.log), old(openStatusReady), old(operatingMode)),
                            callback, replies)
    {
      StepToQueries();
      Drive(replies);
    }

    method Drive(replies: seq<Reply>)
      requires Valid()
      modifies this, context
      ensures Valid() && View() == Run(old(View()), callback, replies)
      decreases |replies|
    {
      if pending.Some? && replies != [] {
        Complete(replies[0]);
        Drive(replies[1..]);
      }
    }

    method OnDeviceCreated(r: Reply)
      requires Running() && currentStep == DEVICE_OPEN
      modifies this, context
      ensures Valid()
      ensures View() == if !r.ok then Told(old(View()).(ready := false), callback)
                        else Asking(old(View()).(modem := old(View()).modem.(created := true, open := false)), OpenDevice)
      ensures currentStep > old(currentStep) || (currentStep == DEVICE_OPEN && pending == Some(OpenDevice))
    {
      if !r.ok {
        openStatusReady := false;
        JumpToNotify();
        return;
      }
      context.deviceCreated, context.deviceOpen := true, false;
      Send(OpenDevice);
    }

    method OnDeviceOpened(r: Reply)
      requires Running() && currentStep == DEVICE_OPEN
      modifies this, context
      ensures Valid() && currentStep > old(currentStep)
      ensures View() == if !r.ok then Told(old(View()).(ready := false), callback)
                        else OpenDms(old(View()).(modem := old(View()).modem.(open := true), ready := true))
    {
      if !r.ok {
        openStatusReady := false;
        JumpToNotify();
        return;
      }
      context.deviceOpen, openStatusReady := true, true;
      currentStep := currentStep + 1;
      StepToQueries();
    }

    method OnClient(service: Service, r: Reply)
      requires Running() && currentStep == StepOf(Allocate(service))
      modifies this, context
      ensures Valid() && currentStep > old(currentStep)
      ensures var s := old(View());
              View() == if !r.ok then Told(s, callback)
                        else if service == Dms then Asking(Granted(s, Dms), GetRevision)
                        else if service == Wds then OpenNas(Granted(s, Wds), callback)
                        else Scanned(Granted(s, Nas), callback)
    {
      if !r.ok {
        JumpToNotify();
        return;
      }
      match service {
        case Dms =>
          context.validDmsClient := true;
        case Wds =>
          context.validWdsClient := true;
        case Nas =>
          context.validNasClient := true;
      }
      assert context.View() == Granted(old(View()), service).modem;
      currentStep := currentStep + 1;
      match service {
        case Dms => Send(GetRevision);
        case Wds => StepToEnd();
        case Nas => Finish();
      }
    }

    method OnQuery()
      requires Running() && GET_REVISION <= currentStep <= GET_IMEI
      modifies this, context
      ensures Valid() && currentStep > old(currentStep)
      ensures View() == Asking(old(View()), if old(currentStep) == GET_REVISION then GetVersion
                                            else if old(currentStep) == GET_VERSION then GetIds else GetMode)
    {
      currentStep := currentStep + 1;
      if currentStep == GET_VERSION {
        Send(GetVersion);
      } else if currentStep == GET_IMEI {
        Send(GetIds);
      } else {
        Send(GetMode);
      }
    }

    method OnOperatingMode(r: Reply)
      requires Running() && currentStep == GET_OPERATING_MODE
      modifies this, context
      ensures Valid() && currentStep > old(currentStep)
      ensures View() == OpenWds(old(View()).(mode := if r.ok then r.mode else Offline), callback)
    {
      operatingMode := Offline;
      if r.ok {
        operatingMode := r.mode;
      }
      currentStep := currentStep + 1;
      StepToEnd();
    }
  }
}
