/**
 Starting and stopping the packet data network, one session per IP family.
 The protocols here work on the session of a family, whichever it is; the code of module
 NetworkMachine spells every step out twice, over two sets of fields.
 */
module NetworkProtocol {
  import opened Wrappers

  datatype Family = IPv4 | IPv6

  function Other(f: Family): Family { if f == IPv4 then IPv6 else IPv4 }

  const INVALID_HANDLE: nat := 0xFFFF_FFFF
  const INVALID_EVENT: nat := 0

  datatype Session = Session(
    client: Option<nat>,
    eventId: nat,
    serviceId: nat,
    handle: nat,
    starting: bool,
    stopping: bool)

  const IDLE := Session(None, INVALID_EVENT, INVALID_EVENT, INVALID_HANDLE, false, false)

  datatype Wds = Wds(v4: Session, v6: Session, rat: string)
  {
    function Of(f: Family): Session { if f == IPv4 then v4 else v6 }

    function With(f: Family, s: Session): Wds {
      if f == IPv4 then this.(v4 := s) else this.(v6 := s)
    }
  }

  datatype Request =
    | AllocateClient
    | SetIpFamily
    | RegisterEvents
    | StartNetwork
    | GetLease
    | GetTechnology
    | StopNetwork(session: Family, handle: nat)

  // A completed request: failed, or with what its callback reads.
  datatype Reply = Reply(ok: bool, client: nat, eventId: nat, serviceId: nat, handle: Option<nat>, technology: string)

  datatype Notice = IpReady | IpNotReady

  // Requests say which client they were sent on; a cleanup says whose event or client it was.
  datatype Action =
    | Ask(request: Request, client: Option<nat>)
    | Answer(reply: Reply)
    | Notify(notice: Notice)
    | Disconnect(session: Family, event: nat)
    | ReleaseClient(session: Family, held: nat)
    | Release

  // A task at rest: held by a request, or released.
  datatype Progress = Progress(wds: Wds, holder: Option<Request>, log: seq<Action>)

  // ---- Start ----

  const START_BEGIN: nat := 1
  const START_ALLOCATE: nat := 2
  const START_CONFIGURE: nat := 3
  const START_REGISTER: nat := 4
  const START_NETWORK: nat := 5
  const START_LEASE: nat := 6
  const START_RAT: nat := 7
  const START_END: nat := 8

  function StepOf(q: Request): nat {
    match q
    case AllocateClient => START_ALLOCATE
    case SetIpFamily => START_CONFIGURE
    case RegisterEvents => START_REGISTER
    case StartNetwork => START_NETWORK
    case GetLease => START_LEASE
    case GetTechnology => START_RAT
    case StopNetwork(_, _) => START_END
  }

  function Asking(w: Wds, log: seq<Action>, f: Family, q: Request): Progress {
    Progress(w, Some(q), log + [Ask(q, if q == AllocateClient then None else w.Of(f).client)])
  }

  function StartDone(w: Wds, log: seq<Action>, f: Family): Progress {
    Progress(w.With(f, w.Of(f).(starting := false)), None, log + [Release])
  }

  // The guard looks at the IPv4 client for either family.
  function Opening(w: Wds, log: seq<Action>, f: Family): Progress {
    if w.v4.client.None? then Asking(w, log, f, AllocateClient) else Asking(w, log, f, SetIpFamily)
  }

  function Begun(w: Wds, f: Family): Wds { w.With(f, w.Of(f).(starting := true)) }

  function BeginStart(w: Wds, log: seq<Action>, f: Family): Progress {
    Opening(Begun(w, f), log, f)
  }

  // The completion of the request that holds a start task.
  function StartAnswered(p: Progress, f: Family, callback: bool, r: Reply): Progress
    requires p.holder.Some?
  {
    var w, s, log := p.wds, p.wds.Of(f), p.log + [Answer(r)];
    match p.holder.value
    case AllocateClient =>
      if !r.ok then StartDone(w, log, f) else Asking(w.With(f, s.(client := Some(r.client))), log, f, SetIpFamily)
    case SetIpFamily =>
      if !r.ok then StartDone(w, log, f) else Asking(w, log, f, RegisterEvents)
    case RegisterEvents =>
      Asking(w.With(f, s.(eventId := if r.ok then r.eventId else INVALID_EVENT, serviceId := r.serviceId)), log, f, StartNetwork)
    case StartNetwork =>
      if !r.ok then
        if callback then StartDone(w.With(f, s.(handle := INVALID_HANDLE)), log + [Notify(IpNotReady)], f)
        else StartDone(w, log, f)
      else
        Asking(w.With(f, s.(handle := r.handle.GetOr(s.handle))), log, f, GetLease)
    case GetLease =>
      if !r.ok then StartDone(w, log, f)
      else Asking(w, if callback then log + [Notify(IpReady)] else log, f, GetTechnology)
    case GetTechnology =>
      if !r.ok then StartDone(w, log, f) else StartDone(w.(rat := r.technology), log, f)
    case StopNetwork(_, _) => p
  }

  // A start task driven by its replies until they run out or it is released.
  function StartRun(p: Progress, f: Family, callback: bool, replies: seq<Reply>): Progress
    decreases |replies|
  {
    if p.holder.None? || replies == [] then p
    else StartRun(StartAnswered(p, f, callback, replies[0]), f, callback, replies[1..])
  }

  // ---- Stop ----

  // Dropping one of the two event registrations; an IPv4 stop that has none drops the IPv6 one.
  function EventVictim(w: Wds, f: Family): Option<Family> {
    if f == IPv4 && w.v4.eventId != INVALID_EVENT then Some(IPv4)
    else if w.v6.eventId != INVALID_EVENT then Some(IPv6)
    else None
  }

  function ServiceVictim(w: Wds, f: Family): Option<Family> {
    if f == IPv4 && w.v4.serviceId != INVALID_EVENT then Some(IPv4)
    else if w.v6.serviceId != INVALID_EVENT then Some(IPv6)
    else None
  }

  function NetworkVictim(w: Wds, f: Family): Option<Family> {
    if f == IPv4 && w.v4.handle != INVALID_HANDLE then Some(IPv4)
    else if w.v6.handle != INVALID_HANDLE then Some(IPv6)
    else None
  }

  function WithoutEvent(w: Wds, f: Family): Wds {
    match EventVictim(w, f)
    case None => w
    case Some(v) => w.With(v, w.Of(v).(eventId := INVALID_EVENT))
  }

  function WithoutService(w: Wds, f: Family): Wds {
    match ServiceVictim(w, f)
    case None => w
    case Some(v) => w.With(v, w.Of(v).(serviceId := INVALID_EVENT))
  }

  // Both registrations gone: a family loses its own, and an IPv6 one goes with an IPv4 stop that lacks its own.
  function Deregistered(w: Wds, f: Family): (u: Wds)
    ensures u.v4 == if f == IPv4 then w.v4.(eventId := INVALID_EVENT, serviceId := INVALID_EVENT) else w.v4
    ensures u.v6 == w.v6.(eventId := u.v6.eventId, serviceId := u.v6.serviceId)
    ensures u.v6.eventId == if f == IPv6 || w.v4.eventId == INVALID_EVENT then INVALID_EVENT else w.v6.eventId
    ensures u.v6.serviceId == if f == IPv6 || w.v4.serviceId == INVALID_EVENT then INVALID_EVENT else w.v6.serviceId
    ensures u.rat == w.rat
  {
    WithoutService(WithoutEvent(w, f), f)
  }

  function Dropped(w: Wds, f: Family): seq<Action> {
    (match EventVictim(w, f) case None => [] case Some(v) => [Disconnect(v, w.Of(v).eventId)])
    + (match ServiceVictim(w, f) case None => [] case Some(v) => [Disconnect(v, w.Of(v).serviceId)])
  }

  // Without any client left there is no technology either.
  function Freed(w: Wds, f: Family): Wds {
    var u := w.With(f, w.Of(f).(client := None));
    if u.v4.client.None? && u.v6.client.None? then u.(rat := "") else u
  }

  function GivenBack(w: Wds, f: Family): seq<Action> {
    match w.Of(f).client
    case None => []
    case Some(c) => [ReleaseClient(f, c)]
  }

  // Giving the client back and taking the flag down.
  function Closed(w: Wds, f: Family): (u: Wds)
    ensures u.Of(f) == w.Of(f).(client := None, stopping := false) && u.Of(Other(f)) == w.Of(Other(f))
    ensures u.rat == if w.Of(Other(f)).client.None? then "" else w.rat
  {
    var u := Freed(w, f);
    u.With(f, u.Of(f).(stopping := false))
  }

  function StopDone(w: Wds, log: seq<Action>, f: Family): Progress {
    Progress(Closed(w, f), None, log + GivenBack(w, f) + [Release])
  }

  function BeginStop(w: Wds, log: seq<Action>, f: Family): Progress {
    var u := w.With(f, w.Of(f).(stopping := true));
    var v := Deregistered(u, f);
    match NetworkVictim(v, f)
    case None => StopDone(v, log + Dropped(u, f), f)
    case Some(g) =>
      Progress(v, Some(StopNetwork(g, v.Of(g).handle)),
               log + Dropped(u, f) + [Ask(StopNetwork(g, v.Of(g).handle), v.Of(g).client)])
  }

  // The stop request has completed, well or badly: the handle of the requested family is gone.
  function StopAnswered(p: Progress, f: Family, r: Reply): Progress {
    StopDone(p.wds.With(f, p.wds.Of(f).(handle := INVALID_HANDLE)), p.log + [Answer(r)], f)
  }

  // A stop task; it waits for at most one reply.
  function StopRun(w: Wds, log: seq<Action>, f: Family, r: Reply): Progress {
    var p := BeginStop(w, log, f);
    if p.holder.Some? then StopAnswered(p, f, r) else p
  }
}
