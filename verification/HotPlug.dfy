/**
 Swapping the HAL under its callers: the udev thread writes and clears the function table, other threads call through
 it, and one mutex stands between them. Every step below is one the threads can take.
 */
module HotPlug {
  import opened Wrappers

  datatype Vendor = Rndis | ModemManager

  datatype DeviceType = UnknownType | UsbModem | UsbRndis

  datatype Status = Removed | Attached

  // A function table: for every entry, whose function it holds, if any.
  type Table = seq<Option<Vendor>>

  const ENTRIES := 35

  // The profile list, the signal, the identities, the firmware version and the network queries.
  predicate RndisGap(k: nat) {
    k in [13, 16] || 18 <= k <= 21 || 26 <= k <= 31
  }

  function Empty(): (t: Table)
    ensures |t| == ENTRIES
  {
    seq(ENTRIES, _ => None)
  }

  function TableOf(v: Vendor): (t: Table)
    ensures |t| == ENTRIES
  {
    match v
    case Rndis => seq(ENTRIES, k => if 0 <= k && RndisGap(k) then None else Some(Rndis))
    case ModemManager => seq(ENTRIES, _ => Some(ModemManager))
  }

  function Whole(v: Option<Vendor>): (t: Table)
    ensures |t| == ENTRIES
  {
    if v.None? then Empty() else TableOf(v.value)
  }

  function TypeOf(v: Option<Vendor>): DeviceType {
    match v
    case None => UnknownType
    case Some(Rndis) => UsbRndis
    case Some(ModemManager) => UsbModem
  }

  function VendorOf(driver: string): Option<Vendor> {
    if driver in {"ipheth", "cdc_ether", "rndis_host"} then Some(Rndis)
    else if driver in {"huawei_cdc_ncm", "cdc_ncm", "qmi_wwan", "cdc_mbim"} then Some(ModemManager)
    else None
  }

  // What the udev thread is doing: nothing, waiting for the mutex, or writing entries with it.
  datatype Handler = Idle | Wanting(goal: Option<Vendor>) | Writing(goal: Option<Vendor>, next: nat)

  datatype Holder = Free | ByHandler | ByCaller(entry: nat)

  // Swaps, calls, and what each call went to.
  datatype Action = Swapped(to: Option<Vendor>) | Called(entry: nat, function_: Option<Vendor>)

  datatype State = State(
    table: Table,
    status: Status,
    deviceType: DeviceType,
    handler: Handler,
    holder: Holder,
    log: seq<Action>)

  datatype Event =
    | UdevAdd(driver: string)
    | UdevRemove(driver: string)
    | HandlerLocks
    | HandlerWrites
    | HandlerUnlocks
    | CallerLocks(entry: nat)
    | CallerCalls
    | CallerUnlocks

  function Fresh(): State {
    State(Empty(), Removed, UnknownType, Idle, Free, [])
  }

  function Next(s: State, e: Event): State {
    match e
    case UdevAdd(driver) =>
      if s.handler == Idle && VendorOf(driver).Some? && s.status == Removed then
        s.(deviceType := TypeOf(VendorOf(driver)), handler := Wanting(VendorOf(driver)))
      else s
    case UdevRemove(driver) =>
      if s.handler == Idle && VendorOf(driver).Some? && s.status == Attached then
        s.(deviceType := UnknownType, handler := Wanting(None))
      else s
    case HandlerLocks =>
      if s.handler.Wanting? && s.holder == Free then s.(handler := Writing(s.handler.goal, 0), holder := ByHandler) else s
    case HandlerWrites =>
      if s.handler.Writing? && s.handler.next < ENTRIES && s.handler.next < |s.table| then
        var k := s.handler.next;
        s.(table := s.table[k := Whole(s.handler.goal)[k]], handler := s.handler.(next := k + 1))
      else s
    case HandlerUnlocks =>
      if s.handler.Writing? && s.handler.next == ENTRIES then
        s.(status := if s.handler.goal.Some? then Attached else Removed, handler := Idle, holder := Free,
           log := s.log + [Swapped(s.handler.goal)])
      else s
    case CallerLocks(entry) =>
      if s.holder == Free && entry < ENTRIES then s.(holder := ByCaller(entry)) else s
    case CallerCalls =>
      if s.holder.ByCaller? && s.holder.entry < |s.table| then
        s.(log := s.log + [Called(s.holder.entry, s.table[s.holder.entry])])
      else s
    case CallerUnlocks =>
      if s.holder.ByCaller? then s.(holder := Free) else s
  }

  function Run(s: State, events: seq<Event>): State
    decreases |events|
  {
    if events == [] then s else Run(Next(s, events[0]), events[1..])
  }

  // ---- What every interleaving keeps ----

  // The vendor of the last swap.
  function Installed(log: seq<Action>): Option<Vendor> {
    if log == [] then None
    else if log[|log| - 1].Swapped? then log[|log| - 1].to
    else Installed(log[..|log| - 1])
  }

  function Mixed(goal: Table, now: Table, next: nat): Table
    requires next <= |goal| == |now|
  {
    goal[..next] + now[next..]
  }

  lemma MixedSteps(goal: Table, now: Table, next: nat)
    requires next <= |goal| == |now|
    ensures Mixed(goal, now, 0) == now && Mixed(goal, now, |goal|) == goal
    ensures next < |goal| ==> Mixed(goal, now, next)[next := goal[next]] == Mixed(goal, now, next + 1)
  {
  }

  // A swap under way has written a prefix of its goal over the table before it.
  ghost predicate Consistent(s: State) {
    var now := Installed(s.log);
    && |s.table| == ENTRIES
    && (s.status == Attached <==> now.Some?)
    && (s.holder == ByHandler <==> s.handler.Writing?)
    && (match s.handler
        case Idle => s.table == Whole(now) && s.deviceType == TypeOf(now)
        case Wanting(goal) => s.table == Whole(now) && s.deviceType == TypeOf(goal) && (goal.Some? <==> now.None?)
        case Writing(goal, next) =>
          && next <= ENTRIES && s.deviceType == TypeOf(goal) && (goal.Some? <==> now.None?)
          && s.table == Mixed(Whole(goal), Whole(now), next))
    && (s.holder.ByCaller? ==> s.holder.entry < ENTRIES)
  }

  // Every call went where the table installed at the time says.
  ghost predicate CallsInstalled(log: seq<Action>) {
    forall i :: 0 <= i < |log| && log[i].Called? ==>
      log[i].entry < ENTRIES && log[i].function_ == Whole(Installed(log[..i]))[log[i].entry]
  }

  lemma InstalledNext(log: seq<Action>, a: Action)
    ensures Installed(log + [a]) == if a.Swapped? then a.to else Installed(log)
  {
    assert (log + [a])[..|log|] == log;
  }

  lemma UdevConsistent(s: State, e: Event)
    requires Consistent(s) && (e.UdevAdd? || e.UdevRemove?)
    ensures Consistent(Next(s, e))
  {
  }

  lemma HandlerConsistent(s: State, e: Event)
    requires Consistent(s) && (e == HandlerLocks || e == HandlerWrites || e == HandlerUnlocks)
    ensures Consistent(Next(s, e))
  {
    var now := Whole(Installed(s.log));
    if s.handler.Wanting? {
      MixedSteps(Whole(s.handler.goal), now, 0);
    } else if s.handler.Writing? {
      MixedSteps(Whole(s.handler.goal), now, s.handler.next);
      InstalledNext(s.log, Swapped(s.handler.goal));
    }
  }

  lemma CallerConsistent(s: State, e: Event)
    requires Consistent(s) && (e.CallerLocks? || e == CallerCalls || e == CallerUnlocks)
    ensures Consistent(Next(s, e))
  {
    if e == CallerCalls && s.holder.ByCaller? {
      InstalledNext(s.log, Called(s.holder.entry, s.table[s.holder.entry]));
    }
  }

  lemma NextConsistent(s: State, e: Event)
    requires Consistent(s)
    ensures Consistent(Next(s, e))
  {
    if e.UdevAdd? || e.UdevRemove? {
      UdevConsistent(s, e);
    } else if e.HandlerLocks? || e.HandlerWrites? || e.HandlerUnlocks? {
      HandlerConsistent(s, e);
    } else {
      CallerConsistent(s, e);
    }
  }

  lemma NextCallsInstalled(s: State, e: Event)
    requires Consistent(s) && CallsInstalled(s.log)
    ensures CallsInstalled(Next(s, e).log)
  {
    var t := Next(s, e);
    if |t.log| > |s.log| {
      assert t.log[..|s.log|] == s.log;
      forall i | 0 <= i < |t.log| && t.log[i].Called?
        ensures t.log[i].entry < ENTRIES && t.log[i].function_ == Whole(Installed(t.log[..i]))[t.log[i].entry]
      {
        if i < |s.log| {
          assert t.log[i] == s.log[i] && t.log[..i] == s.log[..i];
        }
      }
    }
  }

  lemma {:induction false} RunConsistent(s: State, events: seq<Event>)
    requires Consistent(s) && CallsInstalled(s.log)
    ensures Consistent(Run(s, events)) && CallsInstalled(Run(s, events).log)
    decreases |events|
  {
    if events != [] {
      NextConsistent(s, events[0]);
      NextCallsInstalled(s, events[0]);
      RunConsistent(Next(s, events[0]), events[1..]);
    }
  }

  /**
   In every interleaving of udev events and calls: whenever the handler is not holding the mutex the table is whole,
   empty exactly when the status is REMOVED; between events the device type names the table; and every call goes to
   the entry of the table installed at the time, or to none where that table has none.
   */
  lemma HotPlugConsistent(events: seq<Event>)
    ensures var t := Run(Fresh(), events);
            && (t.holder != ByHandler ==>
                  && t.table == Whole(Installed(t.log))
                  && (t.table == Empty() <==> t.status == Removed))
            && (t.handler == Idle ==> t.deviceType == TypeOf(Installed(t.log)))
            && CallsInstalled(t.log)
  {
    RunConsistent(Fresh(), events);
    var t := Run(Fresh(), events);
    assert TableOf(Rndis)[0] == Some(Rndis) && TableOf(ModemManager)[0] == Some(ModemManager) && Empty()[0] == None;
  }

  // ---- Whole turns of the handler ----

  function Written(s: State, turns: nat): State
    decreases turns
  {
    if turns == 0 then s else Next(Written(s, turns - 1), HandlerWrites)
  }

  lemma {:induction false} WrittenPrefix(s: State, turns: nat)
    requires Consistent(s) && s.handler.Writing? && s.handler.next == 0 && turns <= ENTRIES
    ensures Consistent(Written(s, turns))
    ensures Written(s, turns) == s.(table := Written(s, turns).table, handler := Writing(s.handler.goal, turns))
    decreases turns
  {
    if turns > 0 {
      WrittenPrefix(s, turns - 1);
      NextConsistent(Written(s, turns - 1), HandlerWrites);
    }
  }

  // The mutex taken, every entry written, the status set and the mutex given back.
  function Swap(s: State): State {
    Next(Written(Next(s, HandlerLocks), ENTRIES), HandlerUnlocks)
  }

  lemma SwapTurn(s: State, goal: Option<Vendor>)
    requires Consistent(s) && s.handler == Wanting(goal) && s.holder == Free
    ensures Swap(s) == s.(table := Whole(goal), status := if goal.Some? then Attached else Removed, handler := Idle,
                          log := s.log + [Swapped(goal)])
  {
    var locked := Next(s, HandlerLocks);
    HandlerConsistent(s, HandlerLocks);
    WrittenPrefix(locked, ENTRIES);
    var written := Written(locked, ENTRIES);
    assert written.handler == Writing(goal, ENTRIES);
    MixedSteps(Whole(goal), Whole(Installed(written.log)), ENTRIES);
    assert written.table == Whole(goal);
  }

  /** Plugging in a supported driver installs its vendor's whole table, if none is installed. */
  lemma AddInstalls(s: State, driver: string)
    requires Consistent(s) && s.handler == Idle && s.holder == Free && s.status == Removed
    requires VendorOf(driver).Some?
    ensures var t := Swap(Next(s, UdevAdd(driver)));
            && t.table == TableOf(VendorOf(driver).value) && t.status == Attached
            && t.deviceType == TypeOf(VendorOf(driver)) && t.handler == Idle && t.holder == Free
  {
    UdevConsistent(s, UdevAdd(driver));
    SwapTurn(Next(s, UdevAdd(driver)), VendorOf(driver));
  }

  /** Unplugging any supported driver clears whatever is installed, the other vendor's table too. */
  lemma AnyRemovalClears(s: State, driver: string)
    requires Consistent(s) && s.handler == Idle && s.holder == Free && s.status == Attached
    requires VendorOf(driver).Some?
    ensures var t := Swap(Next(s, UdevRemove(driver)));
            && t.table == Empty() && t.status == Removed && t.deviceType == UnknownType
            && t.handler == Idle && t.holder == Free
  {
    UdevConsistent(s, UdevRemove(driver));
    SwapTurn(Next(s, UdevRemove(driver)), None);
  }

  // ---- Which driver brings which functions ----

  /** The drivers of the two vendors, by name; any other changes nothing. */
  lemma DriversExactly(s: State, driver: string)
    ensures VendorOf(driver) == Some(Rndis) <==> driver == "ipheth" || driver == "cdc_ether" || driver == "rndis_host"
    ensures VendorOf(driver) == Some(ModemManager)
            <==>
            driver == "huawei_cdc_ncm" || driver == "cdc_ncm" || driver == "qmi_wwan" || driver == "cdc_mbim"
    ensures VendorOf(driver).None? ==> Next(s, UdevAdd(driver)) == s && Next(s, UdevRemove(driver)) == s
  {
  }

  /**
   After an RNDIS driver is plugged in every entry is the RNDIS function, or none for the entries it lacks; after a modem
   driver every entry is the modem's; and the device type says which.
   */
  lemma PluggedExactly(s: State, driver: string, k: nat)
    requires Consistent(s) && s.handler == Idle && s.holder == Free && s.status == Removed && k < ENTRIES
    ensures var t := Swap(Next(s, UdevAdd(driver)));
            && (driver == "ipheth" || driver == "cdc_ether" || driver == "rndis_host" ==>
                  && t.deviceType == UsbRndis && t.status == Attached && |t.table| == ENTRIES
                  && t.table[k] == if k == 13 || k == 16 || 18 <= k <= 21 || 26 <= k <= 31 then None else Some(Rndis))
            && (driver == "huawei_cdc_ncm" || driver == "cdc_ncm" || driver == "qmi_wwan" || driver == "cdc_mbim" ==>
                  && t.deviceType == UsbModem && t.status == Attached && |t.table| == ENTRIES
                  && t.table[k] == Some(ModemManager))
  {
    DriversExactly(s, driver);
    if VendorOf(driver).Some? {
      AddInstalls(s, driver);
    }
  }
}
