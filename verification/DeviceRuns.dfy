/** Whole runs of opening the modem, and sequences of runs. */
module DeviceRuns {
  import opened Wrappers
  import opened DeviceConversation
  import opened DeviceOpen

  const REQUESTS: nat := 9

  // ---- What the caller is told ----

  // Whether a conversation ends with the modem online.
  function Says(line: seq<Request>, online: bool, a: seq<Reply>): bool
    requires |a| >= |line|
    decreases |line|
  {
    if line == [] || (!a[0].ok && !Query(line[0])) then online
    else Says(line[1..], if line[0] == GetMode then a[0].ok && a[0].mode == Online else online, a[1..])
  }

  lemma {:induction false} SaysKept(line: seq<Request>, online: bool, a: seq<Reply>)
    requires |a| >= |line| && GetMode !in line
    ensures Says(line, online, a) == online
    decreases |line|
  {
    if line != [] { SaysKept(line[1..], online, a[1..]); }
  }

  ghost predicate Reached(line: seq<Request>, k: nat, a: seq<Reply>)
    requires k <= |line| <= |a|
  {
    forall i :: 0 <= i < k ==> a[i].ok || Query(line[i])
  }

  lemma ReachedLater(line: seq<Request>, k: nat, a: seq<Reply>)
    requires 0 < k <= |line| <= |a|
    ensures Reached(line, k, a) <==> (a[0].ok || Query(line[0])) && Reached(line[1..], k - 1, a[1..])
  {
    if Reached(line[1..], k - 1, a[1..]) {
      forall i | 0 < i < k
        ensures a[i].ok || Query(line[i])
      {
        assert a[1..][i - 1] == a[i] && line[1..][i - 1] == line[i];
      }
    }
  }

  // The mode said is the one answered, if the query at k is come to.
  lemma {:induction false} SaysAt(line: seq<Request>, k: nat, online: bool, a: seq<Reply>)
    requires k < |line| <= |a|
    requires line[k] == GetMode && GetMode !in line[..k] && GetMode !in line[k + 1..]
    ensures Says(line, online, a) == if Reached(line, k, a) then a[k].ok && a[k].mode == Online else online
    decreases k
  {
    if k == 0 {
      SaysKept(line[1..], a[0].ok && a[0].mode == Online, a[1..]);
    } else {
      ReachedLater(line, k, a);
      assert line[0] in line[..k];
      if a[0].ok || Query(line[0]) {
        assert line[1..][..k - 1] == line[..k][1..] && line[1..][k..] == line[k + 1..];
        SaysAt(line[1..], k - 1, online, a[1..]);
      }
    }
  }

  // Everything before the last words.
  lemma {:induction false} SpokenEnds(line: seq<Request>, m: Modem, online: bool, callback: bool, a: seq<Reply>)
      returns (quiet: seq<Action>)
    requires |a| >= |line|
    ensures forall x :: x in quiet ==> !x.Notify? && !x.Release?
    ensures var talk := Spoken(line, m, online, callback, a);
            talk.over && talk.said == quiet + Farewell(talk.modem, Says(line, online, a), callback)
    decreases |line|
  {
    if line == [] {
      quiet := [StartScan];
    } else {
      var heard := [Ask(line[0]), Answer(line[0], a[0].ok)];
      if !a[0].ok && !Query(line[0]) {
        quiet := heard;
      } else {
        var says := if line[0] == GetMode then a[0].ok && a[0].mode == Online else online;
        var before := SpokenEnds(line[1..], Gained(m, line[0]), says, callback, a[1..]);
        quiet := heard + before;
        var later := Spoken(line[1..], Gained(m, line[0]), says, callback, a[1..]);
        var last := Farewell(later.modem, Says(line, online, a), callback);
        assert heard + (before + last) == quiet + last;
      }
    }
  }

  // How many requests go before the query for the mode.
  function ModeAt(m: Modem): nat {
    (if m.created && m.open then 0 else 2) + (if Dms in m.clients then 0 else 1) + 3
  }

  lemma LineHasMode(m: Modem, replies: seq<Reply>)
    requires |replies| >= REQUESTS
    ensures var line, k := Line(m), ModeAt(m);
            && k < |line| <= REQUESTS
            && line[k] == GetMode && GetMode !in line[..k] && GetMode !in line[k + 1..]
            && (Reached(line, k, replies) <==> forall i :: 0 <= i < k - 3 ==> replies[i].ok)
  {
    var line, k := Line(m), ModeAt(m);
    var first := (if m.created && m.open then [] else [CreateDevice, OpenDevice])
                 + (if Dms in m.clients then [] else [Allocate(Dms)]);
    assert line == first + [GetRevision, GetVersion, GetIds, GetMode] + WdsLine(m);
    assert line[..k] == first + [GetRevision, GetVersion, GetIds] && line[k + 1..] == WdsLine(m);
    assert forall i :: 0 <= i < k ==> line[i] == line[..k][i];
    assert forall i :: 0 <= i < k - 3 ==> !Query(line[i]);
    assert forall i :: k - 3 <= i < k ==> Query(line[i]);
  }

  /**
   Whatever fails, a run with a callback notifies exactly once and releases its task once, both last: ready exactly when
   the device is then created and open, and online exactly when the modem answered its mode query so or, in a run that
   was refused before the query, when the run started so. Without a callback it only releases the task.
   */
  lemma OpenReportsOnce(m: Modem, callback: bool, ready: bool, mode: Mode, replies: seq<Reply>)
      returns (quiet: seq<Action>, online: bool)
    requires |replies| >= REQUESTS
    ensures forall x :: x in quiet ==> !x.Notify? && !x.Release?
    ensures var end := Run(Begin(m, [], ready, mode), callback, replies);
            && end.holder.None?
            && end.log == quiet + if callback then [Notify(end.modem.created && end.modem.open, online), Release] else [Release]
    ensures var k := (if m.created && m.open then 0 else 2) + (if Dms in m.clients then 0 else 1) + 3;
            online == if forall i :: 0 <= i < k - 3 ==> replies[i].ok then replies[k].ok && replies[k].mode == Online
                      else mode == Online
  {
    OpenConverses(m, callback, ready, mode, replies);
    LineHasMode(m, replies);
    online := Says(Line(m), mode == Online, replies);
    SaysAt(Line(m), ModeAt(m), mode == Online, replies);
    quiet := SpokenEnds(Line(m), m, mode == Online, callback, replies);
  }

  // ---- When the scan is started ----

  // The line asks for what is missing, each thing once.
  ghost predicate Lacks(line: seq<Request>, m: Modem) {
    && (forall i, j :: 0 <= i < j < |line| ==> line[i] != line[j])
    && (forall v :: Allocate(v) in line <==> v !in m.clients)
    && (OpenDevice in line <==> !(m.created && m.open))
    && (forall i :: 0 < i < |line| ==> line[i] != CreateDevice)
    && (OpenDevice in line && CreateDevice !in line ==> m.created)
  }

  lemma LacksLater(line: seq<Request>, m: Modem)
    requires Lacks(line, m) && line != [] && (CreateDevice in line ==> OpenDevice in line)
    ensures Lacks(line[1..], Gained(m, line[0]))
  {
    var rest := line[1..];
    assert forall q :: q in line <==> q == line[0] || q in rest by { assert line == [line[0]] + rest; }
    assert line[0] !in rest;
  }

  predicate AllHeld(m: Modem) {
    Dms in m.clients && Wds in m.clients && Nas in m.clients
  }

  lemma LacksNothing(m: Modem)
    requires Lacks([], m)
    ensures m.created && m.open && AllHeld(m)
  {
    var none: seq<Request> := [];
    assert Allocate(Dms) !in none && Allocate(Wds) !in none && Allocate(Nas) !in none;
  }

  lemma RefusedLacks(line: seq<Request>, m: Modem)
    requires Lacks(line, m) && (CreateDevice in line ==> OpenDevice in line)
    requires line != [] && !Query(line[0])
    ensures !(m.created && m.open && AllHeld(m))
  {
    match line[0]
    case Allocate(v) => assert Allocate(v) in line && (v == Dms || v == Wds || v == Nas);
    case CreateDevice => assert CreateDevice in line;
    case OpenDevice => assert OpenDevice in line;
    case _ => assert false;
  }

  lemma {:induction false} SpokenScans(line: seq<Request>, m: Modem, online: bool, callback: bool, a: seq<Reply>)
    requires |a| >= |line| && Lacks(line, m) && (CreateDevice in line ==> OpenDevice in line)
    ensures var talk := Spoken(line, m, online, callback, a);
            StartScan in talk.said
            <==> talk.modem.created && talk.modem.open && AllHeld(talk.modem)
    decreases |line|
  {
    if line == [] {
      LacksNothing(m);
    } else if a[0].ok || Query(line[0]) {
      var says := if line[0] == GetMode then a[0].ok && a[0].mode == Online else online;
      LacksLater(line, m);
      assert CreateDevice !in line[1..];
      SpokenScans(line[1..], Gained(m, line[0]), says, callback, a[1..]);
    } else {
      RefusedLacks(line, m);
    }
  }

  lemma LineAllocates(m: Modem, v: Service)
    ensures Allocate(v) in Line(m) <==> v !in m.clients
  {
    var line := Line(m);
    match v
    case Dms =>
      if v !in m.clients { assert line[if m.created && m.open then 0 else 2] == Allocate(Dms); }
    case Wds =>
      if v !in m.clients { assert line[ModeAt(m) + 1] == Allocate(Wds); }
    case Nas =>
      if v !in m.clients { assert line[|line| - 1] == Allocate(Nas); }
  }

  // Each request has its place in the line.
  function Place(q: Request): nat {
    match q
    case CreateDevice => 0
    case OpenDevice => 1
    case Allocate(Dms) => 2
    case GetRevision => 3
    case GetVersion => 4
    case GetIds => 5
    case GetMode => 6
    case Allocate(Wds) => 7
    case Allocate(Nas) => 8
  }

  lemma ClientsInPlace(m: Modem)
    ensures forall i :: 0 <= i < |WdsLine(m)| ==> Place(WdsLine(m)[i]) >= 7
    ensures forall i, j :: 0 <= i < j < |WdsLine(m)| ==> Place(WdsLine(m)[i]) < Place(WdsLine(m)[j])
  {
  }

  lemma QueriesInPlace(m: Modem)
    ensures forall i :: 0 <= i < |QueryLine(m)| ==> Place(QueryLine(m)[i]) >= 3
    ensures forall i, j :: 0 <= i < j < |QueryLine(m)| ==> Place(QueryLine(m)[i]) < Place(QueryLine(m)[j])
  {
    ClientsInPlace(m);
  }

  lemma DmsInPlace(m: Modem)
    ensures forall i :: 0 <= i < |DmsLine(m)| ==> Place(DmsLine(m)[i]) >= 2
    ensures forall i, j :: 0 <= i < j < |DmsLine(m)| ==> Place(DmsLine(m)[i]) < Place(DmsLine(m)[j])
  {
    QueriesInPlace(m);
  }

  lemma LineInPlace(m: Modem)
    ensures forall i, j :: 0 <= i < j < |Line(m)| ==> Place(Line(m)[i]) < Place(Line(m)[j])
    ensures OpenDevice in Line(m) <==> !(m.created && m.open)
    ensures CreateDevice in Line(m) <==> !(m.created && m.open)
  {
    DmsInPlace(m);
    if !(m.created && m.open) { assert Line(m)[0] == CreateDevice && Line(m)[1] == OpenDevice; }
  }

  lemma LineLacks(m: Modem)
    ensures Lacks(Line(m), m) && (CreateDevice in Line(m) ==> OpenDevice in Line(m))
  {
    LineInPlace(m);
    forall v
      ensures Allocate(v) in Line(m) <==> v !in m.clients
    {
      LineAllocates(m, v);
    }
  }

  /** A run starts the network scan exactly when the device is then open and all three clients are held. */
  lemma ScanStartedExactly(m: Modem, callback: bool, ready: bool, mode: Mode, replies: seq<Reply>)
    requires |replies| >= REQUESTS
    ensures var end := Run(Begin(m, [], ready, mode), callback, replies);
            StartScan in end.log
            <==> end.modem.created && end.modem.open
                 && Dms in end.modem.clients && Wds in end.modem.clients && Nas in end.modem.clients
  {
    OpenConverses(m, callback, ready, mode, replies);
    LineHasMode(m, replies);
    LineLacks(m);
    SpokenScans(Line(m), m, mode == Online, callback, replies);
  }

  // ---- When it is ready, and which mode it says ----

  lemma {:induction false} StaysOpen(p: Progress, callback: bool, replies: seq<Reply>)
    requires p.modem.created && p.modem.open
    requires p.holder.Some? ==> p.holder.value != CreateDevice && p.holder.value != OpenDevice
    ensures var end := Run(p, callback, replies).modem; end.created && end.open
    decreases |replies|
  {
    if p.holder.Some? && replies != [] {
      StaysOpen(Answered(p, callback, replies[0]), callback, replies[1..]);
    }
  }

  /** The device is open after a run exactly when it was before, or was created and opened by the run. */
  lemma ReadyExactly(m: Modem, callback: bool, ready: bool, mode: Mode, replies: seq<Reply>)
    requires |replies| >= REQUESTS
    ensures var end := Run(Begin(m, [], ready, mode), callback, replies).modem;
            end.created && end.open <==> (m.created && m.open) || (replies[0].ok && replies[1].ok)
  {
    var p := Begin(m, [], ready, mode);
    if m.created && m.open {
      StaysOpen(p, callback, replies);
    } else {
      var q := Answered(p, callback, replies[0]);
      if replies[0].ok {
        var s := Answered(q, callback, replies[1..][0]);
        assert Run(q, callback, replies[1..]) == Run(s, callback, replies[1..][1..]);
        if replies[1].ok {
          StaysOpen(s, callback, replies[2..]);
          assert replies[1..][1..] == replies[2..];
        }
      }
    }
  }

  // ---- Sequences of runs ----

  datatype Script = Script(callback: bool, ready: bool, mode: Mode, replies: seq<Reply>)

  // Runs one after the other, over one modem and one log.
  function History(m: Modem, log: seq<Action>, scripts: seq<Script>): Progress
    decreases |scripts|
  {
    if scripts == [] then Progress(m, false, Offline, None, log)
    else
      var p := Begin(m, log, scripts[0].ready, scripts[0].mode);
      var end := Run(p, scripts[0].callback, scripts[0].replies);
      History(end.modem, end.log, scripts[1..])
  }

  // How often a client was granted in a log.
  function Grants(log: seq<Action>, v: Service): nat {
    if log == [] then 0
    else Grants(log[..|log| - 1], v) + if log[|log| - 1] == Answer(Allocate(v), true) then 1 else 0
  }

  lemma GrantsNext(log: seq<Action>, a: Action, v: Service)
    ensures Grants(log + [a], v) == Grants(log, v) + if a == Answer(Allocate(v), true) then 1 else 0
  {
    assert (log + [a])[..|log|] == log;
  }

  // Nothing that a run does by itself is a grant.
  lemma {:induction false} GrantsAfter(log: seq<Action>, more: seq<Action>, v: Service)
    requires forall a :: a in more ==> !a.Answer?
    ensures Grants(log + more, v) == Grants(log, v)
    decreases |more|
  {
    if more == [] {
      assert log + more == log;
    } else {
      var init, last := more[..|more| - 1], more[|more| - 1];
      assert log + more == (log + init) + [last];
      GrantsAfter(log, init, v);
      GrantsNext(log + init, last, v);
    }
  }

  // After an answer a run adds no other answer to its log.
  lemma SettledLog(s: Progress, q: Request, callback: bool, r: Reply)
    ensures var t := Settled(s, q, callback, r);
            && |t.log| >= |s.log| && t.log[..|s.log|] == s.log
            && forall a :: a in t.log[|s.log|..] ==> !a.Answer?
  {
    var t := Settled(s, q, callback, r);
    if t.holder.Some? {
      assert t.log == s.log + [Ask(t.holder.value)];
    } else {
      var ending := Ending(callback, t.ready, t.mode);
      assert t.log == s.log + ending || t.log == s.log + [StartScan] + ending;
    }
  }

  lemma SettledGrants(s: Progress, q: Request, callback: bool, r: Reply, v: Service)
    ensures Grants(Settled(s, q, callback, r).log, v) == Grants(s.log, v)
  {
    SettledLog(s, q, callback, r);
    var t := Settled(s, q, callback, r);
    assert t.log == s.log + t.log[|s.log|..];
    GrantsAfter(s.log, t.log[|s.log|..], v);
  }

  // One grant on record for a client that is held, none for one that is not; and only a missing one is asked for.
  predicate Accounted(p: Progress, v: Service) {
    && Grants(p.log, v) == (if v in p.modem.clients then 1 else 0)
    && (p.holder == Some(Allocate(v)) ==> v !in p.modem.clients)
  }

  // Whether a client is held changes with its own grant only.
  lemma SettledClients(s: Progress, q: Request, callback: bool, r: Reply, v: Service)
    ensures var t := Settled(s, q, callback, r);
            && (v in t.modem.clients <==> v in s.modem.clients || (r.ok && q == Allocate(v)))
            && (t.holder == Some(Allocate(v)) ==> v !in t.modem.clients)
  {
  }

  lemma AnsweredAccounted(p: Progress, callback: bool, r: Reply, v: Service)
    requires p.holder.Some? && Accounted(p, v)
    ensures Accounted(Answered(p, callback, r), v)
  {
    GrantsNext(p.log, Answer(p.holder.value, r.ok), v);
    SettledGrants(Heard(p, r), p.holder.value, callback, r, v);
    SettledClients(Heard(p, r), p.holder.value, callback, r, v);
  }

  lemma {:induction false} RunAccounted(p: Progress, callback: bool, replies: seq<Reply>, v: Service)
    requires Accounted(p, v)
    ensures Accounted(Run(p, callback, replies), v)
    decreases |replies|
  {
    if p.holder.Some? && replies != [] {
      AnsweredAccounted(p, callback, replies[0], v);
      RunAccounted(Answered(p, callback, replies[0]), callback, replies[1..], v);
    }
  }

  lemma {:induction false} HistoryAccounted(m: Modem, log: seq<Action>, scripts: seq<Script>, v: Service)
    requires Grants(log, v) == if v in m.clients then 1 else 0
    ensures Accounted(History(m, log, scripts), v)
    decreases |scripts|
  {
    if scripts != [] {
      var p := Begin(m, log, scripts[0].ready, scripts[0].mode);
      GrantsNext(log, Ask(p.holder.value), v);
      RunAccounted(p, scripts[0].callback, scripts[0].replies, v);
      var end := Run(p, scripts[0].callback, scripts[0].replies);
      HistoryAccounted(end.modem, end.log, scripts[1..], v);
    }
  }

  /** Over any sequence of runs, each of the three clients is granted at most once, and then it is the one held. */
  lemma ClientsGrantedOnce(scripts: seq<Script>, v: Service)
    ensures var end := History(Modem(false, false, {}), [], scripts);
            Grants(end.log, v) == if v in end.modem.clients then 1 else 0
  {
    HistoryAccounted(Modem(false, false, {}), [], scripts, v);
  }
}
