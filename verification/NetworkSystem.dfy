/** Any number of starts and stops in flight over one context, in any order of requests and completions. */
module NetworkSystem {
  import opened Wrappers
  import opened NetworkProtocol

  datatype Kind = Start(callback: bool) | Stop

  datatype Task = Task(kind: Kind, family: Family, holder: Option<Request>)

  // All tasks ever created, in order; a released one has no holder.
  datatype System = System(wds: Wds, log: seq<Action>, tasks: seq<Task>)

  datatype Event =
    | StartRequested(family: Family, callback: bool)
    | StopRequested(family: Family)
    | Answered(task: nat, reply: Reply)

  function Joined(s: System, kind: Kind, f: Family, p: Progress): System {
    System(p.wds, p.log, s.tasks + [Task(kind, f, p.holder)])
  }

  predicate Live(s: System, i: nat) {
    i < |s.tasks| && s.tasks[i].holder.Some?
  }

  // Events that cannot happen, such as an answer to a released task, change nothing.
  function Next(s: System, e: Event): System {
    match e
    case StartRequested(f, callback) => Joined(s, Start(callback), f, BeginStart(s.wds, s.log, f))
    case StopRequested(f) =>
      if s.wds.Of(f).stopping then s else Joined(s, Stop, f, BeginStop(s.wds, s.log, f))
    case Answered(i, r) =>
      if !Live(s, i) then s
      else
        var t := s.tasks[i];
        var p := Progress(s.wds, t.holder, s.log);
        var q := if t.kind.Stop? then StopAnswered(p, t.family, r) else StartAnswered(p, t.family, t.kind.callback, r);
        System(q.wds, q.log, s.tasks[i := t.(holder := q.holder)])
  }

  function Run(s: System, events: seq<Event>): System
    decreases |events|
  {
    if events == [] then s else Run(Next(s, events[0]), events[1..])
  }

  // ---- Stop exclusivity ----

  predicate Stopping(s: System, i: nat, f: Family) {
    Live(s, i) && s.tasks[i].kind.Stop? && s.tasks[i].family == f
  }

  ghost predicate ExclusiveOn(s: System, f: Family) {
    && (s.wds.Of(f).stopping <==> exists i: nat :: Stopping(s, i, f))
    && forall i: nat, j: nat :: Stopping(s, i, f) && Stopping(s, j, f) ==> i == j
  }

  // Start tasks never wait for a stop request.
  ghost predicate Typed(s: System) {
    forall i: nat :: Live(s, i) ==> s.tasks[i].kind.Stop? == s.tasks[i].holder.value.StopNetwork?
  }

  ghost predicate Exclusive(s: System) {
    Typed(s) && ExclusiveOn(s, IPv4) && ExclusiveOn(s, IPv6)
  }

  lemma JoinedKeepsOthers(s: System, kind: Kind, f: Family, p: Progress, g: Family)
    ensures var t := Joined(s, kind, f, p);
            forall i: nat ::
              Stopping(t, i, g)
              <==>
              Stopping(s, i, g) || (i == |s.tasks| && kind.Stop? && f == g && p.holder.Some?)
  {
  }

  lemma StopFlags(w: Wds, log: seq<Action>, f: Family)
    ensures var p := BeginStop(w, log, f);
            && p.wds.Of(f).stopping == p.holder.Some?
            && p.wds.Of(Other(f)).stopping == w.Of(Other(f)).stopping
            && (p.holder.Some? ==> p.holder.value.StopNetwork?)
  {
    var v := Deregistered(w.With(f, w.Of(f).(stopping := true)), f);
    assert v.Of(Other(f)).stopping == w.Of(Other(f)).stopping;
  }

  lemma StopRequestKeeps(s: System, f: Family, g: Family)
    requires ExclusiveOn(s, g)
    ensures ExclusiveOn(Next(s, StopRequested(f)), g)
  {
    if !s.wds.Of(f).stopping {
      var p := BeginStop(s.wds, s.log, f);
      var t := Joined(s, Stop, f, p);
      StopFlags(s.wds, s.log, f);
      JoinedKeepsOthers(s, Stop, f, p, g);
      if f == g && p.holder.Some? {
        assert Stopping(t, |s.tasks|, g);
      } else {
        assert forall i: nat :: Stopping(t, i, g) <==> Stopping(s, i, g);
        assert t.wds.Of(g).stopping == s.wds.Of(g).stopping;
      }
    }
  }

  lemma StartRequestKeeps(s: System, f: Family, callback: bool, g: Family)
    requires ExclusiveOn(s, g)
    ensures ExclusiveOn(Next(s, StartRequested(f, callback)), g)
  {
    var t := Next(s, StartRequested(f, callback));
    JoinedKeepsOthers(s, Start(callback), f, BeginStart(s.wds, s.log, f), g);
    assert forall i: nat :: Stopping(t, i, g) <==> Stopping(s, i, g);
    assert t.wds.Of(g).stopping == s.wds.Of(g).stopping;
  }

  lemma AnswerKeeps(s: System, i: nat, r: Reply, g: Family)
    requires Typed(s) && ExclusiveOn(s, g) && Live(s, i)
    ensures ExclusiveOn(Next(s, Answered(i, r)), g)
  {
    var t := Next(s, Answered(i, r));
    var ended := Stopping(s, i, g);
    assert forall j: nat :: Stopping(t, j, g) <==> Stopping(s, j, g) && !(ended && j == i);
    assert t.wds.Of(g).stopping == (s.wds.Of(g).stopping && !ended);
  }

  lemma NextTyped(s: System, e: Event)
    requires Typed(s)
    ensures Typed(Next(s, e))
  {
    if e.StopRequested? { StopFlags(s.wds, s.log, e.family); }
    var t := Next(s, e);
    forall i: nat | Live(t, i)
      ensures t.tasks[i].kind.Stop? == t.tasks[i].holder.value.StopNetwork?
    {
      if i < |s.tasks| && !(e.Answered? && e.task == i) {
        assert Live(s, i) && t.tasks[i] == s.tasks[i];
      }
    }
  }

  lemma NextExclusive(s: System, e: Event)
    requires Exclusive(s)
    ensures Exclusive(Next(s, e))
  {
    NextTyped(s, e);
    match e
    case StartRequested(f, callback) =>
      StartRequestKeeps(s, f, callback, IPv4);
      StartRequestKeeps(s, f, callback, IPv6);
    case StopRequested(f) =>
      StopRequestKeeps(s, f, IPv4);
      StopRequestKeeps(s, f, IPv6);
    case Answered(i, r) =>
      if Live(s, i) {
        AnswerKeeps(s, i, r, IPv4);
        AnswerKeeps(s, i, r, IPv6);
      }
  }

  /**
   In every interleaving of starts, stops and completions, a family's stop flag is up exactly while a stop task of
   that family is alive, and there are never two of them.
   */
  lemma {:induction false} StopExclusivity(s: System, events: seq<Event>)
    requires Exclusive(s)
    ensures Exclusive(Run(s, events))
    decreases |events|
  {
    if events != [] {
      NextExclusive(s, events[0]);
      StopExclusivity(Next(s, events[0]), events[1..]);
    }
  }

  /** A fresh context is where exclusivity begins. */
  lemma FreshExclusive(events: seq<Event>)
    ensures Exclusive(Run(System(Wds(IDLE, IDLE, ""), [], []), events))
  {
    StopExclusivity(System(Wds(IDLE, IDLE, ""), [], []), events);
  }

  // ---- Confluence of stops ----

  // Stops only, whatever is answered.
  ghost predicate StopsOnly(events: seq<Event>) {
    forall i :: 0 <= i < |events| ==> !events[i].StartRequested?
  }

  predicate Requested(events: seq<Event>, f: Family) {
    StopRequested(f) in events
  }

  ghost predicate Settled(s: System) {
    forall i: nat :: !Live(s, i)
  }

  function Stopped(starting: bool): Session {
    IDLE.(starting := starting)
  }

  // Where a stop leaves its family: in progress without events, or as initialised.
  predicate Underway(w: Wds, f: Family, starting: bool) {
    if w.Of(f).stopping then
      w.Of(f).starting == starting && w.Of(f).eventId == INVALID_EVENT && w.Of(f).serviceId == INVALID_EVENT
    else w.Of(f) == Stopped(starting)
  }

  // Once both are under way and neither is in progress, the technology is gone.
  predicate Cleared(w: Wds, v4: bool, v6: bool) {
    v4 && v6 && !w.v4.stopping && !w.v6.stopping ==> w.rat == ""
  }

  // v4 and v6 say which stops have been requested so far.
  ghost predicate Draining(s: System, v4: bool, v6: bool, starting4: bool, starting6: bool) {
    && Exclusive(s)
    && (forall i: nat :: Live(s, i) ==> s.tasks[i].kind.Stop?)
    && s.wds.v4.starting == starting4 && s.wds.v6.starting == starting6
    && (v4 ==> Underway(s.wds, IPv4, starting4)) && (v6 ==> Underway(s.wds, IPv6, starting6))
    && (!v4 ==> !s.wds.v4.stopping) && (!v6 ==> !s.wds.v6.stopping)
    && Cleared(s.wds, v4, v6)
  }

  lemma BeginUnderway(w: Wds, log: seq<Action>, f: Family)
    ensures var p := BeginStop(w, log, f).wds;
            && Underway(p, f, w.Of(f).starting)
            && (Underway(w, Other(f), w.Of(Other(f)).starting) ==> Underway(p, Other(f), w.Of(Other(f)).starting))
            && p.Of(Other(f)).(eventId := 0, serviceId := 0) == w.Of(Other(f)).(eventId := 0, serviceId := 0)
            && (!p.Of(f).stopping && p.Of(Other(f)).client.None? ==> p.rat == "")
  {
    var v := Deregistered(w.With(f, w.Of(f).(stopping := true)), f);
    assert v.Of(f) == w.Of(f).(stopping := true, eventId := INVALID_EVENT, serviceId := INVALID_EVENT);
  }

  lemma StopRequestDrains(s: System, f: Family, v4: bool, v6: bool, a: bool, b: bool)
    requires Draining(s, v4, v6, a, b)
    ensures Draining(Next(s, StopRequested(f)), v4 || f == IPv4, v6 || f == IPv6, a, b)
  {
    NextExclusive(s, StopRequested(f));
    if !s.wds.Of(f).stopping {
      BeginUnderway(s.wds, s.log, f);
    }
  }

  lemma AnswerDrains(s: System, i: nat, r: Reply, v4: bool, v6: bool, a: bool, b: bool)
    requires Draining(s, v4, v6, a, b)
    ensures Draining(Next(s, Answered(i, r)), v4, v6, a, b)
  {
    NextExclusive(s, Answered(i, r));
    if Live(s, i) {
      assert Stopping(s, i, s.tasks[i].family);
    }
  }

  lemma {:induction false} Drains(s: System, events: seq<Event>, v4: bool, v6: bool, a: bool, b: bool)
    requires Draining(s, v4, v6, a, b) && StopsOnly(events)
    ensures Draining(Run(s, events), v4 || Requested(events, IPv4), v6 || Requested(events, IPv6), a, b)
    decreases |events|
  {
    if events != [] {
      var e, rest := events[0], events[1..];
      assert events == [e] + rest;
      if e.StopRequested? {
        StopRequestDrains(s, e.family, v4, v6, a, b);
        Drains(Next(s, e), rest, v4 || e.family == IPv4, v6 || e.family == IPv6, a, b);
      } else {
        AnswerDrains(s, e.task, e.reply, v4, v6, a, b);
        Drains(Next(s, e), rest, v4, v6, a, b);
      }
    }
  }

  /**
   From any two sessions with no task about, every schedule that stops both families, in either order, overlapping,
   repeated and under any answers, ends in one and the same state: both as initialised and no technology.
   */
  lemma StopsConverge(w: Wds, events: seq<Event>)
    requires !w.v4.stopping && !w.v6.stopping
    requires StopsOnly(events) && Requested(events, IPv4) && Requested(events, IPv6)
    requires Settled(Run(System(w, [], []), events))
    ensures Run(System(w, [], []), events).wds == Wds(Stopped(w.v4.starting), Stopped(w.v6.starting), "")
  {
    var s := System(w, [], []);
    Drains(s, events, false, false, w.v4.starting, w.v6.starting);
  }
}
