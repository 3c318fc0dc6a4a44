/**
 Starting and stopping the network as conversations with the modem: for every session and all answers the requests, the
 client each goes out on, what is dropped and given back, what theXX */
module NetworkConversation {
  import opened Wrappers
  import opened NetworkProtocol

  function Own(w: Wds, f: Family): Session {
    match f
    case IPv4 => w.v4
    case IPv6 => w.v6
  }

  // ---- A stop ----

  // The events, the network and the client, one after the other.
  function Unregistering(w: Wds, f: Family): seq<Action> {
    (if f == IPv4 && w.v4.eventId != 0 then [Disconnect(IPv4, w.v4.eventId)]
     else if w.v6.eventId != 0 then [Disconnect(IPv6, w.v6.eventId)] else [])
    + (if f == IPv4 && w.v4.serviceId != 0 then [Disconnect(IPv4, w.v4.serviceId)]
       else if w.v6.serviceId != 0 then [Disconnect(IPv6, w.v6.serviceId)] else [])
  }

  function Stopping(w: Wds, f: Family, r: Reply): seq<Action> {
    if f == IPv4 && w.v4.handle != INVALID_HANDLE then [Ask(StopNetwork(IPv4, w.v4.handle), w.v4.client), Answer(r)]
    else if w.v6.handle != INVALID_HANDLE then [Ask(StopNetwork(IPv6, w.v6.handle), w.v6.client), Answer(r)]
    else []
  }

  function Returning(client: Option<nat>, f: Family): seq<Action> {
    if client.None? then [] else [ReleaseClient(f, client.value)]
  }

  lemma DroppedIsUnregistering(w: Wds, f: Family)
    ensures Dropped(w.With(f, w.Of(f).(stopping := true)), f) == Unregistering(w, f)
  {
  }

  lemma DoneReturns(w: Wds, log: seq<Action>, f: Family)
    ensures StopDone(w, log, f).log == log + Returning(Own(w, f).client, f) + [Release]
  {
  }

  // What the events leave of a session.
  lemma EventsLeave(w: Wds, f: Family)
    ensures var v := Deregistered(w.With(f, w.Of(f).(stopping := true)), f);
            && Own(v, f).client == Own(w, f).client && NetworkVictim(v, f) == NetworkVictim(w, f)
            && forall g :: v.Of(g).handle == w.Of(g).handle && v.Of(g).client == w.Of(g).client
  {
  }

  function StopSaid(w: Wds, f: Family, r: Reply): seq<Action> {
    Unregistering(w, f) + Stopping(w, f, r) + Returning(Own(w, f).client, f) + [Release]
  }

  lemma StopConverses(w: Wds, f: Family, r: Reply)
    ensures StopRun(w, [], f, r).log == StopSaid(w, f, r)
  {
    var u := w.With(f, w.Of(f).(stopping := true));
    var v := Deregistered(u, f);
    DroppedIsUnregistering(w, f);
    EventsLeave(w, f);
    var before := [] + Dropped(u, f);
    assert before == Unregistering(w, f);
    match NetworkVictim(v, f)
    case None =>
      DoneReturns(v, before, f);
      assert before == Unregistering(w, f) + Stopping(w, f, r);
    case Some(g) =>
      var ask := Ask(StopNetwork(g, v.Of(g).handle), v.Of(g).client);
      assert Stopping(w, f, r) == [ask, Answer(r)];
      assert before + [ask] + [Answer(r)] == Unregistering(w, f) + Stopping(w, f, r);
      DoneReturns(v.With(f, v.Of(f).(handle := INVALID_HANDLE)), before + [ask] + [Answer(r)], f);
  }

  /** All that an IPv6 stop does, and what it leaves. */
  lemma StopIPv6Exactly(w: Wds, r: Reply)
    ensures StopRun(w, [], IPv6, r).log
            == (if w.v6.eventId == 0 then [] else [Disconnect(IPv6, w.v6.eventId)])
               + (if w.v6.serviceId == 0 then [] else [Disconnect(IPv6, w.v6.serviceId)])
               + (if w.v6.handle == INVALID_HANDLE then []
                  else [Ask(StopNetwork(IPv6, w.v6.handle), w.v6.client), Answer(r)])
               + (if w.v6.client.None? then [] else [ReleaseClient(IPv6, w.v6.client.value)])
               + [Release]
    ensures StopRun(w, [], IPv6, r).wds
            == Wds(w.v4, Session(None, 0, 0, INVALID_HANDLE, w.v6.starting, false), if w.v4.client.None? then "" else w.rat)
  {
    StopConverses(w, IPv6, r);
  }

  /** All that an IPv4 stop does, and what it leaves: what it lacks itself it takes from IPv6, but for the client. */
  lemma StopIPv4Exactly(w: Wds, r: Reply)
    ensures StopRun(w, [], IPv4, r).log
            == (if w.v4.eventId != 0 then [Disconnect(IPv4, w.v4.eventId)]
                else if w.v6.eventId != 0 then [Disconnect(IPv6, w.v6.eventId)] else [])
               + (if w.v4.serviceId != 0 then [Disconnect(IPv4, w.v4.serviceId)]
                  else if w.v6.serviceId != 0 then [Disconnect(IPv6, w.v6.serviceId)] else [])
               + (if w.v4.handle != INVALID_HANDLE
                  then [Ask(StopNetwork(IPv4, w.v4.handle), w.v4.client), Answer(r)]
                  else if w.v6.handle != INVALID_HANDLE
                  then [Ask(StopNetwork(IPv6, w.v6.handle), w.v6.client), Answer(r)] else [])
               + (if w.v4.client.None? then [] else [ReleaseClient(IPv4, w.v4.client.value)])
               + [Release]
    ensures StopRun(w, [], IPv4, r).wds
            == Wds(Session(None, 0, 0, INVALID_HANDLE, w.v4.starting, false),
                   w.v6.(eventId := if w.v4.eventId == 0 then 0 else w.v6.eventId,
                         serviceId := if w.v4.serviceId == 0 then 0 else w.v6.serviceId),
                   if w.v6.client.None? then "" else w.rat)
  {
    StopConverses(w, IPv4, r);
  }

  lemma SaidReleases(log: seq<Action>, w: Wds, f: Family, r: Reply, g: Family, c: nat)
    requires log == StopSaid(w, f, r)
    ensures ReleaseClient(g, c) in log <==> g == f && Own(w, f).client == Some(c)
  {
  }

  lemma SaidDisconnects(log: seq<Action>, w: Wds, f: Family, r: Reply, g: Family, id: nat)
    requires log == StopSaid(w, f, r)
    ensures Disconnect(g, id) in log
            <==>
            id != 0
            && (match g
                case IPv4 => f == IPv4 && (id == w.v4.eventId || id == w.v4.serviceId)
                case IPv6 => (id == w.v6.eventId && (f == IPv6 || w.v4.eventId == 0))
                             || (id == w.v6.serviceId && (f == IPv6 || w.v4.serviceId == 0)))
  {
  }

  lemma SaidAsks(log: seq<Action>, w: Wds, f: Family, r: Reply, q: Request, client: Option<nat>)
    requires log == StopSaid(w, f, r)
    ensures Ask(q, client) in log
            <==>
            || (f == IPv4 && w.v4.handle != INVALID_HANDLE && q == StopNetwork(IPv4, w.v4.handle) && client == w.v4.client)
            || ((f == IPv6 || w.v4.handle == INVALID_HANDLE) && w.v6.handle != INVALID_HANDLE
                && q == StopNetwork(IPv6, w.v6.handle) && client == w.v6.client)
  {
  }

  /** A stop gives back the client of its own family, if there is one, and no other client of either. */
  lemma StopReleasesExactly(w: Wds, f: Family, r: Reply, g: Family, c: nat)
    ensures ReleaseClient(g, c) in StopRun(w, [], f, r).log
            <==> g == f && (if f == IPv4 then w.v4 else w.v6).client == Some(c)
  {
    StopConverses(w, f, r);
    SaidReleases(StopRun(w, [], f, r).log, w, f, r, g, c);
  }

  /** The signals a stop disconnects: its own family's, and for IPv4 the IPv6 ones that have no counterpart. */
  lemma StopDisconnectsExactly(w: Wds, f: Family, r: Reply, g: Family, id: nat)
    ensures Disconnect(g, id) in StopRun(w, [], f, r).log
            <==>
            id != 0
            && (match g
                case IPv4 => f == IPv4 && (id == w.v4.eventId || id == w.v4.serviceId)
                case IPv6 => (id == w.v6.eventId && (f == IPv6 || w.v4.eventId == 0))
                             || (id == w.v6.serviceId && (f == IPv6 || w.v4.serviceId == 0)))
  {
    StopConverses(w, f, r);
    SaidDisconnects(StopRun(w, [], f, r).log, w, f, r, g, id);
  }

  /** The one request a stop makes: on its own family's client with its own handle, or for IPv4 without one, on IPv6's. */
  lemma StopAsksExactly(w: Wds, f: Family, r: Reply, q: Request, client: Option<nat>)
    ensures Ask(q, client) in StopRun(w, [], f, r).log
            <==>
            || (f == IPv4 && w.v4.handle != INVALID_HANDLE && q == StopNetwork(IPv4, w.v4.handle) && client == w.v4.client)
            || ((f == IPv6 || w.v4.handle == INVALID_HANDLE) && w.v6.handle != INVALID_HANDLE
                && q == StopNetwork(IPv6, w.v6.handle) && client == w.v6.client)
  {
    StopConverses(w, f, r);
    SaidAsks(StopRun(w, [], f, r).log, w, f, r, q, client);
  }

  // ---- A start ----

  // What a start asks for. The client is asked for when IPv4 has none, whichever family is started.
  function Line(w: Wds): seq<Request> {
    (if w.v4.client.None? then [AllocateClient] else [])
    + [SetIpFamily, RegisterEvents, StartNetwork, GetLease, GetTechnology]
  }

  // What was said, what the session holds and the technology last read; over when the task is released.
  datatype Talk = Talk(said: seq<Action>, session: Session, technology: string, over: bool)

  // What an answer tells the caller, and what it leaves in the session.
  function News(q: Request, callback: bool, r: Reply): seq<Action> {
    if q == GetLease && r.ok && callback then [Notify(IpReady)]
    else if q == StartNetwork && !r.ok && callback then [Notify(IpNotReady)]
    else []
  }

  function Learnt(s: Session, q: Request, callback: bool, r: Reply): Session {
    match q
    case AllocateClient => if r.ok then s.(client := Some(r.client)) else s
    case RegisterEvents => s.(eventId := if r.ok then r.eventId else 0, serviceId := r.serviceId)
    case StartNetwork =>
      if !r.ok then (if callback then s.(handle := INVALID_HANDLE) else s)
      else if r.handle.Some? then s.(handle := r.handle.value) else s
    case _ => s
  }

  // What is left to ask for: a refusal ends the line, but for the event registration's.
  function Remaining(line: seq<Request>, r: Reply): seq<Request>
    requires line != []
  {
    if r.ok || line[0] == RegisterEvents then line[1..] else []
  }

  // The line spoken over the answers.
  function Spoken(line: seq<Request>, s: Session, technology: string, callback: bool, a: seq<Reply>): Talk
    decreases |line|
  {
    if line == [] then Talk([Release], s.(starting := false), technology, true)
    else
      var asked := Ask(line[0], if line[0] == AllocateClient then None else s.client);
      if a == [] then Talk([asked], s, technology, false)
      else
        var known := if line[0] == GetTechnology && a[0].ok then a[0].technology else technology;
        var later := Spoken(Remaining(line, a[0]), Learnt(s, line[0], callback, a[0]), known, callback, a[1..]);
        later.(said := [asked, Answer(a[0])] + News(line[0], callback, a[0]) + later.said)
  }

  // A run of the protocol that has just made its request goes on as the talk does.
  ghost predicate Speaks(end: Progress, log: seq<Action>, w: Wds, f: Family, talk: Talk) {
    && end.log == log + talk.said
    && (end.holder.None? <==> talk.over)
    && Own(end.wds, f) == talk.session && Own(end.wds, Other(f)) == Own(w, Other(f))
    && end.wds.rat == talk.technology
  }

  // The line from a request on.
  function From(q: Request): seq<Request> {
    match q
    case AllocateClient => [q, SetIpFamily, RegisterEvents, StartNetwork, GetLease, GetTechnology]
    case SetIpFamily => [q, RegisterEvents, StartNetwork, GetLease, GetTechnology]
    case RegisterEvents => [q, StartNetwork, GetLease, GetTechnology]
    case StartNetwork => [q, GetLease, GetTechnology]
    case GetLease => [q, GetTechnology]
    case GetTechnology => [q]
    case StopNetwork(_, _) => []
  }

  lemma AsksSpeak(w: Wds, log: seq<Action>, f: Family, q: Request, callback: bool)
    requires !q.StopNetwork?
    ensures Speaks(Asking(w, log, f, q), log, w, f, Spoken(From(q), Own(w, f), w.rat, callback, []))
  {
  }

  predicate Carries(q: Request, r: Reply) {
    (r.ok && q != GetTechnology) || q == RegisterEvents
  }

  function Heard(w: Wds, f: Family, q: Request, callback: bool, r: Reply): seq<Action> {
    [Ask(q, if q == AllocateClient then None else Own(w, f).client), Answer(r)] + News(q, callback, r)
  }

  // The session and the technology after an answer.
  function Told(w: Wds, f: Family, q: Request, callback: bool, r: Reply): Wds {
    w.With(f, Learnt(Own(w, f), q, callback, r)).(rat := if q == GetTechnology && r.ok then r.technology else w.rat)
  }

  // What an answer leads to in the protocol: the next request of the line, or the end.
  lemma AnswerCarries(w: Wds, log: seq<Action>, f: Family, q: Request, callback: bool, r: Reply)
    requires !q.StopNetwork? && Carries(q, r)
    ensures |From(q)| > 1
    ensures StartAnswered(Asking(w, log, f, q), f, callback, r)
            == Asking(Told(w, f, q, callback, r), log + Heard(w, f, q, callback, r), f, From(q)[1])
  {
    var ask := Ask(q, if q == AllocateClient then None else Own(w, f).client);
    assert log + [ask] + [Answer(r)] + News(q, callback, r) == log + Heard(w, f, q, callback, r);
    assert log + [ask] + [Answer(r)] + [] == log + [ask] + [Answer(r)];
  }

  lemma AnswerEnds(w: Wds, log: seq<Action>, f: Family, q: Request, callback: bool, r: Reply)
    requires !q.StopNetwork? && !Carries(q, r)
    ensures StartAnswered(Asking(w, log, f, q), f, callback, r)
            == StartDone(Told(w, f, q, callback, r), log + Heard(w, f, q, callback, r), f)
  {
    var ask := Ask(q, if q == AllocateClient then None else Own(w, f).client);
    assert log + [ask] + [Answer(r)] + News(q, callback, r) == log + Heard(w, f, q, callback, r);
    assert log + [ask] + [Answer(r)] + [] == log + [ask] + [Answer(r)];
  }

  // More was said before.
  lemma SpeaksSince(end: Progress, log: seq<Action>, more: seq<Action>, w: Wds, v: Wds, f: Family, talk: Talk)
    requires Speaks(end, log + more, v, f, talk) && Own(v, Other(f)) == Own(w, Other(f))
    ensures Speaks(end, log, w, f, talk.(said := more + talk.said))
  {
    assert log + more + talk.said == log + (more + talk.said);
  }

  lemma RemainingFrom(q: Request, r: Reply)
    requires !q.StopNetwork?
    ensures From(q) != [] && From(q)[0] == q
    ensures Remaining(From(q), r) == if Carries(q, r) then From(From(q)[1]) else []
  {
  }

  lemma {:induction false} AskingSpeaks(w: Wds, log: seq<Action>, f: Family, q: Request, callback: bool, a: seq<Reply>)
    requires !q.StopNetwork?
    ensures Speaks(StartRun(Asking(w, log, f, q), f, callback, a), log, w, f,
                   Spoken(From(q), Own(w, f), w.rat, callback, a))
    decreases |a|
  {
    if a == [] {
      AsksSpeak(w, log, f, q, callback);
    } else {
      var heard, v := Heard(w, f, q, callback, a[0]), Told(w, f, q, callback, a[0]);
      var end := StartRun(Asking(w, log, f, q), f, callback, a);
      RemainingFrom(q, a[0]);
      if Carries(q, a[0]) {
        AnswerCarries(w, log, f, q, callback, a[0]);
        AskingSpeaks(v, log + heard, f, From(q)[1], callback, a[1..]);
      } else {
        AnswerEnds(w, log, f, q, callback, a[0]);
        var done := StartDone(v, log + heard, f);
        assert StartRun(done, f, callback, a[1..]) == done;
        assert end == done;
      }
      SpeaksSince(end, log, heard, w, v, f, Spoken(Remaining(From(q), a[0]), Own(v, f), v.rat, callback, a[1..]));
    }
  }

  /** Every start, under all answers, is this conversation. */
  lemma StartConverses(w: Wds, f: Family, callback: bool, a: seq<Reply>)
    ensures var end := StartRun(BeginStart(w, [], f), f, callback, a);
            var talk := Spoken(Line(w), Own(w, f).(starting := true), w.rat, callback, a);
            && end.log == talk.said && (end.holder.None? <==> talk.over)
            && Own(end.wds, f) == talk.session && end.wds.rat == talk.technology
            && (f == IPv4 ==> end.wds.v6 == w.v6) && (f == IPv6 ==> end.wds.v4 == w.v4)
  {
    var u := Begun(w, f);
    var q := if w.v4.client.None? then AllocateClient else SetIpFamily;
    AskingSpeaks(u, [], f, q, callback, a);
    assert Line(w) == From(q);
  }

  // ---- A start that succeeds ----

  lemma SpokenOn(line: seq<Request>, s: Session, technology: string, callback: bool, a: seq<Reply>)
    requires line != [] && a != [] && a[0].ok
    ensures var known := if line[0] == GetTechnology then a[0].technology else technology;
            var t, later := Spoken(line, s, technology, callback, a),
                            Spoken(line[1..], Learnt(s, line[0], callback, a[0]), known, callback, a[1..]);
            t.session == later.session && t.technology == later.technology && t.over == later.over
  {
  }

  lemma LastSpoken(s: Session, technology: string, callback: bool, a: seq<Reply>)
    requires |a| >= 2 && a[0].ok && a[1].ok
    ensures var t := Spoken([GetLease, GetTechnology], s, technology, callback, a);
            t.over && t.technology == a[1].technology && t.session == s.(starting := false)
  {
    SpokenOn([GetLease, GetTechnology], s, technology, callback, a);
    assert [GetLease, GetTechnology][1..] == [GetTechnology];
    SpokenOn([GetTechnology], s, technology, callback, a[1..]);
  }

  lemma NetworkSpoken(s: Session, technology: string, callback: bool, a: seq<Reply>)
    requires |a| >= 3 && a[0].ok && a[1].ok && a[2].ok
    ensures var t := Spoken([StartNetwork, GetLease, GetTechnology], s, technology, callback, a);
            && t.over && t.technology == a[2].technology
            && t.session == s.(handle := if a[0].handle.Some? then a[0].handle.value else s.handle, starting := false)
  {
    SpokenOn([StartNetwork, GetLease, GetTechnology], s, technology, callback, a);
    assert [StartNetwork, GetLease, GetTechnology][1..] == [GetLease, GetTechnology];
    LastSpoken(Learnt(s, StartNetwork, callback, a[0]), technology, callback, a[1..]);
  }

  lemma EventsSpoken(s: Session, technology: string, callback: bool, a: seq<Reply>)
    requires |a| >= 4 && a[0].ok && a[1].ok && a[2].ok && a[3].ok
    ensures var t := Spoken([RegisterEvents, StartNetwork, GetLease, GetTechnology], s, technology, callback, a);
            && t.over && t.technology == a[3].technology
            && t.session == s.(eventId := a[0].eventId, serviceId := a[0].serviceId,
                               handle := if a[1].handle.Some? then a[1].handle.value else s.handle, starting := false)
  {
    var events := [RegisterEvents, StartNetwork, GetLease, GetTechnology];
    assert events[1..] == [StartNetwork, GetLease, GetTechnology];
    SpokenOn(events, s, technology, callback, a);
    NetworkSpoken(s.(eventId := a[0].eventId, serviceId := a[0].serviceId), technology, callback, a[1..]);
  }

  // The five requests behind the client.
  lemma FiveSpoken(s: Session, technology: string, callback: bool, a: seq<Reply>)
    requires |a| >= 5 && a[0].ok && a[1].ok && a[2].ok && a[3].ok && a[4].ok
    ensures var t := Spoken([SetIpFamily, RegisterEvents, StartNetwork, GetLease, GetTechnology], s, technology, callback, a);
            && t.over && t.technology == a[4].technology
            && t.session == s.(eventId := a[1].eventId, serviceId := a[1].serviceId,
                               handle := if a[2].handle.Some? then a[2].handle.value else s.handle, starting := false)
  {
    var line := [SetIpFamily, RegisterEvents, StartNetwork, GetLease, GetTechnology];
    assert line[1..] == [RegisterEvents, StartNetwork, GetLease, GetTechnology];
    SpokenOn(line, s, technology, callback, a);
    EventsSpoken(s, technology, callback, a[1..]);
  }

  /**
   A start whose requests are all granted ends with the client it was granted, if it asked for one, both registrations
   and the handle, as the modem gave them, and the technology read last.
   */
  lemma SuccessfulStart(w: Wds, f: Family, callback: bool, a: seq<Reply>)
    requires |a| >= if w.v4.client.None? then 6 else 5
    requires forall i :: 0 <= i < |a| ==> a[i].ok
    ensures var first := if w.v4.client.None? then 1 else 0;
            var end, s := StartRun(BeginStart(w, [], f), f, callback, a), Own(w, f);
            var handle := a[first + 2].handle;
            && end.holder.None? && end.wds.rat == a[first + 4].technology
            && Own(end.wds, f) == Session(if first == 1 then Some(a[0].client) else s.client,
                                          a[first + 1].eventId, a[first + 1].serviceId,
                                          if handle.Some? then handle.value else s.handle, false, s.stopping)
  {
    StartConverses(w, f, callback, a);
    var s := Own(w, f).(starting := true);
    if w.v4.client.None? {
      assert Line(w)[1..] == [SetIpFamily, RegisterEvents, StartNetwork, GetLease, GetTechnology];
      SpokenOn(Line(w), s, w.rat, callback, a);
      FiveSpoken(s.(client := Some(a[0].client)), w.rat, callback, a[1..]);
    } else {
      assert Line(w) == [SetIpFamily, RegisterEvents, StartNetwork, GetLease, GetTechnology];
      FiveSpoken(s, w.rat, callback, a);
    }
  }

  // ---- Which client a start talks through ----

  lemma {:induction false} SpokenThrough(line: seq<Request>, s: Session, technology: string, callback: bool, a: seq<Reply>,
                                         q: Request, client: Option<nat>)
    requires AllocateClient !in line
    ensures Ask(q, client) in Spoken(line, s, technology, callback, a).said ==> q in line && client == s.client
    decreases |line|
  {
    if line != [] && a != [] {
      var known := if line[0] == GetTechnology && a[0].ok then a[0].technology else technology;
      var rest := Remaining(line, a[0]);
      SpokenThrough(rest, Learnt(s, line[0], callback, a[0]), known, callback, a[1..], q, client);
    }
  }

  // A line that begins with the client.
  lemma SpokenAllocates(line: seq<Request>, s: Session, technology: string, callback: bool, a: seq<Reply>,
                        q: Request, client: Option<nat>)
    requires line != [] && line[0] == AllocateClient && AllocateClient !in line[1..]
    requires Ask(q, client) in Spoken(line, s, technology, callback, a).said
    ensures if q == AllocateClient then client == None else q in line[1..] && a != [] && client == Some(a[0].client)
  {
    if a != [] {
      SpokenThrough(Remaining(line, a[0]), Learnt(s, AllocateClient, callback, a[0]), technology, callback, a[1..], q, client);
    }
  }

  lemma LineThrough(w: Wds, s: Session, callback: bool, a: seq<Reply>, q: Request, client: Option<nat>)
    requires Ask(q, client) in Spoken(Line(w), s, w.rat, callback, a).said
    ensures !q.StopNetwork?
    ensures q == AllocateClient ==> w.v4.client.None? && client == None
    ensures q != AllocateClient && w.v4.client.None? ==> a != [] && client == Some(a[0].client)
    ensures q != AllocateClient && w.v4.client.Some? ==> client == s.client
  {
    var rest := [SetIpFamily, RegisterEvents, StartNetwork, GetLease, GetTechnology];
    if w.v4.client.None? {
      assert Line(w)[1..] == rest;
      SpokenAllocates(Line(w), s, w.rat, callback, a, q, client);
    } else {
      assert Line(w) == rest;
      SpokenThrough(rest, s, w.rat, callback, a, q, client);
    }
  }

  /**
   The requests of a start: the client is asked for only when IPv4 has none, and everything else goes out on the client
   just granted or, if none was asked for, on the one the family already has or lacks.
   */
  lemma StartAsksThrough(w: Wds, f: Family, callback: bool, a: seq<Reply>, q: Request, client: Option<nat>)
    requires Ask(q, client) in StartRun(BeginStart(w, [], f), f, callback, a).log
    ensures !q.StopNetwork?
    ensures q == AllocateClient ==> w.v4.client.None? && client == None
    ensures q != AllocateClient && w.v4.client.None? ==> a != [] && client == Some(a[0].client)
    ensures q != AllocateClient && w.v4.client.Some? ==> client == (if f == IPv4 then w.v4 else w.v6).client
  {
    StartConverses(w, f, callback, a);
    LineThrough(w, Own(w, f).(starting := true), callback, a, q, client);
  }
}
