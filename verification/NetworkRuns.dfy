/** What single runs of the two machines achieve: the round trip, the READY notice, and family isolation. */
module NetworkRuns {
  import opened Wrappers
  import opened NetworkProtocol

  // ---- Every start ends ----

  function StepsLeft(p: Progress): nat {
    if p.holder.None? || p.holder.value.StopNetwork? then 0 else START_END - StepOf(p.holder.value)
  }

  lemma StartStep(p: Progress, f: Family, callback: bool, r: Reply)
    requires p.holder.Some? && !p.holder.value.StopNetwork? && Release !in p.log
    ensures var q := StartAnswered(p, f, callback, r);
            if q.holder.None? then
              && q.log != [] && q.log[|q.log| - 1] == Release && Release !in q.log[..|q.log| - 1]
              && !q.wds.Of(f).starting
            else !q.holder.value.StopNetwork? && Release !in q.log && StepsLeft(q) < StepsLeft(p)
  {
  }

  /** A start is released after at most one reply for each step left, and released once. */
  lemma {:induction false} StartEnds(p: Progress, f: Family, callback: bool, replies: seq<Reply>)
    requires p.holder.Some? && !p.holder.value.StopNetwork? && Release !in p.log
    requires |replies| >= StepsLeft(p)
    ensures var end := StartRun(p, f, callback, replies);
            && end.holder.None? && end.log != [] && end.log[|end.log| - 1] == Release
            && Release !in end.log[..|end.log| - 1]
            && !end.wds.Of(f).starting
    decreases |replies|
  {
    var q := StartAnswered(p, f, callback, replies[0]);
    StartStep(p, f, callback, replies[0]);
    if q.holder.Some? {
      StartEnds(q, f, callback, replies[1..]);
    }
  }

  // ---- Isolation of a start ----

  /** Starting a family changes nothing of the other one, whatever the replies, nor its own stop flag. */
  lemma {:induction false} StartIsolated(p: Progress, f: Family, callback: bool, replies: seq<Reply>)
    ensures var end := StartRun(p, f, callback, replies).wds;
            && end.Of(Other(f)) == p.wds.Of(Other(f))
            && end.Of(f).stopping == p.wds.Of(f).stopping
    decreases |replies|
  {
    if p.holder.Some? && replies != [] {
      StartIsolated(StartAnswered(p, f, callback, replies[0]), f, callback, replies[1..]);
    }
  }

  // ---- The round trip ----

  predicate Vacant(s: Session) {
    s.client.None? && s.eventId == INVALID_EVENT && s.serviceId == INVALID_EVENT && s.handle == INVALID_HANDLE
  }

  lemma StopVacates(w: Wds, log: seq<Action>, f: Family, r: Reply)
    ensures var end := StopRun(w, log, f, r);
            && end.holder.None?
            && end.wds.Of(f) == IDLE.(starting := w.Of(f).starting)
            && (w.Of(Other(f)).client.None? ==> end.wds.rat == "")
            && (Vacant(w.Of(Other(f))) ==> end.wds.Of(Other(f)) == w.Of(Other(f)))
  {
    var v := Deregistered(w.With(f, w.Of(f).(stopping := true)), f);
    assert Vacant(w.Of(Other(f))) ==> v.Of(Other(f)) == w.Of(Other(f));
  }

  /**
   A start run to its end under any replies and then a stop run to its end leave the family as initialised, whatever the
   other one does; without a client of the other family no technology is left, and a vacant one is untouched.
   */
  lemma RoundTrip(w: Wds, f: Family, callback: bool, replies: seq<Reply>, r: Reply)
    requires !w.Of(f).stopping
    requires |replies| >= 6
    ensures var started := StartRun(BeginStart(w, [], f), f, callback, replies);
            var stopped := StopRun(started.wds, started.log, f, r);
            && started.holder.None? && stopped.holder.None?
            && !started.wds.Of(f).stopping
            && stopped.wds.Of(f) == IDLE
            && (w.Of(Other(f)).client.None? ==> stopped.wds.rat == "")
            && (Vacant(w.Of(Other(f))) ==> stopped.wds.Of(Other(f)) == w.Of(Other(f)))
  {
    var p := BeginStart(w, [], f);
    StartEnds(p, f, callback, replies);
    StartIsolated(p, f, callback, replies);
    var started := StartRun(p, f, callback, replies);
    StopVacates(started.wds, started.log, f, r);
  }

  // ---- When the network is reported ready ----

  // From a start waiting for q, these replies carry it past the lease; only the event registration may fail.
  ghost predicate ReachesLease(q: Request, replies: seq<Reply>) {
    && StepOf(q) <= START_LEASE
    && |replies| > START_LEASE - StepOf(q)
    && forall i :: 0 <= i <= START_LEASE - StepOf(q) && i != START_REGISTER - StepOf(q) ==> replies[i].ok
  }

  lemma ReachesLeaseLater(p: Progress, f: Family, callback: bool, replies: seq<Reply>)
    requires p.holder.Some? && StepOf(p.holder.value) < START_LEASE && replies != []
    ensures var q := StartAnswered(p, f, callback, replies[0]).holder;
            ReachesLease(p.holder.value, replies) <==> q.Some? && ReachesLease(q.value, replies[1..])
  {
    var h := p.holder.value;
    var q := StartAnswered(p, f, callback, replies[0]).holder;
    if q.Some? {
      assert StepOf(q.value) == StepOf(h) + 1;
      if ReachesLease(q.value, replies[1..]) {
        forall i | 0 <= i <= START_LEASE - StepOf(h) && i != START_REGISTER - StepOf(h)
          ensures replies[i].ok
        {
          if i > 0 { assert replies[i] == replies[1..][i - 1]; }
        }
      }
    } else {
      assert !replies[0].ok;
    }
  }

  lemma {:induction false} ReadyFrom(p: Progress, f: Family, callback: bool, replies: seq<Reply>)
    requires p.holder.Some? && !p.holder.value.StopNetwork?
    requires Notify(IpReady) in p.log ==> p.holder == Some(GetTechnology)
    ensures var end := StartRun(p, f, callback, replies);
            Notify(IpReady) in end.log
            <==> Notify(IpReady) in p.log || (callback && ReachesLease(p.holder.value, replies))
    decreases |replies|
  {
    if replies != [] {
      var q := StartAnswered(p, f, callback, replies[0]);
      if StepOf(p.holder.value) < START_LEASE {
        ReachesLeaseLater(p, f, callback, replies);
      }
      if q.holder.Some? {
        ReadyFrom(q, f, callback, replies[1..]);
      }
    }
  }

  lemma {:induction false} HandleFrom(p: Progress, f: Family, callback: bool, replies: seq<Reply>)
    requires p.holder.Some? && ReachesLease(p.holder.value, replies)
    ensures var end, at := StartRun(p, f, callback, replies), START_NETWORK - StepOf(p.holder.value);
            end.wds.Of(f).handle == if at < 0 then p.wds.Of(f).handle else replies[at].handle.GetOr(p.wds.Of(f).handle)
    decreases |replies|
  {
    var q := StartAnswered(p, f, callback, replies[0]);
    if StepOf(p.holder.value) < START_LEASE {
      ReachesLeaseLater(p, f, callback, replies);
      HandleFrom(q, f, callback, replies[1..]);
    } else if q.holder.Some? {
      assert StartRun(q, f, callback, replies[1..]).wds.Of(f).handle == q.wds.Of(f).handle by {
        if replies[1..] != [] {
          assert StartAnswered(q, f, callback, replies[1..][0]).holder.None?;
        }
      }
    }
  }

  /**
   The network is reported ready exactly in the runs with a callback whose client, address family, network and lease
   requests all succeeded; the handle then held is the one the network reply carried, if it carried any.
   */
  lemma ReadySentExactly(w: Wds, f: Family, callback: bool, replies: seq<Reply>)
    ensures var p := BeginStart(w, [], f);
            var end := StartRun(p, f, callback, replies);
            && (Notify(IpReady) in end.log <==> callback && ReachesLease(p.holder.value, replies))
            && (Notify(IpReady) in end.log ==>
                  var started := replies[START_NETWORK - StepOf(p.holder.value)];
                  started.ok && end.wds.Of(f).handle == started.handle.GetOr(w.Of(f).handle))
  {
    var p := BeginStart(w, [], f);
    ReadyFrom(p, f, callback, replies);
    if callback && ReachesLease(p.holder.value, replies) {
      HandleFrom(p, f, callback, replies);
    }
  }

  // An answer that brings nothing with it.
  const BARE := Reply(true, 7, 11, 12, None, "LTE")

  /** A network answer without a handle makes the network ready all the same, and no handle is held. */
  lemma ReadyWithoutHandle(f: Family)
    ensures var end := StartRun(BeginStart(Wds(IDLE, IDLE, ""), [], f), f, true, seq(5, _ => BARE));
            Notify(IpReady) in end.log && end.wds.Of(f).handle == INVALID_HANDLE
  {
    var replies := seq(5, _ => BARE);
    ReadySentExactly(Wds(IDLE, IDLE, ""), f, true, replies);
    assert ReachesLease(AllocateClient, replies);
  }

  // ---- Isolation of a stop ----

  /**
   Stopping IPv6 changes nothing of IPv4. Stopping IPv4 leaves IPv6 alone exactly when neither event registration of
   IPv6 stands without its IPv4 counterpart, and stops the IPv6 network exactly when only that one has a handle.
   */
  lemma StopIsolation(w: Wds, log: seq<Action>, r: Reply)
    ensures StopRun(w, log, IPv6, r).wds.v4 == w.v4
    ensures (StopRun(w, log, IPv4, r).wds.v6 == w.v6)
            <==>
            (w.v4.eventId != INVALID_EVENT || w.v6.eventId == INVALID_EVENT)
            && (w.v4.serviceId != INVALID_EVENT || w.v6.serviceId == INVALID_EVENT)
    ensures (BeginStop(w, log, IPv4).holder == Some(StopNetwork(IPv6, w.v6.handle)))
            <==>
            w.v4.handle == INVALID_HANDLE && w.v6.handle != INVALID_HANDLE
  {
    var v := Deregistered(w.With(IPv4, w.v4.(stopping := true)), IPv4);
    assert v.v4.handle == w.v4.handle && v.v6.handle == w.v6.handle;
    assert StopRun(w, log, IPv4, r).wds.v6 == v.v6;
  }

  const LIVE := Session(Some(7), 11, 12, 100, false, false)

  /** An IPv4 stop with nothing of its own to stop takes the events of a live IPv6 session and stops its network. */
  lemma StopReachesAcross(r: Reply)
    ensures var w := Wds(IDLE, LIVE, "LTE");
            && BeginStop(w, [], IPv4).holder == Some(StopNetwork(IPv6, LIVE.handle))
            && StopRun(w, [], IPv4, r).wds.v6 == LIVE.(eventId := INVALID_EVENT, serviceId := INVALID_EVENT)
  {
    StopIsolation(Wds(IDLE, LIVE, "LTE"), [], r);
  }

  // ---- Which client a start talks through ----

  // Every request but the allocation went out on a client that was held.
  ghost predicate Addressed(log: seq<Action>) {
    forall a :: a in log && a.Ask? && a.request != AllocateClient ==> a.client.Some?
  }

  lemma {:induction false} AddressedFrom(p: Progress, f: Family, callback: bool, replies: seq<Reply>)
    requires Addressed(p.log)
    requires p.holder.Some? && !p.holder.value.StopNetwork?
    requires p.holder.value != AllocateClient ==> p.wds.Of(f).client.Some?
    ensures Addressed(StartRun(p, f, callback, replies).log)
    decreases |replies|
  {
    if replies != [] {
      var q := StartAnswered(p, f, callback, replies[0]);
      assert Addressed(q.log);
      if q.holder.Some? {
        AddressedFrom(q, f, callback, replies[1..]);
      }
    }
  }

  /**
   A start talks through a client of its own family under all replies, unless it is an IPv6 start that finds an IPv4
   client and no IPv6 one: the guard that allocates the client looks at the IPv4 one.
   */
  lemma StartAddressed(w: Wds, f: Family, callback: bool)
    ensures (forall replies: seq<Reply> :: Addressed(StartRun(BeginStart(w, [], f), f, callback, replies).log))
            <==> f == IPv4 || w.v4.client.None? || w.v6.client.Some?
  {
    var p := BeginStart(w, [], f);
    if f == IPv4 || w.v4.client.None? || w.v6.client.Some? {
      forall replies: seq<Reply>
        ensures Addressed(StartRun(p, f, callback, replies).log)
      {
        AddressedFrom(p, f, callback, replies);
      }
    } else {
      assert StartRun(p, f, callback, []).log == [Ask(SetIpFamily, None)];
      assert Ask(SetIpFamily, None) in StartRun(p, f, callback, []).log;
    }
  }
}
