/** Where each client of the two families goes, by its number: granted, held, given back, or lost. */
module NetworkClients {
  import opened Wrappers
  import opened NetworkConversation
  import opened NetworkProtocol

  // Once or not at all, in the fields of the family.
  function Held(w: Wds, f: Family, n: nat): nat {
    if (if f == IPv4 then w.v4 else w.v6).client == Some(n) then 1 else 0
  }

  // How often client n was granted, in the log of one run.
  function Grants(log: seq<Action>, n: nat): nat {
    if log == [] then 0
    else Grants(log[..|log| - 1], n) + if GrantedLast(log, n) then 1 else 0
  }

  predicate GrantedLast(log: seq<Action>, n: nat) {
    var k := |log|;
    && k >= 2 && log[k - 2].Ask? && log[k - 2].request == AllocateClient
    && log[k - 1].Answer? && log[k - 1].reply.ok && log[k - 1].reply.client == n
  }

  // How often client n was given back as a family's.
  function Returns(log: seq<Action>, f: Family, n: nat): nat {
    if log == [] then 0
    else Returns(log[..|log| - 1], f, n) + if log[|log| - 1] == ReleaseClient(f, n) then 1 else 0
  }

  lemma GrantsNext(log: seq<Action>, a: Action, n: nat)
    ensures Grants(log + [a], n) == Grants(log, n) + if GrantedLast(log + [a], n) then 1 else 0
  {
    assert (log + [a])[..|log|] == log;
  }

  // Actions other than answers are no grants.
  lemma {:induction false} GrantsAfter(log: seq<Action>, more: seq<Action>, n: nat)
    requires forall a :: a in more ==> !a.Answer?
    ensures Grants(log + more, n) == Grants(log, n)
    decreases |more|
  {
    if more == [] {
      assert log + more == log;
    } else {
      var init, last := more[..|more| - 1], more[|more| - 1];
      assert log + more == (log + init) + [last];
      GrantsAfter(log, init, n);
      GrantsNext(log + init, last, n);
    }
  }

  // ---- A start ----

  // The last action of a run at rest is the request that holds it.
  predicate Asked(p: Progress) {
    p.holder.Some? ==>
      p.log != [] && p.log[|p.log| - 1].Ask? && p.log[|p.log| - 1].request == p.holder.value
      && !p.holder.value.StopNetwork?
  }

  // What an answer leads to is no answer.
  lemma AnswerAdds(p: Progress, f: Family, callback: bool, r: Reply)
    requires p.holder.Some? && Asked(p)
    ensures var q := StartAnswered(p, f, callback, r);
            && |q.log| > |p.log| && q.log[..|p.log| + 1] == p.log + [Answer(r)]
            && (forall a :: a in q.log[|p.log| + 1..] ==> !a.Answer?)
            && Asked(q)
            && (q.holder.Some? ==> q.holder.value != AllocateClient)
            && q.wds.Of(f).client == if p.holder.value == AllocateClient && r.ok then Some(r.client) else p.wds.Of(f).client
  {
  }

  lemma AnswerGrants(p: Progress, f: Family, callback: bool, r: Reply, n: nat)
    requires p.holder.Some? && Asked(p)
    ensures var q := StartAnswered(p, f, callback, r);
            Grants(q.log, n)
            == Grants(p.log, n) + if p.holder.value == AllocateClient && r.ok && r.client == n then 1 else 0
  {
    AnswerAdds(p, f, callback, r);
    var q := StartAnswered(p, f, callback, r);
    assert q.log == (p.log + [Answer(r)]) + q.log[|p.log| + 1..];
    GrantsAfter(p.log + [Answer(r)], q.log[|p.log| + 1..], n);
    GrantsNext(p.log, Answer(r), n);
  }

  lemma {:induction false} RestGrantsNothing(p: Progress, f: Family, callback: bool, replies: seq<Reply>, n: nat)
    requires Asked(p) && (p.holder.Some? ==> p.holder.value != AllocateClient)
    ensures var end := StartRun(p, f, callback, replies);
            Grants(end.log, n) == Grants(p.log, n) && end.wds.Of(f).client == p.wds.Of(f).client
    decreases |replies|
  {
    if p.holder.Some? && replies != [] {
      AnswerGrants(p, f, callback, replies[0], n);
      AnswerAdds(p, f, callback, replies[0]);
      RestGrantsNothing(StartAnswered(p, f, callback, replies[0]), f, callback, replies[1..], n);
    }
  }

  // Caller-checkable: an IPv6 start that will allocate a client, although the family has one.
  predicate Overwrites(w: Wds, f: Family) {
    f == IPv6 && w.v4.client.None? && w.v6.client.Some?
  }

  // The client a start loses: the one held, when a second one is granted in its place.
  function Lost(w: Wds, f: Family, replies: seq<Reply>, n: nat): nat {
    if Overwrites(w, f) && w.v6.client == Some(n) && replies != [] && replies[0].ok then 1 else 0
  }

  lemma OneAsk(a: Action, n: nat)
    requires a.Ask?
    ensures Grants([a], n) == 0
  {
    assert [a][..0] == [];
  }

  lemma BeginAsks(w: Wds, f: Family, n: nat)
    ensures var p := BeginStart(w, [], f);
            && Asked(p) && Grants(p.log, n) == 0 && p.wds.Of(f).client == w.Of(f).client
            && p.holder == Some(if w.v4.client.None? then AllocateClient else SetIpFamily)
  {
    var p := BeginStart(w, [], f);
    assert |p.log| == 1 && p.log == [p.log[0]];
    OneAsk(p.log[0], n);
  }

  // From a run that waits for its client: what it is granted is what it then holds.
  lemma AllocatedRun(p: Progress, f: Family, callback: bool, replies: seq<Reply>, n: nat)
    requires p.holder == Some(AllocateClient) && Asked(p) && Grants(p.log, n) == 0 && replies != []
    ensures var end := StartRun(p, f, callback, replies);
            && Grants(end.log, n) == (if replies[0].ok && replies[0].client == n then 1 else 0)
            && end.wds.Of(f).client == if replies[0].ok then Some(replies[0].client) else p.wds.Of(f).client
  {
    AnswerGrants(p, f, callback, replies[0], n);
    AnswerAdds(p, f, callback, replies[0]);
    RestGrantsNothing(StartAnswered(p, f, callback, replies[0]), f, callback, replies[1..], n);
  }

  lemma AllocatingStart(w: Wds, f: Family, callback: bool, replies: seq<Reply>, n: nat)
    requires w.v4.client.None? && replies != []
    ensures var end := StartRun(BeginStart(w, [], f), f, callback, replies);
            && Grants(end.log, n) == (if replies[0].ok && replies[0].client == n then 1 else 0)
            && end.wds.Of(f).client == if replies[0].ok then Some(replies[0].client) else w.Of(f).client
  {
    BeginAsks(w, f, n);
    AllocatedRun(BeginStart(w, [], f), f, callback, replies, n);
  }

  // Any other start holds what was held.
  lemma SettledStart(w: Wds, f: Family, callback: bool, replies: seq<Reply>, n: nat)
    requires w.v4.client.Some? || replies == []
    ensures var end := StartRun(BeginStart(w, [], f), f, callback, replies);
            Grants(end.log, n) == 0 && end.wds.Of(f).client == w.Of(f).client
  {
    BeginAsks(w, f, n);
    if w.v4.client.Some? {
      RestGrantsNothing(BeginStart(w, [], f), f, callback, replies, n);
    }
  }

  /** A client held before a start or granted by it is held after it, but for the one it overwrites. */
  lemma StartAccounts(w: Wds, f: Family, callback: bool, replies: seq<Reply>, n: nat)
    ensures var end := StartRun(BeginStart(w, [], f), f, callback, replies);
            Grants(end.log, n) + Held(w, f, n) == Held(end.wds, f, n) + Lost(w, f, replies, n)
  {
    if w.v4.client.None? && replies != [] {
      AllocatingStart(w, f, callback, replies, n);
    } else {
      SettledStart(w, f, callback, replies, n);
    }
  }

  // ---- A stop ----

  lemma {:induction false} ReturnsAppend(a: seq<Action>, b: seq<Action>, f: Family, n: nat)
    ensures Returns(a + b, f, n) == Returns(a, f, n) + Returns(b, f, n)
    decreases |b|
  {
    if b == [] {
      assert a + b == a;
    } else {
      var init, last := b[..|b| - 1], b[|b| - 1];
      assert a + b == (a + init) + [last] && ((a + init) + [last])[..|a + init|] == a + init;
      ReturnsAppend(a, init, f, n);
    }
  }

  lemma {:induction false} ReturnsNothing(log: seq<Action>, f: Family, n: nat)
    requires forall a :: a in log ==> !a.ReleaseClient?
    ensures Returns(log, f, n) == 0
    decreases |log|
  {
    if log != [] { ReturnsNothing(log[..|log| - 1], f, n); }
  }

  lemma ReturningReturns(client: Option<nat>, f: Family, g: Family, n: nat)
    ensures Returns(Returning(client, f) + [Release], g, n) == if f == g && client == Some(n) then 1 else 0
  {
    assert Returns([Release], g, n) == 0 by { assert [Release][..0] == []; }
    ReturnsAppend(Returning(client, f), [Release], g, n);
    if client.Some? {
      var back := ReleaseClient(f, client.value);
      assert Returning(client, f) == [back] && [back][..0] == [];
    }
  }

  lemma SaidReturns(log: seq<Action>, w: Wds, f: Family, r: Reply, g: Family, n: nat)
    requires log == StopSaid(w, f, r)
    ensures Returns(log, g, n) == if f == g then Held(w, f, n) else 0
  {
    var before, back := Unregistering(w, f) + Stopping(w, f, r), Returning(Own(w, f).client, f);
    assert log == before + (back + [Release]);
    ReturnsAppend(before, back + [Release], g, n);
    ReturnsNothing(before, g, n);
    ReturningReturns(Own(w, f).client, f, g, n);
  }

  lemma StopReturns(w: Wds, f: Family, r: Reply, g: Family, n: nat)
    ensures Returns(StopRun(w, [], f, r).log, g, n) == if f == g then Held(w, f, n) else 0
  {
    StopConverses(w, f, r);
    SaidReturns(StopRun(w, [], f, r).log, w, f, r, g, n);
  }

  lemma StopKeepsOther(w: Wds, f: Family, r: Reply)
    ensures var end := StopRun(w, [], f, r).wds;
            end.Of(f).client == None && end.Of(Other(f)).client == w.Of(Other(f)).client
  {
    var v := Deregistered(w.With(f, w.Of(f).(stopping := true)), f);
    assert v.Of(f).client == w.Of(f).client && v.Of(Other(f)).client == w.Of(Other(f)).client;
  }

  /** A stop gives back the very client its family holds, if there is one, once, and none of the other's. */
  lemma StopAccounts(w: Wds, f: Family, r: Reply, g: Family, n: nat)
    ensures var end := StopRun(w, [], f, r);
            && Returns(end.log, g, n) + Held(end.wds, g, n) == Held(w, g, n)
            && (f == g ==> Held(end.wds, g, n) == 0) && (f != g ==> Returns(end.log, g, n) == 0)
  {
    StopReturns(w, f, r, g, n);
    StopKeepsOther(w, f, r);
  }

  // ---- Sequences of runs ----

  datatype Operation = Start(family: Family, callback: bool, replies: seq<Reply>) | Stop(family: Family, reply: Reply)

  // One run, with a log of its own.
  function Operated(w: Wds, o: Operation): Progress {
    match o
    case Start(f, callback, replies) => StartRun(BeginStart(w, [], f), f, callback, replies)
    case Stop(f, r) => StopRun(w, [], f, r)
  }

  function After(w: Wds, operations: seq<Operation>): Wds
    decreases |operations|
  {
    if operations == [] then w else After(Operated(w, operations[0]).wds, operations[1..])
  }

  // How often a sequence of runs grants, takes back and loses a client of a family.
  datatype Ledger = Ledger(granted: nat, returned: nat, lost: nat)

  function Entry(w: Wds, o: Operation, f: Family, n: nat): Ledger {
    match o
    case Start(g, _, replies) =>
      if f == g then Ledger(Grants(Operated(w, o).log, n), 0, Lost(w, f, replies, n)) else Ledger(0, 0, 0)
    case Stop(_, _) => Ledger(0, Returns(Operated(w, o).log, f, n), 0)
  }

  function Accounts(w: Wds, operations: seq<Operation>, f: Family, n: nat): Ledger
    decreases |operations|
  {
    if operations == [] then Ledger(0, 0, 0)
    else
      var e, rest := Entry(w, operations[0], f, n), Accounts(Operated(w, operations[0]).wds, operations[1..], f, n);
      Ledger(e.granted + rest.granted, e.returned + rest.returned, e.lost + rest.lost)
  }

  lemma {:induction false} StartKeepsOther(p: Progress, f: Family, callback: bool, replies: seq<Reply>)
    ensures StartRun(p, f, callback, replies).wds.Of(Other(f)).client == p.wds.Of(Other(f)).client
    decreases |replies|
  {
    if p.holder.Some? && replies != [] {
      StartKeepsOther(StartAnswered(p, f, callback, replies[0]), f, callback, replies[1..]);
    }
  }

  lemma StartEnters(w: Wds, g: Family, callback: bool, replies: seq<Reply>, f: Family, n: nat)
    ensures var o := Start(g, callback, replies);
            var e := Entry(w, o, f, n);
            e.granted + Held(w, f, n) == e.returned + Held(Operated(w, o).wds, f, n) + e.lost
  {
    if f == g {
      StartAccounts(w, f, callback, replies, n);
    } else {
      StartKeepsOther(BeginStart(w, [], g), g, callback, replies);
    }
  }

  lemma OperatedAccounts(w: Wds, o: Operation, f: Family, n: nat)
    ensures var e := Entry(w, o, f, n);
            e.granted + Held(w, f, n) == e.returned + Held(Operated(w, o).wds, f, n) + e.lost
  {
    match o
    case Start(g, callback, replies) => StartEnters(w, g, callback, replies, f, n);
    case Stop(g, r) => StopAccounts(w, g, r, f, n);
  }

  /**
   Over any sequence of starts and stops every client of a family adds up: as often as it was granted or held before, it
   is given back, held after or lost.
   */
  lemma {:induction false} ClientsAddUp(w: Wds, operations: seq<Operation>, f: Family, n: nat)
    ensures var e := Accounts(w, operations, f, n);
            e.granted + Held(w, f, n) == e.returned + Held(After(w, operations), f, n) + e.lost
    decreases |operations|
  {
    if operations != [] {
      OperatedAccounts(w, operations[0], f, n);
      ClientsAddUp(Operated(w, operations[0]).wds, operations[1..], f, n);
    }
  }

  ghost predicate Conserves(w: Wds, f: Family, callback: bool, replies: seq<Reply>, n: nat) {
    var end := StartRun(BeginStart(w, [], f), f, callback, replies);
    Grants(end.log, n) + Held(w, f, n) == Held(end.wds, f, n)
  }

  /**
   A start conserves each of its family's clients under all replies, if and only if it is not an IPv6 start that finds an
   IPv6 client and no IPv4 one: that one allocates a second client over the first, which is never given back.
   */
  lemma StartConservesExactly(w: Wds, f: Family, callback: bool)
    ensures (forall replies: seq<Reply>, n: nat :: Conserves(w, f, callback, replies, n)) <==> !Overwrites(w, f)
  {
    if Overwrites(w, f) {
      var replies, n := [Reply(true, 1, 0, 0, None, "")], w.v6.client.value;
      StartAccounts(w, f, callback, replies, n);
      assert Lost(w, f, replies, n) == 1;
      assert !Conserves(w, f, callback, replies, n);
    } else {
      forall replies: seq<Reply>, n: nat
        ensures Conserves(w, f, callback, replies, n)
      {
        StartAccounts(w, f, callback, replies, n);
      }
    }
  }
}
