/** Every run of a profile operation ends, and asks only what its own line asks for, in its order. */
module ProfileOrder {
  import opened Wrappers
  import opened Profiles
  import opened ProfileProtocol
  import opened ProfileRuns

  // ---- Termination ----

  function StagesLeft(s: State): nat
    requires WellPlaced(s)
  {
    if s.phase.Ended? then 0 else |Plan(s.task.op)| - s.phase.stage
  }

  // Requests whose completion may bring up another request of the same stage.
  function Nests(s: State): nat {
    if s.phase.Waiting? && (s.phase.request.GetDefaultNumber? || s.phase.request.GetProfileList?) then 1 else 0
  }

  function EntriesLeft(s: State): nat {
    if s.phase.Collecting? && s.phase.cursor <= |s.phase.entries| then |s.phase.entries| - s.phase.cursor else 0
  }

  predicate Smaller(a: State, b: State)
    requires WellPlaced(a) && WellPlaced(b)
  {
    || StagesLeft(a) < StagesLeft(b)
    || (StagesLeft(a) == StagesLeft(b) && Nests(a) < Nests(b))
    || (StagesLeft(a) == StagesLeft(b) && Nests(a) == Nests(b) && EntriesLeft(a) < EntriesLeft(b))
  }

  /** Each completion brings a run strictly closer to its end: a later stage, or a shorter list walk. */
  lemma DeliverShrinks(s: State, r: Reply, labelled: bool)
    requires WellPlaced(s) && Owned(s) && !s.phase.Ended?
    ensures Smaller(Deliver(s, r, labelled), s)
  {
    VerdictShape(s, r);
    match VerdictOn(s, r) {
      case Stop(t) =>
      case MoveOn(t) => ResumeShape(t, s.phase.stage + 1, labelled);
      case AskAgain(t, q) =>
      case Walk(t, entries, cursor) =>
        ResumeShape(t.(cache := t.cache.(collected := true)), s.phase.stage + 1, labelled);
    }
  }

  // The first n replies of an environment that will answer every request.
  function Replies(answers: nat -> Reply, from: nat, n: nat): seq<Reply> {
    seq(n, i requires 0 <= i < n => answers(from + i))
  }

  ghost predicate EndsWithin(s: State, answers: nat -> Reply, from: nat, n: nat)
    requires WellPlaced(s)
  {
    Run(s, Replies(answers, from, n), false).phase.Ended?
  }

  lemma EndsOneLater(s: State, answers: nat -> Reply, from: nat, n: nat)
    requires WellPlaced(s) && !s.phase.Ended?
    requires EndsWithin(Deliver(s, answers(from), false), answers, from + 1, n)
    ensures EndsWithin(s, answers, from, n + 1)
  {
    var rs := Replies(answers, from, n + 1);
    assert rs[0] == answers(from) && rs[1..] == Replies(answers, from + 1, n);
  }

  lemma {:induction false} EndsFrom(s: State, answers: nat -> Reply, from: nat)
    requires WellPlaced(s) && Owned(s)
    ensures exists n: nat :: EndsWithin(s, answers, from, n)
    decreases StagesLeft(s), Nests(s), EntriesLeft(s)
  {
    if s.phase.Ended? {
      assert EndsWithin(s, answers, from, 0);
    } else {
      var r := answers(from);
      var s' := Deliver(s, r, false);
      DeliverShrinks(s, r, false);
      DeliverOwned(s, r, false);
      EndsFrom(s', answers, from + 1);
      var n: nat :| EndsWithin(s', answers, from + 1, n);
      EndsOneLater(s, answers, from, n);
    }
  }

  /** Whatever the modem answers, as long as it answers, a run ends after finitely many completions. */
  lemma EveryRunEnds(c: Cache, t: Task, answers: nat -> Reply)
    ensures exists n: nat :: EndsWithin(Begin(c, t), answers, 0, n)
  {
    BeginOwned(c, t);
    EndsFrom(Begin(c, t), answers, 0);
  }

  // ---- Order of the requests ----

  // Where a stage lies on the line of an operation; past the end when it is not one of its own.
  function Place(op: Operation, stage: Stage): (r: nat)
    ensures r <= |Plan(op)|
    ensures r < |Plan(op)| ==> Plan(op)[r] == stage
    ensures r == |Plan(op)| ==> stage !in Plan(op)
  {
    match (op, stage)
    case (_, Allocate) => 0
    case (Create, ReadDefault) => 1
    case (Create, Collect) => 2
    case (Create, Verify) => 3
    case (Create, Add) => 4
    case (Create, MakeDefault) => 5
    case (Create, Attach) => 6
    case (Create, Tell) => 7
    case (Delete, Remove) => 1
    case (Delete, Collect) => 2
    case (Delete, Tell) => 3
    case (Modify, Verify) => 1
    case (Modify, Change) => 2
    case (Modify, MakeDefault) => 3
    case (Modify, Attach) => 4
    case (Modify, Tell) => 5
    case (List, ReadDefault) => 1
    case (List, Collect) => 2
    case _ => |Plan(op)|
  }

  // Strictly later on the line, or the second half of a stage that asks more than once.
  predicate Before(op: Operation, a: Request, b: Request) {
    || Place(op, StageOf(a)) < Place(op, StageOf(b))
    || (a.GetDefaultNumber? && b.GetDefaultSettings?)
    || ((a.GetProfileList? || a.GetEntrySettings?) && b.GetEntrySettings?)
  }

  // Every request belongs to the operation, and no two are out of order.
  ghost predicate InOrder(op: Operation, log: seq<Action>) {
    && (forall i :: 0 <= i < |log| && log[i].Ask? ==> StageOf(log[i].request) in Plan(op))
    && (forall i, j :: 0 <= i < j < |log| && log[i].Ask? && log[j].Ask? ==>
          Before(op, log[i].request, log[j].request))
  }

  // The requests so far come before any request that may follow.
  ghost predicate Behind(op: Operation, log: seq<Action>, q: Request) {
    forall i :: 0 <= i < |log| && log[i].Ask? ==> Before(op, log[i].request, q)
  }

  lemma PlaceOfStage(op: Operation, at: nat)
    requires at < |Plan(op)|
    ensures Place(op, Plan(op)[at]) == at
  {
  }

  lemma InOrderSnoc(op: Operation, log: seq<Action>, a: Action)
    requires InOrder(op, log)
    requires a.Ask? ==> StageOf(a.request) in Plan(op) && Behind(op, log, a.request)
    ensures InOrder(op, log + [a])
  {
    var whole := log + [a];
    forall i | 0 <= i < |whole| && whole[i].Ask? ensures StageOf(whole[i].request) in Plan(op) {
      if i < |log| { assert whole[i] == log[i]; }
    }
    forall i, j | 0 <= i < j < |whole| && whole[i].Ask? && whole[j].Ask?
      ensures Before(op, whole[i].request, whole[j].request)
    {
      assert whole[i] == log[i];
      if j < |log| { assert whole[j] == log[j]; }
    }
  }

  // The log of a suspended run is in order and ends with the request in flight.
  ghost predicate Orderly(s: State)
    requires WellPlaced(s)
  {
    && InOrder(s.task.op, s.log)
    && (!s.phase.Ended? ==>
          && |s.log| > 0 && s.log[|s.log| - 1] == Ask(Holder(s))
          && Plan(s.task.op)[s.phase.stage] == StageOf(Holder(s)))
  }

  // Whatever may follow the request in flight may follow all those before it.
  lemma BehindNext(s: State, tail: seq<Action>, q: Request)
    requires WellPlaced(s) && Orderly(s) && !s.phase.Ended?
    requires forall i :: 0 <= i < |tail| ==> !tail[i].Ask?
    requires Before(s.task.op, Holder(s), q) && StageOf(q) in Plan(s.task.op)
    ensures Behind(s.task.op, s.log + tail, q)
  {
    var op := s.task.op;
    var whole := s.log + tail;
    forall i | 0 <= i < |whole| && whole[i].Ask? ensures Before(op, whole[i].request, q) {
      if i < |s.log| - 1 {
        assert Before(op, s.log[i].request, s.log[|s.log| - 1].request);
      }
    }
  }

  lemma AskedInOrder(s: State, r: Reply, t: State, stage: nat, q: Request)
    requires WellPlaced(s) && Orderly(s) && !s.phase.Ended?
    requires t.log == Reclaimed(s, r).log && t.task.op == s.task.op
    requires stage < |Plan(s.task.op)| && Plan(s.task.op)[stage] == StageOf(q)
    requires stage > s.phase.stage || Before(s.task.op, Holder(s), q)
    ensures InOrder(s.task.op, t.log + [Ask(q)])
  {
    PlaceOfStage(s.task.op, stage);
    PlaceOfStage(s.task.op, s.phase.stage);
    BehindNext(s, [Answer(r)], q);
    InOrderSnoc(s.task.op, s.log, Answer(r));
    InOrderSnoc(s.task.op, s.log + [Answer(r)], Ask(q));
  }

  lemma EndedInOrder(s: State, r: Reply, tail: seq<Action>)
    requires WellPlaced(s) && Orderly(s)
    requires |tail| <= 2 && forall i :: 0 <= i < |tail| ==> !tail[i].Ask?
    ensures InOrder(s.task.op, Reclaimed(s, r).log + tail)
  {
    InOrderSnoc(s.task.op, s.log, Answer(r));
    var log := Reclaimed(s, r).log;
    if |tail| == 0 {
      assert log + tail == log;
    } else {
      InOrderSnoc(s.task.op, log, tail[0]);
      if |tail| == 1 {
        assert log + tail == log + [tail[0]];
      } else {
        InOrderSnoc(s.task.op, log + [tail[0]], tail[1]);
        assert log + tail == log + [tail[0]] + [tail[1]];
      }
    }
  }

  lemma ResumedInOrder(s: State, r: Reply, t: State, labelled: bool)
    requires WellPlaced(s) && Orderly(s) && !s.phase.Ended?
    requires t.log == Reclaimed(s, r).log && t.task.op == s.task.op
    ensures Orderly(Resume(t, s.phase.stage + 1, labelled))
  {
    var stage := s.phase.stage + 1;
    ResumeShape(t, stage, labelled);
    var u := Resume(t, stage, labelled);
    if u.phase.Waiting? {
      AskedInOrder(s, r, t, u.phase.stage, u.phase.request);
    } else if u.log == t.log + [Release] {
      EndedInOrder(s, r, [Release]);
    } else {
      var n :| u.log == t.log + [Notify(n), Release];
      EndedInOrder(s, r, [Notify(n), Release]);
    }
  }

  lemma StoppedInOrder(s: State, r: Reply)
    requires WellPlaced(s) && Orderly(s) && Owned(s) && !s.phase.Ended? && VerdictOn(s, r).Stop?
    ensures Orderly(Ending(VerdictOn(s, r).after))
  {
    VerdictShape(s, r);
    var log := Reclaimed(s, r).log;
    EndedInOrder(s, r, [Release]);
    EndedInOrder(s, r, [Notify(NotReady), Release]);
    assert log + [Notify(NotReady)] + [Release] == log + [Notify(NotReady), Release];
  }

  lemma WalkedInOrder(s: State, r: Reply, labelled: bool)
    requires WellPlaced(s) && Orderly(s) && Owned(s) && !s.phase.Ended? && VerdictOn(s, r).Walk?
    ensures Orderly(Deliver(s, r, labelled))
  {
    VerdictShape(s, r);
    var v := VerdictOn(s, r);
    var t := v.after;
    if v.cursor < |v.entries| && t.cache.listing.Some? && v.cursor < |t.cache.listing.value| {
      AskedInOrder(s, r, t, s.phase.stage, GetEntrySettings(v.entries[v.cursor].index));
    } else {
      ResumedInOrder(s, r, t.(cache := t.cache.(collected := true)), labelled);
    }
  }

  lemma DeliverOrderly(s: State, r: Reply, labelled: bool)
    requires WellPlaced(s) && Orderly(s) && Owned(s)
    ensures Orderly(Deliver(s, r, labelled))
  {
    if s.phase.Ended? { return; }
    VerdictShape(s, r);
    match VerdictOn(s, r) {
      case Stop(t) =>
        StoppedInOrder(s, r);
      case MoveOn(t) =>
        ResumedInOrder(s, r, t, labelled);
      case AskAgain(t, q) =>
        AskedInOrder(s, r, t, s.phase.stage, q);
      case Walk(t, entries, cursor) =>
        WalkedInOrder(s, r, labelled);
    }
  }

  lemma BeginOrderly(c: Cache, t: Task)
    ensures Orderly(Begin(c, t))
  {
    var s := State(if t.op == List then c.(collected := false) else c, t.(present := false), Ended, []);
    ProceedShape(s, 0);
    var u := Begin(c, t);
    if u.phase.Ended? && Tells(s, 0) {
      var n :| Farewell(t.op, n) && u.log == [] + [Notify(n), Release];
    }
  }

  lemma {:induction false} RunOrderlyFrom(s: State, replies: seq<Reply>)
    requires WellPlaced(s) && Orderly(s) && Owned(s)
    ensures Orderly(Run(s, replies, false))
    decreases |replies|
  {
    if replies != [] && !s.phase.Ended? {
      DeliverOrderly(s, replies[0], false);
      DeliverOwned(s, replies[0], false);
      RunOrderlyFrom(Deliver(s, replies[0], false), replies[1..]);
    }
  }

  /** Under every pattern of answers a run asks only for its own operation, each thing once, in the order of its line. */
  lemma RunInOrder(c: Cache, t: Task, replies: seq<Reply>)
    ensures InOrder(t.op, Run(Begin(c, t), replies, false).log)
  {
    BeginOwned(c, t);
    BeginOrderly(c, t);
    RunOrderlyFrom(Begin(c, t), replies);
  }
}
