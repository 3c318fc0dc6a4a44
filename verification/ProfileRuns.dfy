/** What holds over every run of a profile operation, however the modem answers. */
module ProfileRuns {
  import opened Wrappers
  import opened Profiles
  import opened ProfileProtocol

  // ---- Counting what a log holds ----

  datatype Tally = Tally(asks: nat, answers: nat, releases: nat, notices: seq<Notice>)

  function Counted(t: Tally, a: Action): Tally {
    match a
    case Ask(_) => t.(asks := t.asks + 1)
    case Answer(_) => t.(answers := t.answers + 1)
    case Release => t.(releases := t.releases + 1)
    case Notify(n) => t.(notices := t.notices + [n])
  }

  function Count(log: seq<Action>): Tally {
    if log == [] then Tally(0, 0, 0, []) else Counted(Count(log[..|log| - 1]), log[|log| - 1])
  }

  function Notices(log: seq<Action>): seq<Notice> { Count(log).notices }

  lemma CountSnoc(log: seq<Action>, a: Action)
    ensures Count(log + [a]) == Counted(Count(log), a)
  {
    assert (log + [a])[..|log|] == log;
  }

  // ---- The tail a straight line leaves in the log ----

  predicate Tells(s: State, stage: nat) {
    s.task.callback && s.task.op != List && stage < |Plan(s.task.op)|
  }

  predicate Farewell(op: Operation, n: Notice) {
    if op == Delete then n.Deleted? else n.Ready?
  }

  // Either the line came to a request of its own, or it ran to the end, with at most one word to the caller.
  ghost predicate Shaped(s: State, stage: nat, r: State) {
    && WellPlaced(r)
    && r.task.op == s.task.op
    && r.task.callback == s.task.callback
    && !r.phase.Collecting?
    && (r.phase.Waiting? ==>
          && r.phase.stage >= stage
          && Plan(s.task.op)[r.phase.stage] == StageOf(r.phase.request)
          && !r.phase.request.GetDefaultSettings? && !r.phase.request.GetEntrySettings?
          && r.log == s.log + [Ask(r.phase.request)])
    && (r.phase.Ended? ==>
          && r.cache.collected == s.cache.collected
          && if Tells(s, stage)
             then exists n :: Farewell(s.task.op, n) && r.log == s.log + [Notify(n), Release]
             else r.log == s.log + [Release])
  }

  lemma ToldShape(s: State, stage: nat)
    requires stage < |Plan(s.task.op)| && Plan(s.task.op)[stage] == Tell
    ensures Shaped(s, stage, Ending(Told(s)))
  {
    if s.task.callback {
      var t := Told(s);
      var n := t.log[|s.log|].notice;
      assert t.log + [Release] == s.log + [Notify(n), Release];
    }
  }

  lemma PassedShape(s: State, stage: nat, r: State)
    requires stage < |Plan(s.task.op)| && Plan(s.task.op)[stage] != Tell
    requires Shaped(Passed(s, Plan(s.task.op)[stage]), stage + 1, r)
    ensures Shaped(s, stage, r)
  {
    var t := Passed(s, Plan(s.task.op)[stage]);
    assert t.log == s.log && t.cache.collected == s.cache.collected;
    assert Tells(t, stage + 1) == Tells(s, stage);
  }

  lemma {:induction false} ProceedShape(s: State, stage: nat)
    requires stage <= |Plan(s.task.op)|
    ensures Shaped(s, stage, Proceed(s, stage))
    decreases |Plan(s.task.op)| - stage
  {
    if stage < |Plan(s.task.op)| {
      var here := Plan(s.task.op)[stage];
      if Wanted(s.cache, s.task, here).None? {
        var t := Passed(s, here);
        if here == Tell {
          assert stage + 1 == |Plan(s.task.op)|;
          assert Proceed(t, stage + 1) == Ending(t);
          ToldShape(s, stage);
        } else {
          ProceedShape(t, stage + 1);
          PassedShape(s, stage, Proceed(t, stage + 1));
        }
      }
    }
  }

  // Where the missing label bites, the task is released without a word.
  lemma ResumeShape(s: State, stage: nat, labelled: bool)
    requires stage <= |Plan(s.task.op)|
    ensures var r := Resume(s, stage, labelled);
            if !labelled && s.task.op == Modify && stage == MODIFY_ATTACH
            then r == Ending(s)
            else Shaped(s, stage, r)
  {
    ProceedShape(s, stage);
  }

  // ---- Linear ownership of the task ----

  // The request that holds the task.
  function Holder(s: State): Request
    requires !s.phase.Ended?
  {
    match s.phase
    case Waiting(_, q) => q
    case Collecting(_, entries, cursor) =>
      GetEntrySettings(if cursor < |entries| then entries[cursor].index else 0)
  }

  // Exactly one request holds the task, or it was released exactly once.
  predicate Owned(s: State)
    requires WellPlaced(s)
  {
    var t := Count(s.log);
    if s.phase.Ended? then
      t.asks == t.answers && t.releases == 1 && |t.notices| <= 1
    else
      && t.asks == t.answers + 1 && t.releases == 0 && t.notices == []
      && |s.log| > 0 && s.log[|s.log| - 1] == Ask(Holder(s))
      && Plan(s.task.op)[s.phase.stage] == StageOf(Holder(s))
      && (s.phase.Waiting? ==> !s.phase.request.GetEntrySettings?)
      && (s.phase.Collecting? ==> s.phase.cursor < |s.phase.entries|)
  }

  // The machine itself holds the task, between a completion and what it leads to.
  predicate InHand(s: State) {
    var t := Count(s.log);
    t.asks == t.answers && t.releases == 0 && t.notices == []
  }

  lemma ReclaimedInHand(s: State, r: Reply)
    requires WellPlaced(s) && Owned(s) && !s.phase.Ended?
    ensures InHand(Reclaimed(s, r))
  {
    CountSnoc(s.log, Answer(r));
  }

  lemma EndingOwned(s: State)
    requires Count(s.log).asks == Count(s.log).answers && Count(s.log).releases == 0 && |Count(s.log).notices| <= 1
    ensures Owned(Ending(s))
  {
    CountSnoc(s.log, Release);
  }

  lemma AskingOwned(s: State, stage: nat, q: Request)
    requires InHand(s) && stage < |Plan(s.task.op)| && Plan(s.task.op)[stage] == StageOf(q) && !q.GetEntrySettings?
    ensures Owned(Asking(s, stage, q))
  {
    CountSnoc(s.log, Ask(q));
  }

  lemma CountFarewell(log: seq<Action>, n: Notice)
    ensures Count(log + [Notify(n), Release]) == Counted(Counted(Count(log), Notify(n)), Release)
  {
    assert log + [Notify(n), Release] == log + [Notify(n)] + [Release];
    CountSnoc(log + [Notify(n)], Release);
    CountSnoc(log, Notify(n));
  }

  lemma AskedOwned(s: State, r: State)
    requires InHand(s) && WellPlaced(r) && r.phase.Waiting? && !r.phase.request.GetEntrySettings?
    requires Plan(r.task.op)[r.phase.stage] == StageOf(r.phase.request) && r.log == s.log + [Ask(r.phase.request)]
    ensures Owned(r)
  {
    CountSnoc(s.log, Ask(r.phase.request));
  }

  lemma ToldOwned(s: State, r: State, n: Notice)
    requires InHand(s) && r.phase.Ended? && r.log == s.log + [Notify(n), Release]
    ensures Owned(r)
  {
    CountFarewell(s.log, n);
  }

  lemma ReleasedOwned(s: State, r: State)
    requires InHand(s) && r.phase.Ended? && r.log == s.log + [Release]
    ensures Owned(r)
  {
    CountSnoc(s.log, Release);
  }

  lemma ShapedOwned(s: State, stage: nat, r: State)
    requires InHand(s) && Shaped(s, stage, r)
    ensures Owned(r)
  {
    if r.phase.Waiting? {
      AskedOwned(s, r);
    } else if Tells(s, stage) {
      var n :| Farewell(s.task.op, n) && r.log == s.log + [Notify(n), Release];
      ToldOwned(s, r, n);
    } else {
      ReleasedOwned(s, r);
    }
  }

  lemma ResumeOwned(s: State, stage: nat, labelled: bool)
    requires InHand(s) && stage <= |Plan(s.task.op)|
    ensures Owned(Resume(s, stage, labelled))
  {
    ResumeShape(s, stage, labelled);
    if !labelled && s.task.op == Modify && stage == MODIFY_ATTACH {
      EndingOwned(s);
    } else {
      ShapedOwned(s, stage, Resume(s, stage, labelled));
    }
  }

  lemma NextEntryOwned(s: State, stage: nat, entries: seq<ListEntry>, cursor: nat, labelled: bool)
    requires InHand(s) && stage < |Plan(s.task.op)| && Plan(s.task.op)[stage] == Collect
    ensures Owned(NextEntry(s, stage, entries, cursor, labelled))
  {
    if cursor < |entries| && s.cache.listing.Some? && cursor < |s.cache.listing.value| {
      CountSnoc(s.log, Ask(GetEntrySettings(entries[cursor].index)));
    } else {
      ResumeOwned(s.(cache := s.cache.(collected := true)), stage + 1, labelled);
    }
  }

  // What a verdict leaves of the task: the reply logged, and a word only when a create request failed.
  lemma VerdictShape(s: State, r: Reply)
    requires WellPlaced(s) && !s.phase.Ended?
    ensures var v := VerdictOn(s, r);
            && v.after.task.op == s.task.op
            && v.after.task.callback == s.task.callback
            && (if v.Stop? && s.phase.Waiting? && s.phase.request.CreateProfile? && s.task.callback
                then v.after.log == Reclaimed(s, r).log + [Notify(NotReady)]
                else v.after.log == Reclaimed(s, r).log)
            && (v.AskAgain? ==> v.request.GetDefaultSettings? && s.phase.request.GetDefaultNumber?)
            && (v.Walk? ==> Holder(s).GetEntrySettings? || Holder(s).GetProfileList?)
  {
  }

  lemma VerdictOwned(s: State, r: Reply)
    requires WellPlaced(s) && Owned(s) && !s.phase.Ended?
    ensures var v := VerdictOn(s, r);
            if v.Stop? then Owned(Ending(v.after)) else InHand(v.after)
  {
    VerdictShape(s, r);
    ReclaimedInHand(s, r);
    var v := VerdictOn(s, r);
    if v.Stop? {
      CountSnoc(Reclaimed(s, r).log, Notify(NotReady));
      EndingOwned(v.after);
    }
  }

  lemma DeliverOwned(s: State, r: Reply, labelled: bool)
    requires WellPlaced(s) && Owned(s)
    ensures Owned(Deliver(s, r, labelled))
  {
    if s.phase.Ended? { return; }
    VerdictShape(s, r);
    VerdictOwned(s, r);
    match VerdictOn(s, r) {
      case Stop(t) =>
      case MoveOn(t) => ResumeOwned(t, s.phase.stage + 1, labelled);
      case AskAgain(t, q) => AskingOwned(t, s.phase.stage, q);
      case Walk(t, entries, cursor) => NextEntryOwned(t, s.phase.stage, entries, cursor, labelled);
    }
  }

  lemma BeginOwned(c: Cache, t: Task)
    ensures Owned(Begin(c, t))
  {
    var s := State(if t.op == List then c.(collected := false) else c, t.(present := false), Ended, []);
    ResumeOwned(s, 0, true);
  }

  lemma {:induction false} RunOwnedFrom(s: State, replies: seq<Reply>, labelled: bool)
    requires WellPlaced(s) && Owned(s)
    ensures Owned(Run(s, replies, labelled))
    decreases |replies|
  {
    if replies != [] && !s.phase.Ended? {
      DeliverOwned(s, replies[0], labelled);
      RunOwnedFrom(Deliver(s, replies[0], labelled), replies[1..], labelled);
    }
  }

  /** At every point of every run the task is held by exactly one request, or released exactly once and for good. */
  lemma RunOwned(c: Cache, t: Task, replies: seq<Reply>)
    ensures Owned(Run(Begin(c, t), replies, false))
  {
    BeginOwned(c, t);
    RunOwnedFrom(Begin(c, t), replies, false);
  }
}
