/** What the caller of a profile operation is told, over every run. */
module ProfileNotices {
  import opened Wrappers
  import opened Profiles
  import opened ProfileProtocol
  import opened ProfileRuns

  // A completion that gives the run what it asked for.
  predicate Succeeded(q: Request, r: Reply) {
    r.ok && (q.GetDefaultNumber? || q.CreateProfile? ==> r.index.Some?)
  }

  ghost predicate AllSucceeded(log: seq<Action>) {
    forall i :: 0 <= i < |log| - 1 && log[i].Ask? && log[i + 1].Answer? ==> Succeeded(log[i].request, log[i + 1].reply)
  }

  ghost predicate Acknowledged(log: seq<Action>) {
    exists i :: 0 <= i < |log| - 1 && log[i].Ask? && log[i].request.DeleteProfile? && log[i + 1].Answer? && log[i + 1].reply.ok
  }

  // ---- The last completion of a run decides what is said ----

  // The one resumption at which the missing label ends the task.
  predicate Swallowed(s: State, labelled: bool) {
    !labelled && s.task.op == Modify && !s.phase.Ended? && s.phase.stage + 1 == MODIFY_ATTACH
  }

  lemma ResumedNotices(t: State, stage: nat, labelled: bool)
    requires InHand(t) && stage <= |Plan(t.task.op)| && Resume(t, stage, labelled).phase.Ended?
    ensures var told := Notices(Resume(t, stage, labelled).log);
            if (!labelled && t.task.op == Modify && stage == MODIFY_ATTACH) || !Tells(t, stage) then told == []
            else |told| == 1 && Farewell(t.task.op, told[0])
  {
    ResumeShape(t, stage, labelled);
    CountSnoc(t.log, Release);
    var u := Resume(t, stage, labelled);
    if !(!labelled && t.task.op == Modify && stage == MODIFY_ATTACH) && Tells(t, stage) {
      var n :| Farewell(t.task.op, n) && u.log == t.log + [Notify(n), Release];
      CountFarewell(t.log, n);
    }
  }

  lemma StoppedFailed(s: State, r: Reply)
    requires WellPlaced(s) && Owned(s) && !s.phase.Ended? && VerdictOn(s, r).Stop?
    ensures !Succeeded(Holder(s), r)
  {
  }

  lemma StoppedNotices(s: State, r: Reply)
    requires WellPlaced(s) && Owned(s) && !s.phase.Ended? && VerdictOn(s, r).Stop?
    ensures !Succeeded(Holder(s), r)
    ensures Notices(Ending(VerdictOn(s, r).after).log)
         == (if Holder(s).CreateProfile? && s.task.callback then [NotReady] else [])
  {
    StoppedFailed(s, r);
    VerdictShape(s, r);
    ReclaimedInHand(s, r);
    var log := VerdictOn(s, r).after.log;
    CountSnoc(Reclaimed(s, r).log, Notify(NotReady));
    CountSnoc(log, Release);
  }

  // A run other than a list ends before its last stage, so there is still something to tell.
  lemma TellsNext(s: State, t: State)
    requires WellPlaced(s) && Owned(s) && !s.phase.Ended?
    requires t.task.op == s.task.op && t.task.callback == s.task.callback
    ensures Tells(t, s.phase.stage + 1) <==> s.task.callback && s.task.op != List
  {
  }

  // The notices of a run that ends with this completion.
  predicate LastWord(s: State, r: Reply, labelled: bool, told: seq<Notice>)
    requires !s.phase.Ended?
  {
    if VerdictOn(s, r).Stop? then
      && !Succeeded(Holder(s), r)
      && told == (if Holder(s).CreateProfile? && s.task.callback then [NotReady] else [])
    else if Swallowed(s, labelled) || !s.task.callback || s.task.op == List then told == []
    else |told| == 1 && Farewell(s.task.op, told[0])
  }

  lemma DeliverNotices(s: State, r: Reply, labelled: bool)
    requires WellPlaced(s) && Owned(s) && !s.phase.Ended? && Deliver(s, r, labelled).phase.Ended?
    ensures LastWord(s, r, labelled, Notices(Deliver(s, r, labelled).log))
  {
    VerdictOwned(s, r);
    var v := VerdictOn(s, r);
    if v.Stop? {
      StoppedNotices(s, r);
    } else {
      VerdictShape(s, r);
      var t := if v.Walk? then v.after.(cache := v.after.cache.(collected := true)) else v.after;
      TellsNext(s, t);
      assert Deliver(s, r, labelled) == Resume(t, s.phase.stage + 1, labelled);
      ResumedNotices(t, s.phase.stage + 1, labelled);
    }
  }

  // ---- Logs only grow ----

  lemma ResumeGrows(t: State, stage: nat, labelled: bool)
    requires stage <= |Plan(t.task.op)|
    ensures t.log <= Resume(t, stage, labelled).log
  {
    ResumeShape(t, stage, labelled);
  }

  lemma DeliverGrows(s: State, r: Reply, labelled: bool)
    requires WellPlaced(s) && !s.phase.Ended?
    ensures s.log + [Answer(r)] <= Deliver(s, r, labelled).log
  {
    VerdictShape(s, r);
    var base := s.log + [Answer(r)];
    var v := VerdictOn(s, r);
    assert base <= v.after.log;
    match v {
      case Stop(t) =>
      case MoveOn(t) => ResumeGrows(t, s.phase.stage + 1, labelled);
      case AskAgain(t, q) =>
      case Walk(t, entries, cursor) =>
        ResumeGrows(t.(cache := t.cache.(collected := true)), s.phase.stage + 1, labelled);
    }
  }

  lemma {:induction false} RunGrows(s: State, replies: seq<Reply>, labelled: bool)
    requires WellPlaced(s)
    ensures s.log <= Run(s, replies, labelled).log
    decreases |replies|
  {
    if replies != [] && !s.phase.Ended? {
      DeliverGrows(s, replies[0], labelled);
      RunGrows(Deliver(s, replies[0], labelled), replies[1..], labelled);
    }
  }

  // If everything in the end succeeded, so did the completion at hand.
  lemma StepSucceeded(s: State, r: Reply, whole: seq<Action>, labelled: bool)
    requires WellPlaced(s) && Owned(s) && !s.phase.Ended?
    requires Deliver(s, r, labelled).log <= whole && AllSucceeded(whole)
    ensures Succeeded(Holder(s), r)
  {
    DeliverGrows(s, r, labelled);
    var i := |s.log| - 1;
    assert whole[i] == Deliver(s, r, labelled).log[i] == (s.log + [Answer(r)])[i];
    assert whole[i + 1] == Deliver(s, r, labelled).log[i + 1] == (s.log + [Answer(r)])[i + 1];
  }

  // ---- Create and delete: success is told exactly once ----

  lemma DeliverKeepsCaller(s: State, r: Reply)
    requires WellPlaced(s)
    ensures Deliver(s, r, false).task.callback == s.task.callback
  {
    if s.phase.Ended? { return; }
    VerdictShape(s, r);
    match VerdictOn(s, r) {
      case Stop(t) =>
      case MoveOn(t) => ResumeShape(t, s.phase.stage + 1, false);
      case AskAgain(t, q) =>
      case Walk(t, entries, cursor) =>
        ResumeShape(t.(cache := t.cache.(collected := true)), s.phase.stage + 1, false);
    }
  }

  lemma {:induction false} SuccessToldFrom(s: State, replies: seq<Reply>)
    requires WellPlaced(s) && Owned(s) && !s.phase.Ended?
    requires (s.task.op == Create || s.task.op == Delete) && s.task.callback
    requires Run(s, replies, false).phase.Ended? && AllSucceeded(Run(s, replies, false).log)
    ensures var told := Notices(Run(s, replies, false).log); |told| == 1 && Farewell(s.task.op, told[0])
    decreases |replies|
  {
    var r := replies[0];
    var s' := Deliver(s, r, false);
    RunGrows(s', replies[1..], false);
    StepSucceeded(s, r, Run(s, replies, false).log, false);
    DeliverOwned(s, r, false);
    if s'.phase.Ended? {
      DeliverNotices(s, r, false);
    } else {
      DeliverKeepsCaller(s, r);
      SuccessToldFrom(s', replies[1..]);
    }
  }

  /** A create or delete whose requests all succeed tells its caller so, once. */
  lemma SuccessTold(c: Cache, t: Task, replies: seq<Reply>)
    requires (t.op == Create || t.op == Delete) && t.callback
    requires var s := Run(Begin(c, t), replies, false); s.phase.Ended? && AllSucceeded(s.log)
    ensures var told := Notices(Run(Begin(c, t), replies, false).log); |told| == 1 && Farewell(t.op, told[0])
  {
    BeginOwned(c, t);
    var start := State(c, t.(present := false), Ended, []);
    ProceedShape(start, 0);
    if Begin(c, t).phase.Ended? {
      ResumedNotices(start, 0, true);
    } else {
      SuccessToldFrom(Begin(c, t), replies);
    }
  }

  // ---- Delete: told exactly when the modem acknowledged it ----

  lemma AcknowledgedSnoc(log: seq<Action>, a: Action)
    requires |log| > 0
    ensures Acknowledged(log + [a])
       <==> Acknowledged(log)
            || (log[|log| - 1].Ask? && log[|log| - 1].request.DeleteProfile? && a.Answer? && a.reply.ok)
  {
    var whole := log + [a];
    if i :| 0 <= i < |whole| - 1 && whole[i].Ask? && whole[i].request.DeleteProfile?
            && whole[i + 1].Answer? && whole[i + 1].reply.ok {
      if i < |log| - 1 {
        assert log[i] == whole[i] && log[i + 1] == whole[i + 1];
      }
    }
    if i :| 0 <= i < |log| - 1 && log[i].Ask? && log[i].request.DeleteProfile? && log[i + 1].Answer? && log[i + 1].reply.ok {
      assert whole[i] == log[i] && whole[i + 1] == log[i + 1];
    }
    assert whole[|log| - 1] == log[|log| - 1] && whole[|log|] == a;
  }

  lemma AcknowledgedTail(log: seq<Action>, r: Reply, tail: seq<Action>)
    requires |log| > 0 && log[|log| - 1].Ask?
    requires |tail| <= 2 && (forall i :: 0 <= i < |tail| ==> !tail[i].Answer?)
    ensures Acknowledged(log + [Answer(r)] + tail)
       <==> Acknowledged(log) || (log[|log| - 1].request.DeleteProfile? && r.ok)
  {
    AcknowledgedSnoc(log, Answer(r));
    var base := log + [Answer(r)];
    if |tail| == 0 {
      assert base + tail == base;
    } else {
      AcknowledgedSnoc(base, tail[0]);
      if |tail| == 1 {
        assert base + tail == base + [tail[0]];
      } else {
        AcknowledgedSnoc(base + [tail[0]], tail[1]);
        assert base + tail == base + [tail[0]] + [tail[1]];
      }
    }
  }

  // The log of a delete run tells how far it is.
  ghost predicate DeleteTrack(s: State)
    requires WellPlaced(s)
  {
    && s.task.op == Delete && s.task.callback
    && (if s.phase.Ended? then
          if Acknowledged(s.log) then |Notices(s.log)| == 1 && Notices(s.log)[0].Deleted? && s.cache.collected
          else Notices(s.log) == []
        else Acknowledged(s.log) <==> s.phase.stage == 2)
  }

  lemma DeleteEnds(s: State, r: Reply, t: State)
    requires WellPlaced(s) && Owned(s) && !s.phase.Ended? && DeleteTrack(s)
    requires !VerdictOn(s, r).Stop? && Deliver(s, r, false) == Resume(t, s.phase.stage + 1, false)
    requires t.task.op == s.task.op && t.log == Reclaimed(s, r).log
    requires s.phase.stage == 1 ==> r.ok
    requires s.phase.stage == 2 ==> t.cache.collected
    requires Deliver(s, r, false).phase.Ended?
    ensures DeleteTrack(Deliver(s, r, false))
  {
    ResumeShape(t, s.phase.stage + 1, false);
    DeliverKeepsCaller(s, r);
    DeliverNotices(s, r, false);
    var s' := Deliver(s, r, false);
    var n :| s'.log == t.log + [Notify(n), Release];
    AcknowledgedTail(s.log, r, [Notify(n), Release]);
    assert s'.log == s.log + [Answer(r)] + [Notify(n), Release];
  }

  lemma DeleteMovesOn(s: State, r: Reply, t: State)
    requires WellPlaced(s) && Owned(s) && !s.phase.Ended? && DeleteTrack(s)
    requires !VerdictOn(s, r).Stop? && Deliver(s, r, false) == Resume(t, s.phase.stage + 1, false)
    requires t.task.op == s.task.op && t.log == Reclaimed(s, r).log
    requires s.phase.stage == 1 ==> r.ok
    requires s.phase.stage == 2 ==> t.cache.collected
    ensures DeleteTrack(Deliver(s, r, false))
  {
    ResumeShape(t, s.phase.stage + 1, false);
    DeliverKeepsCaller(s, r);
    var s' := Deliver(s, r, false);
    if s'.phase.Waiting? {
      AcknowledgedTail(s.log, r, [Ask(s'.phase.request)]);
      assert s'.log == s.log + [Answer(r)] + [Ask(s'.phase.request)];
    } else {
      DeleteEnds(s, r, t);
    }
  }

  lemma DeliverDeletes(s: State, r: Reply)
    requires WellPlaced(s) && Owned(s) && !s.phase.Ended? && DeleteTrack(s)
    ensures DeleteTrack(Deliver(s, r, false))
  {
    VerdictShape(s, r);
    var s' := Deliver(s, r, false);
    var base := s.log + [Answer(r)];
    match VerdictOn(s, r) {
      case Stop(t) =>
        DeliverNotices(s, r, false);
        AcknowledgedTail(s.log, r, [Release]);
        assert s'.log == base + [Release];
      case MoveOn(t) => DeleteMovesOn(s, r, t);
      case AskAgain(t, q) =>
      case Walk(t, entries, cursor) =>
        if cursor < |entries| && t.cache.listing.Some? && cursor < |t.cache.listing.value| {
          AcknowledgedTail(s.log, r, [Ask(GetEntrySettings(entries[cursor].index))]);
          assert s'.log == base + [Ask(GetEntrySettings(entries[cursor].index))];
        } else {
          DeleteMovesOn(s, r, t.(cache := t.cache.(collected := true)));
        }
    }
  }

  lemma {:induction false} DeletedFrom(s: State, replies: seq<Reply>)
    requires WellPlaced(s) && Owned(s) && DeleteTrack(s)
    ensures DeleteTrack(Run(s, replies, false))
    decreases |replies|
  {
    if replies != [] && !s.phase.Ended? {
      DeliverDeletes(s, replies[0]);
      DeliverOwned(s, replies[0], false);
      DeletedFrom(Deliver(s, replies[0], false), replies[1..]);
    }
  }

  /**
   A delete run that has ended told its caller the profile is gone exactly when the modem acknowledged
   the request, and by then the profile list had been collected again.
   */
  lemma DeletedIffAcknowledged(c: Cache, t: Task, replies: seq<Reply>)
    requires t.op == Delete && t.callback
    requires Run(Begin(c, t), replies, false).phase.Ended?
    ensures var s := Run(Begin(c, t), replies, false);
            && (|Notices(s.log)| == 1 && Notices(s.log)[0].Deleted? <==> Acknowledged(s.log))
            && (Acknowledged(s.log) ==> s.cache.collected)
            && (!Acknowledged(s.log) ==> Notices(s.log) == [])
  {
    BeginOwned(c, t);
    var start := State(c, t.(present := false), Ended, []);
    assert Plan(Delete)[0] == Allocate && Plan(Delete)[1] == Remove;
    assert Proceed(start, 1) == Asking(start, 1, DeleteProfile(AsByte(t.input.id)));
    assert Begin(c, t) == Proceed(start, 1) || Begin(c, t) == Asking(start, 0, AllocateClient);
    DeletedFrom(Begin(c, t), replies);
  }

  // ---- Not ready is said of a failed create request only ----

  ghost predicate Honest(log: seq<Action>) {
    forall i :: 0 <= i < |log| && log[i] == Notify(NotReady) ==>
      && i >= 2
      && log[i - 1].Answer? && log[i - 2].Ask? && log[i - 2].request.CreateProfile?
      && !Succeeded(log[i - 2].request, log[i - 1].reply)
  }

  lemma HonestSnoc(log: seq<Action>, a: Action)
    requires Honest(log) && a != Notify(NotReady)
    ensures Honest(log + [a])
  {
    var whole := log + [a];
    forall i | 0 <= i < |whole| && whole[i] == Notify(NotReady)
      ensures i >= 2 && whole[i - 1].Answer? && whole[i - 2].Ask? && whole[i - 2].request.CreateProfile?
      ensures !Succeeded(whole[i - 2].request, whole[i - 1].reply)
    {
      assert whole[i] == log[i];
    }
  }

  lemma HonestResume(t: State, stage: nat)
    requires Honest(t.log) && stage <= |Plan(t.task.op)|
    ensures Honest(Resume(t, stage, false).log)
  {
    ResumeShape(t, stage, false);
    var u := Resume(t, stage, false);
    HonestSnoc(t.log, Release);
    if u.phase.Waiting? {
      HonestSnoc(t.log, Ask(u.phase.request));
    } else if u.log != t.log + [Release] {
      var n :| Farewell(t.task.op, n) && u.log == t.log + [Notify(n), Release];
      HonestSnoc(t.log, Notify(n));
      HonestSnoc(t.log + [Notify(n)], Release);
      assert u.log == t.log + [Notify(n)] + [Release];
    }
  }

  lemma HonestNotReady(log: seq<Action>)
    requires Honest(log) && |log| >= 2
    requires log[|log| - 1].Answer? && log[|log| - 2].Ask? && log[|log| - 2].request.CreateProfile?
    requires !Succeeded(log[|log| - 2].request, log[|log| - 1].reply)
    ensures Honest(log + [Notify(NotReady)])
  {
    var whole := log + [Notify(NotReady)];
    forall i | 0 <= i < |whole| && whole[i] == Notify(NotReady)
      ensures i >= 2 && whole[i - 1].Answer? && whole[i - 2].Ask? && whole[i - 2].request.CreateProfile?
      ensures !Succeeded(whole[i - 2].request, whole[i - 1].reply)
    {
      if i < |log| { assert whole[i] == log[i]; }
    }
  }

  lemma VerdictHonest(s: State, r: Reply)
    requires WellPlaced(s) && Owned(s) && !s.phase.Ended? && Honest(s.log)
    ensures Honest(VerdictOn(s, r).after.log)
  {
    VerdictShape(s, r);
    HonestSnoc(s.log, Answer(r));
    var base := s.log + [Answer(r)];
    var log := VerdictOn(s, r).after.log;
    if log != base {
      StoppedFailed(s, r);
      assert log == base + [Notify(NotReady)];
      HonestNotReady(base);
    }
  }

  lemma DeliverHonest(s: State, r: Reply)
    requires WellPlaced(s) && Owned(s) && Honest(s.log)
    ensures Honest(Deliver(s, r, false).log)
  {
    if s.phase.Ended? { return; }
    VerdictShape(s, r);
    VerdictHonest(s, r);
    match VerdictOn(s, r) {
      case Stop(t) => HonestSnoc(t.log, Release);
      case MoveOn(t) => HonestResume(t, s.phase.stage + 1);
      case AskAgain(t, q) => HonestSnoc(t.log, Ask(q));
      case Walk(t, entries, cursor) =>
        if cursor < |entries| && t.cache.listing.Some? && cursor < |t.cache.listing.value| {
          HonestSnoc(t.log, Ask(GetEntrySettings(entries[cursor].index)));
        } else {
          HonestResume(t.(cache := t.cache.(collected := true)), s.phase.stage + 1);
        }
    }
  }

  lemma {:induction false} HonestFrom(s: State, replies: seq<Reply>)
    requires WellPlaced(s) && Owned(s) && Honest(s.log)
    ensures Honest(Run(s, replies, false).log)
    decreases |replies|
  {
    if replies != [] && !s.phase.Ended? {
      DeliverHonest(s, replies[0]);
      DeliverOwned(s, replies[0], false);
      HonestFrom(Deliver(s, replies[0], false), replies[1..]);
    }
  }

  /** Inside a run the caller hears "not ready" only right after a create request failed. */
  lemma NotReadyMeansCreateFailed(c: Cache, t: Task, replies: seq<Reply>)
    ensures Honest(Run(Begin(c, t), replies, false).log)
  {
    BeginOwned(c, t);
    var start := State(if t.op == List then c.(collected := false) else c, t.(present := false), Ended, []);
    HonestResume(start, 0);
    HonestFrom(Begin(c, t), replies);
  }
}
