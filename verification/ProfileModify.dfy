/** The modify operation: what the missing case label costs, and exactly when. */
module ProfileModify {
  import opened Wrappers
  import opened Profiles
  import opened ProfileProtocol
  import opened ProfileRuns
  import opened ProfileNotices

  // The request will reach the modem as it was made: no other cached profile already is what is asked for.
  predicate Unmatched(c: Cache, t: Task) {
    FirstCollision(t.op, Cached(c), t.input).None?
  }

  // Caller-checkable: the profile is to become the default, and there is no cached profile to fall back on.
  predicate LosesNotice(c: Cache, t: Task) {
    t.op == Modify && t.input.isDefault && Unmatched(c, t)
  }

  // Where a modify run can be, told in terms of what it started from.
  predicate ModifyTrack(c: Cache, t: Task, s: State) {
    && s.task.op == Modify == t.op && s.task.callback == t.callback
    && !s.phase.Collecting?
    && (s.phase.Waiting? ==>
          || (s.phase.stage == 0 && s.phase.request == AllocateClient && s.task == t.(present := false)
              && s.cache.listing == c.listing && s.cache.count == c.count)
          || (s.phase.stage == 2 && s.phase.request.ModifyProfile? && s.task == t.(present := false) && Unmatched(c, t))
          || (s.phase.stage == 3 && s.phase.request.SetDefault? && LosesNotice(c, t)))
  }

  // With a cached profile to fall back on there is nothing left to ask.
  lemma ModifyMatched(u: State)
    requires u.task.op == Modify && u.task.present
    ensures Proceed(u, 2) == Ending(Told(u))
  {
    var plan := Plan(Modify);
    assert plan[2] == Change && plan[3] == MakeDefault && plan[4] == Attach && plan[5] == Tell;
    assert Proceed(u, 2) == Proceed(u, 3) == Proceed(u, 4);
    assert Proceed(u, 4) == Proceed(u, 5) == Proceed(Told(u), 6);
  }

  // From the check on: the modify request, or the end when a cached profile matched.
  lemma ModifyFromCheck(s: State)
    requires s.task.op == Modify && !s.task.present
    ensures FirstCollision(Modify, Cached(s.cache), s.task.input).None? ==>
              Proceed(s, 1) == Asking(s, 2, ModifyProfile(AsByte(s.task.input.id), s.task.input))
    ensures FirstCollision(Modify, Cached(s.cache), s.task.input).Some? ==>
              Proceed(s, 1) == Ending(Told(Checked(s))) && Checked(s).task.callback == s.task.callback
  {
    assert Plan(Modify)[1] == Verify && Plan(Modify)[2] == Change;
    var u := Checked(s);
    assert Proceed(s, 1) == Proceed(u, 2);
    if FirstCollision(Modify, Cached(s.cache), s.task.input).None? {
      assert u == s;
    } else {
      ModifyMatched(u);
    }
  }

  // From set-default on.
  lemma ModifyFromDefault(s: State)
    requires s.task.op == Modify && !s.task.present
    ensures s.task.input.isDefault ==>
              Proceed(s, 3) == Asking(s, 3, SetDefault(s.task.input.kind, AsByte(s.task.input.id)))
    ensures !s.task.input.isDefault ==> Proceed(s, 3).phase.Ended?
    ensures Proceed(s, MODIFY_ATTACH) == Ending(Told(s))
  {
    var plan := Plan(Modify);
    assert plan[3] == MakeDefault && plan[4] == Attach && plan[5] == Tell;
    assert Proceed(s, 4) == Proceed(s, 5) == Proceed(Told(s), 6);
  }

  lemma BeginModifies(c: Cache, t: Task)
    requires t.op == Modify
    ensures ModifyTrack(c, t, Begin(c, t))
  {
    var start := State(c, t.(present := false), Ended, []);
    assert Plan(Modify)[0] == Allocate;
    if c.clientValid {
      assert Begin(c, t) == Proceed(start, 1);
      ModifyFromCheck(start);
    }
  }

  // Past set-default there is nothing left to ask.
  lemma ModifyEnds(s: State, labelled: bool)
    requires s.task.op == Modify
    ensures var r := Resume(s, MODIFY_ATTACH, labelled); r.phase.Ended? && r.task == s.task
  {
    assert Plan(Modify)[4] == Attach && Plan(Modify)[5] == Tell;
    assert Proceed(s, 4) == Proceed(s, 5) == Proceed(Told(s), 6);
  }

  lemma DeliverModifies(c: Cache, t: Task, s: State, r: Reply, labelled: bool)
    requires WellPlaced(s) && ModifyTrack(c, t, s)
    ensures ModifyTrack(c, t, Deliver(s, r, labelled))
  {
    if s.phase.Ended? { return; }
    var v := VerdictOn(s, r);
    if v.MoveOn? {
      if s.phase.stage == 0 {
        ModifyFromCheck(v.after);
      } else if s.phase.stage == 2 {
        ModifyFromDefault(v.after);
      } else {
        ModifyEnds(v.after, labelled);
      }
    }
  }

  // ---- The notice of a modify ----

  lemma {:induction false} ModifyToldFrom(c: Cache, t: Task, s: State, replies: seq<Reply>)
    requires WellPlaced(s) && Owned(s) && !s.phase.Ended? && ModifyTrack(c, t, s) && t.callback
    requires Run(s, replies, false).phase.Ended? && AllSucceeded(Run(s, replies, false).log)
    ensures var told := Notices(Run(s, replies, false).log);
            if LosesNotice(c, t) then told == [] else |told| == 1 && told[0].Ready?
    decreases |replies|
  {
    var r := replies[0];
    var s' := Deliver(s, r, false);
    RunGrows(s', replies[1..], false);
    StepSucceeded(s, r, Run(s, replies, false).log, false);
    DeliverOwned(s, r, false);
    DeliverModifies(c, t, s, r, false);
    if s'.phase.Ended? {
      DeliverNotices(s, r, false);
      assert !VerdictOn(s, r).Stop?;
      if s.phase.stage == 0 {
        ModifyFromCheck(VerdictOn(s, r).after);
      } else if s.phase.stage == 2 {
        ModifyFromDefault(VerdictOn(s, r).after);
      }
    } else {
      ModifyToldFrom(c, t, s', replies[1..]);
    }
  }

  /**
   A modify whose requests all succeed tells its caller so, unless it also had to make the profile the
   default: then the run ends after set-default without a word. The condition is exact.
   */
  lemma ModifyToldExactly(c: Cache, t: Task, replies: seq<Reply>)
    requires t.op == Modify && t.callback
    requires var s := Run(Begin(c, t), replies, false); s.phase.Ended? && AllSucceeded(s.log)
    ensures var told := Notices(Run(Begin(c, t), replies, false).log);
            && (|told| == 1 && told[0].Ready? <==> !LosesNotice(c, t))
            && (LosesNotice(c, t) ==> told == [])
  {
    BeginOwned(c, t);
    BeginModifies(c, t);
    var start := State(c, t.(present := false), Ended, []);
    if Begin(c, t).phase.Ended? {
      ResumedNotices(start, 0, true);
      assert Plan(Modify)[0] == Allocate;
      assert Begin(c, t) == Proceed(start, 1);
      ModifyFromCheck(start);
    } else {
      ModifyToldFrom(c, t, Begin(c, t), replies);
    }
  }

  // ---- The code against its own intended line ----

  lemma ResumeAgrees(t: State, stage: nat)
    requires stage <= |Plan(t.task.op)|
    requires t.task.op == Modify && stage == MODIFY_ATTACH ==> !t.task.callback && !t.task.present
    ensures Resume(t, stage, false) == Resume(t, stage, true)
  {
    if t.task.op == Modify && stage == MODIFY_ATTACH {
      ModifyFromDefault(t);
    }
  }

  lemma DeliverAgrees(c: Cache, t: Task, s: State, r: Reply)
    requires WellPlaced(s) && s.task.op == t.op
    requires t.op == Modify ==> ModifyTrack(c, t, s) && !(t.callback && LosesNotice(c, t))
    requires t.op == Modify && s.phase.Waiting? && s.phase.stage == 3 ==> !s.task.present
    ensures Deliver(s, r, false) == Deliver(s, r, true)
  {
    if s.phase.Ended? { return; }
    VerdictShape(s, r);
    match VerdictOn(s, r) {
      case Stop(_) =>
      case MoveOn(u) => ResumeAgrees(u, s.phase.stage + 1);
      case AskAgain(_, _) =>
      case Walk(u, entries, cursor) =>
        ResumeAgrees(u.(cache := u.cache.(collected := true)), s.phase.stage + 1);
    }
  }

  // A request to the modem is only ever made for a profile that matched nothing.
  predicate Fresh(s: State) {
    s.task.op == Modify && s.phase.Waiting? ==> !s.task.present
  }

  lemma DeliverFresh(c: Cache, t: Task, s: State, r: Reply)
    requires WellPlaced(s) && s.task.op == t.op && Fresh(s)
    requires t.op == Modify ==> ModifyTrack(c, t, s)
    ensures Fresh(Deliver(s, r, false))
  {
    if t.op == Modify && !s.phase.Ended? {
      var v := VerdictOn(s, r);
      if v.MoveOn? {
        if s.phase.stage == 0 {
          ModifyFromCheck(v.after);
        } else if s.phase.stage == 2 {
          ModifyFromDefault(v.after);
        }
      }
    }
  }

  lemma {:induction false} RunAgreesFrom(c: Cache, t: Task, s: State, replies: seq<Reply>)
    requires WellPlaced(s) && s.task.op == t.op && Fresh(s)
    requires t.op == Modify ==> ModifyTrack(c, t, s) && !(t.callback && LosesNotice(c, t))
    ensures Run(s, replies, false) == Run(s, replies, true)
    decreases |replies|
  {
    if replies != [] && !s.phase.Ended? {
      DeliverAgrees(c, t, s, replies[0]);
      DeliverFresh(c, t, s, replies[0]);
      if t.op == Modify { DeliverModifies(c, t, s, replies[0], false); }
      RunAgreesFrom(c, t, Deliver(s, replies[0], false), replies[1..]);
    }
  }

  const NO_SETTINGS := Settings(None, None, None, None, None, None, None, None, None)
  const GRANTED := Reply(true, KIND_3GPP, Some(0), NO_SETTINGS, [], Stray("", "", ""))

  lemma DeviationFromModify(s2: State)
    requires s2.task.op == Modify && s2.task.callback && s2.task.input.isDefault && !s2.task.present
    requires s2.phase.Waiting? && s2.phase.stage == 2 && s2.phase.request.ModifyProfile?
    ensures Run(s2, [GRANTED, GRANTED], false) != Run(s2, [GRANTED, GRANTED], true)
  {
    var back2 := Reclaimed(s2, GRANTED);
    ModifyFromDefault(back2);
    var s3 := Asking(back2, 3, SetDefault(s2.task.input.kind, AsByte(s2.task.input.id)));
    assert Deliver(s2, GRANTED, false) == s3 == Deliver(s2, GRANTED, true);
    var back3 := Judged(Reclaimed(s3, GRANTED), s3.phase.request, GRANTED).after;
    ModifyFromDefault(back3);
    assert Deliver(s3, GRANTED, false) == Ending(back3);
    assert Deliver(s3, GRANTED, true) == Ending(Told(back3));
    assert |Ending(back3).log| < |Ending(Told(back3)).log|;
    assert [GRANTED, GRANTED][1..] == [GRANTED];
    assert forall l: bool :: Run(s2, [GRANTED, GRANTED], l) == Run(s3, [GRANTED], l);
    assert [GRANTED][1..] == [];
    assert forall l: bool :: Run(s3, [GRANTED], l) == Run(Deliver(s3, GRANTED, l), [], l);
  }

  // The run that shows the difference: everything is granted, up to set-default.
  lemma DeviationWitness(c: Cache, t: Task)
    requires t.callback && LosesNotice(c, t)
    ensures var replies := if c.clientValid then [GRANTED, GRANTED] else [GRANTED, GRANTED, GRANTED];
            Run(Begin(c, t), replies, false) != Run(Begin(c, t), replies, true)
  {
    var start := State(c, t.(present := false), Ended, []);
    assert Plan(Modify)[0] == Allocate;
    ModifyFromCheck(start);
    var s2: State, replies: seq<Reply>;
    if c.clientValid {
      replies := [GRANTED, GRANTED];
      s2 := Begin(c, t);
      assert s2 == Proceed(start, 1);
    } else {
      replies := [GRANTED, GRANTED, GRANTED];
      var s1 := Begin(c, t);
      assert s1 == Asking(start, 0, AllocateClient);
      var back := Judged(Reclaimed(s1, GRANTED), AllocateClient, GRANTED).after;
      assert Cached(back.cache) == Cached(c);
      ModifyFromCheck(back);
      s2 := Deliver(s1, GRANTED, false);
      assert s2 == Deliver(s1, GRANTED, true) == Proceed(back, 1);
      assert replies[1..] == [GRANTED, GRANTED];
      assert Run(s1, replies, false) == Run(s2, [GRANTED, GRANTED], false);
      assert Run(s1, replies, true) == Run(s2, [GRANTED, GRANTED], true);
    }
    assert s2.phase.Waiting? && s2.phase.stage == 2 && s2.phase.request.ModifyProfile?;
    DeviationFromModify(s2);
  }

  /**
   The switch as it is written runs every operation as its line intends, under every pattern of answers,
   if and only if the request is not a told modify that sets the default on a profile nothing else matches.
   */
  lemma SwitchMeetsIntent(c: Cache, t: Task)
    ensures (forall replies :: Run(Begin(c, t), replies, false) == Run(Begin(c, t), replies, true))
       <==> !(t.callback && LosesNotice(c, t))
  {
    if t.callback && LosesNotice(c, t) {
      DeviationWitness(c, t);
    } else {
      forall replies ensures Run(Begin(c, t), replies, false) == Run(Begin(c, t), replies, true) {
        var start := State(c, t.(present := false), Ended, []);
        if t.op == Modify {
          BeginModifies(c, t);
          assert Plan(Modify)[0] == Allocate;
          ModifyFromCheck(start);
        }
        RunAgreesFrom(c, t, Begin(c, t), replies);
      }
    }
  }
}
