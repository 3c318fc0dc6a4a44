/** Collecting the modem's profile list, one settings request per entry. */
module ProfileListing {
  import opened Wrappers
  import opened CText
  import opened FormatText
  import opened Profiles
  import opened ProfileProtocol
  import opened ProfileRuns

  // The profile an entry and its settings reply make up.
  function Entry(default: Profile, e: ListEntry, r: Reply): Profile {
    WithEntrySettings(Headed(e.cell, e, default), r.settings, r.stray)
  }

  // The list as the modem described it, entry by entry.
  function FullList(default: Profile, entries: seq<ListEntry>, answers: seq<Reply>): seq<Profile>
    requires |answers| == |entries|
  {
    seq(|entries|, i requires 0 <= i < |entries| => Entry(default, entries[i], answers[i]))
  }

  predicate AllOk(answers: seq<Reply>) {
    forall i :: 0 <= i < |answers| ==> answers[i].ok
  }

  // The walk so far: entries in front of the cursor are complete, the one under it has its head.
  ghost predicate CollectTrack(s: State, default: Profile, entries: seq<ListEntry>, answers: seq<Reply>) {
    && s.phase == Collecting(2, entries, |answers|)
    && |answers| < |entries|
    && s.cache.default == default
    && s.cache.count == |entries|
    && s.cache.listing.Some?
    && var cells := s.cache.listing.value;
       && |cells| == |entries|
       && (forall i :: 0 <= i < |answers| ==> cells[i] == Entry(default, entries[i], answers[i]))
       && cells[|answers|] == Headed(entries[|answers|].cell, entries[|answers|], default)
       && (forall i :: |answers| < i < |entries| ==> cells[i] == entries[i].cell)
  }

  predicate Resyncs(op: Operation) { op == List || op == Delete }

  // After the list, a list or delete run has nothing more to ask.
  lemma EndsAfterList(t: State)
    requires Resyncs(t.task.op)
    ensures Resume(t, 3, false).phase.Ended? && Resume(t, 3, false).cache == t.cache
  {
    if t.task.op == Delete {
      assert Plan(Delete)[3] == Tell;
      assert Proceed(t, 3) == Proceed(Told(t), 4);
    }
  }

  // One more entry done, the next one begun.
  lemma WalksOn(s: State, default: Profile, entries: seq<ListEntry>, answers: seq<Reply>, r: Reply)
    requires WellPlaced(s) && CollectTrack(s, default, entries, answers) && r.ok && |answers| + 1 < |entries|
    ensures CollectTrack(Deliver(s, r, false), default, entries, answers + [r])
    ensures Deliver(s, r, false).task == s.task
  {
    var k := |answers|;
    var cells := s.cache.listing.value;
    var done := cells[k := WithEntrySettings(cells[k], r.settings, r.stray)];
    var cells' := Deliver(s, r, false).cache.listing.value;
    assert cells' == done[k + 1 := Headed(done[k + 1], entries[k + 1], default)];
    forall i | 0 <= i < k + 1 ensures cells'[i] == Entry(default, entries[i], (answers + [r])[i]) {
      if i < k { assert (answers + [r])[i] == answers[i]; }
    }
  }

  // The last entry done: the list is complete and the flag goes up.
  lemma WalkCompletes(s: State, default: Profile, entries: seq<ListEntry>, answers: seq<Reply>, r: Reply)
    requires WellPlaced(s) && CollectTrack(s, default, entries, answers) && r.ok && |answers| + 1 == |entries|
    ensures var full := FullList(default, entries, answers + [r]);
            var t := Reclaimed(s, r).(cache := s.cache.(listing := Some(full), collected := true));
            Deliver(s, r, false) == Resume(t, 3, false)
  {
    var k := |answers|;
    var cells := s.cache.listing.value;
    var done := cells[k := WithEntrySettings(cells[k], r.settings, r.stray)];
    assert done == FullList(default, entries, answers + [r]) by {
      forall i | 0 <= i < |entries| ensures done[i] == Entry(default, entries[i], (answers + [r])[i]) {
        if i < k { assert (answers + [r])[i] == answers[i]; }
      }
    }
  }

  // Whether these answers bring a walk to its end, with so many entries left, and how many of them it takes.
  predicate WalkOver(left: nat, replies: seq<Reply>) {
    left == 0 || (replies != [] && (!replies[0].ok || WalkOver(left - 1, replies[1..])))
  }

  function WalkTakes(left: nat, replies: seq<Reply>): (n: nat)
    ensures n <= |replies| && n <= left
  {
    if left == 0 || replies == [] then 0
    else if !replies[0].ok then 1
    else 1 + WalkTakes(left - 1, replies[1..])
  }

  // Every entry was answered.
  predicate Answered(entries: seq<ListEntry>, answers: seq<Reply>) {
    |answers| >= |entries| && AllOk(answers[..|entries|])
  }

  // What is handed on when the collection is over: the whole list, or one that counts nothing.
  predicate HandsOn(task: Task, t: State, default: Profile, entries: seq<ListEntry>, answers: seq<Reply>) {
    && t.task == task && t.cache.collected
    && if Answered(entries, answers)
       then t.cache.count == |entries| && t.cache.listing == Some(FullList(default, entries, answers[..|entries|]))
       else t.cache.count == 0
  }

  // A settings request that fails ends the walk with nothing.
  lemma WalkFails(s: State, default: Profile, entries: seq<ListEntry>, answers: seq<Reply>, replies: seq<Reply>)
    requires WellPlaced(s) && CollectTrack(s, default, entries, answers) && replies != [] && !replies[0].ok
    ensures var t := WithoutList(Reclaimed(s, replies[0]));
            HandsOn(s.task, t, default, entries, answers + replies) && Deliver(s, replies[0], false) == Resume(t, 3, false)
  {
    var all := answers + replies;
    assert all[|answers|] == replies[0];
    assert |all| >= |entries| ==> all[..|entries|][|answers|] == replies[0];
  }

  // The last settings request answered, the list is whole.
  lemma WalkEnds(s: State, default: Profile, entries: seq<ListEntry>, answers: seq<Reply>, replies: seq<Reply>)
      returns (t: State)
    requires WellPlaced(s) && CollectTrack(s, default, entries, answers) && AllOk(answers)
    requires replies != [] && replies[0].ok && |answers| + 1 == |entries|
    ensures HandsOn(s.task, t, default, entries, answers + replies) && Deliver(s, replies[0], false) == Resume(t, 3, false)
  {
    var r := replies[0];
    WalkCompletes(s, default, entries, answers, r);
    assert (answers + replies)[..|entries|] == answers + [r];
    t := Reclaimed(s, r).(cache := s.cache.(listing := Some(FullList(default, entries, answers + [r])), collected := true));
  }

  // Where the answers have taken a walk that comes to end: over and on with the operation, or not yet.
  predicate WalkLeads(task: Task, t: State, default: Profile, entries: seq<ListEntry>, answers: seq<Reply>,
                      replies: seq<Reply>, end: State)
    requires |answers| <= |entries|
  {
    var left := |entries| - |answers|;
    if WalkOver(left, replies) then
      && HandsOn(task, t, default, entries, answers + replies) && |Plan(task.op)| >= 3
      && end == Run(Resume(t, 3, false), replies[WalkTakes(left, replies)..], false)
    else !end.phase.Ended?
  }

  // An answered entry that is not the last one leaves the rest of the walk to decide.
  lemma WalkLeadsOn(task: Task, t: State, default: Profile, entries: seq<ListEntry>, answers: seq<Reply>,
                    replies: seq<Reply>, end: State)
    requires replies != [] && replies[0].ok && |answers| + 1 < |entries|
    requires WalkLeads(task, t, default, entries, answers + [replies[0]], replies[1..], end)
    ensures WalkLeads(task, t, default, entries, answers, replies, end)
  {
    var rest, left := replies[1..], |entries| - |answers|;
    var n := WalkTakes(left - 1, rest);
    assert WalkOver(left, replies) == WalkOver(left - 1, rest) && WalkTakes(left, replies) == 1 + n;
    assert answers + replies == (answers + [replies[0]]) + rest;
    assert rest[n..] == replies[1 + n..];
  }

  lemma WalkLeadsOut(task: Task, t: State, default: Profile, entries: seq<ListEntry>, answers: seq<Reply>,
                     replies: seq<Reply>, end: State)
    requires replies != [] && |answers| < |entries| && (!replies[0].ok || |answers| + 1 == |entries|)
    requires HandsOn(task, t, default, entries, answers + replies) && |Plan(task.op)| >= 3
    requires end == Run(Resume(t, 3, false), replies[1..], false)
    ensures WalkLeads(task, t, default, entries, answers, replies, end)
  {
    assert WalkOver(0, replies[1..]) && WalkTakes(0, replies[1..]) == 0;
    assert WalkTakes(|entries| - |answers|, replies) == 1;
  }

  lemma RunOn(s: State, replies: seq<Reply>)
    requires WellPlaced(s) && !s.phase.Ended? && replies != []
    ensures Run(s, replies, false) == Run(Deliver(s, replies[0], false), replies[1..], false)
  {
  }

  lemma {:induction false} WalkRuns(s: State, default: Profile, entries: seq<ListEntry>, answers: seq<Reply>,
                                    replies: seq<Reply>)
      returns (t: State)
    requires WellPlaced(s) && CollectTrack(s, default, entries, answers) && AllOk(answers)
    ensures WalkLeads(s.task, t, default, entries, answers, replies, Run(s, replies, false))
    decreases |replies|
  {
    t := s;
    if replies != [] {
      var r, end := replies[0], Run(s, replies, false);
      RunOn(s, replies);
      if !r.ok {
        WalkFails(s, default, entries, answers, replies);
        t := WithoutList(Reclaimed(s, r));
        WalkLeadsOut(s.task, t, default, entries, answers, replies, end);
      } else if |answers| + 1 == |entries| {
        t := WalkEnds(s, default, entries, answers, replies);
        WalkLeadsOut(s.task, t, default, entries, answers, replies, end);
      } else {
        WalksOn(s, default, entries, answers, r);
        t := WalkRuns(Deliver(s, r, false), default, entries, answers + [r], replies[1..]);
        WalkLeadsOn(s.task, t, default, entries, answers, replies, end);
      }
    }
  }

  // How many answers a collection takes, the list reply included, and whether these end it.
  function CollectionTakes(replies: seq<Reply>): (n: nat)
    requires replies != []
    ensures n <= |replies|
  {
    if replies[0].ok && replies[0].entries != [] then 1 + WalkTakes(|replies[0].entries|, replies[1..]) else 1
  }

  predicate CollectionOver(replies: seq<Reply>) {
    && replies != []
    && (replies[0].ok && replies[0].entries != [] ==> WalkOver(|replies[0].entries|, replies[1..]))
  }

  lemma ListAnswered(s: State, r: Reply)
    requires WellPlaced(s) && s.phase.Waiting? && s.phase.stage == 2 && s.phase.request.GetProfileList?
    ensures var s' := Deliver(s, r, false);
            if r.ok && r.entries != [] then
              WellPlaced(s') && CollectTrack(s', s.cache.default, r.entries, []) && s'.task == s.task && !s'.phase.Ended?
            else s' == Resume(WithoutList(Reclaimed(s, r)), 3, false)
  {
  }

  // A walk led from its first settings request on.
  lemma WalkLeadsAll(task: Task, t: State, default: Profile, entries: seq<ListEntry>, rest: seq<Reply>, end: State)
    requires WalkLeads(task, t, default, entries, [], rest, end)
    ensures if WalkOver(|entries|, rest)
            then end == Run(Resume(t, 3, false), rest[WalkTakes(|entries|, rest)..], false)
                 && HandsOn(task, t, default, entries, rest)
            else !end.phase.Ended?
  {
    assert [] + rest == rest;
  }

  /**
   Whichever operation asked for the list, under any answers: when the collection is over, and the flag up, the
   operation goes on with the modem's whole list if there is one and every settings request was answered, and with a
   list that counts nothing otherwise; until then the run has not ended.
   */
  lemma CollectionHandsOver(s: State, replies: seq<Reply>) returns (t: State)
    requires WellPlaced(s) && s.phase.Waiting? && s.phase.stage == 2 && s.phase.request.GetProfileList?
    ensures CollectionOver(replies) ==>
              && Run(s, replies, false) == Run(Resume(t, 3, false), replies[CollectionTakes(replies)..], false)
              && t.task == s.task && t.cache.collected
              && if replies[0].ok && replies[0].entries != []
                 then HandsOn(s.task, t, s.cache.default, replies[0].entries, replies[1..])
                 else t.cache.count == 0
    ensures !CollectionOver(replies) ==> !Run(s, replies, false).phase.Ended?
  {
    t := s;
    if replies != [] {
      var r := replies[0];
      RunOn(s, replies);
      ListAnswered(s, r);
      if r.ok && r.entries != [] {
        var s' := Deliver(s, r, false);
        t := WalkRuns(s', s.cache.default, r.entries, [], replies[1..]);
        WalkLeadsAll(s.task, t, s.cache.default, r.entries, replies[1..], Run(s, replies, false));
        var n := WalkTakes(|r.entries|, replies[1..]);
        assert replies[1..][n..] == replies[1 + n..];
      } else {
        t := WithoutList(Reclaimed(s, r));
      }
    }
  }

  /**
   From the list request of a list run or of the resync after a delete: when the run has ended the list
   holds exactly the modem's entries with their settings if every settings request was answered, and
   counts nothing otherwise.
   */
  lemma ListCollected(s: State, replies: seq<Reply>)
    requires WellPlaced(s) && Resyncs(s.task.op)
    requires s.phase.Waiting? && s.phase.stage == 2 && s.phase.request.GetProfileList?
    requires Run(s, replies, false).phase.Ended?
    ensures replies != []
    ensures var c := Run(s, replies, false).cache;
            var entries := replies[0].entries;
            && c.collected
            && if replies[0].ok && entries != [] && Answered(entries, replies[1..])
               then c.count == |entries| && c.listing == Some(FullList(s.cache.default, entries, replies[1..][..|entries|]))
               else c.count == 0
  {
    var t := CollectionHandsOver(s, replies);
    EndsAfterList(t);
  }

  // ---- What a collected list says ----

  // Each value the modem reported is in the profile; each it did not is what the fresh memory held.
  predicate CarriesValues(p: Profile, s: Settings, cell: Profile) {
    && p.pdpType == (match s.pdpType
                     case None => cell.pdpType
                     case Some(ModemPPP) => PdpPPP
                     case Some(ModemIPv6) => PdpIPv6
                     case Some(ModemIPv4OrIPv6) => PdpIPv4OrIPv6
                     case Some(_) => PdpIPv4)
    && p.contextNumber == (if s.contextNumber.Some? then s.contextNumber.value else cell.contextNumber)
    && p.authentication == (match s.authentication
                            case None => cell.authentication
                            case Some(ModemPap) => Pap
                            case Some(ModemChap) => Chap
                            case Some(_) => NoAuthentication)
    && p.noRoaming == s.noRoaming.GetOr(cell.noRoaming)
    && p.apnDisabled == s.apnDisabled.GetOr(cell.apnDisabled)
  }

  // Each text the modem reported is in the profile, cut to its buffer; each it did not is what the memory held.
  predicate CarriesTexts(p: Profile, e: ListEntry, s: Settings) {
    && p.name == Clip(e.name, NAME_SIZE)
    && p.apn == (if s.apn.Some? then Clip(s.apn.value, APN_SIZE) else e.cell.apn)
    && p.username == (if s.username.Some? then Clip(s.username.value, CREDENTIAL_SIZE) else e.cell.username)
    && p.password == (if s.password.Some? then Clip(s.password.value, CREDENTIAL_SIZE) else e.cell.password)
  }

  // Every text of an entry comes out as it went in when it is taken as a format.
  predicate TextsPrint(e: ListEntry, s: Settings) {
    && PrintsItself(e.name, NAME_SIZE - 1)
    && (s.apn.Some? ==> PrintsItself(s.apn.value, APN_SIZE - 1))
    && (s.username.Some? ==> PrintsItself(s.username.value, CREDENTIAL_SIZE - 1))
    && (s.password.Some? ==> PrintsItself(s.password.value, CREDENTIAL_SIZE - 1))
  }

  // The same entry and reply with something else straying into their texts.
  function EntryWith(default: Profile, e: ListEntry, r: Reply, name: string, stray: Stray): Profile {
    Entry(default, e.(stray := name), r.(stray := stray))
  }

  // One text, reported or not, against what its buffer then holds.
  lemma TextPrinted(text: Option<string>, stray: string, size: nat)
    requires size > 0 && text.Some?
    ensures PrintsItself(text.value, size - 1) ==> Printed(text.value, stray, size) == Clip(text.value, size)
    ensures !PrintsItself(text.value, size - 1) ==> Printed(text.value, "", size) != Clip(text.value, size)
  {
    PrintedExactly(text.value, size);
  }

  lemma TextsKept(default: Profile, e: ListEntry, r: Reply, name: string, stray: Stray)
    requires TextsPrint(e, r.settings)
    ensures CarriesTexts(EntryWith(default, e, r, name, stray), e, r.settings)
  {
    var s := r.settings;
    TextPrinted(Some(e.name), name, NAME_SIZE);
    if s.apn.Some? { TextPrinted(s.apn, stray.apn, APN_SIZE); }
    if s.username.Some? { TextPrinted(s.username, stray.username, CREDENTIAL_SIZE); }
    if s.password.Some? { TextPrinted(s.password, stray.password, CREDENTIAL_SIZE); }
  }

  lemma TextsLost(default: Profile, e: ListEntry, r: Reply)
    requires !TextsPrint(e, r.settings)
    ensures !CarriesTexts(EntryWith(default, e, r, "", Stray("", "", "")), e, r.settings)
  {
    var s := r.settings;
    if !PrintsItself(e.name, NAME_SIZE - 1) {
      TextPrinted(Some(e.name), "", NAME_SIZE);
    } else if s.apn.Some? && !PrintsItself(s.apn.value, APN_SIZE - 1) {
      TextPrinted(s.apn, "", APN_SIZE);
    } else if s.username.Some? && !PrintsItself(s.username.value, CREDENTIAL_SIZE - 1) {
      TextPrinted(s.username, "", CREDENTIAL_SIZE);
    } else {
      TextPrinted(s.password, "", CREDENTIAL_SIZE);
    }
  }

  /**
   An entry holds the modem's texts, whatever strays into them, if and only if all of them print themselves: the walk
   hands each to snprintf as its format.
   */
  lemma EntryTextsExactly(default: Profile, e: ListEntry, r: Reply)
    ensures (forall name: string, stray: Stray :: CarriesTexts(EntryWith(default, e, r, name, stray), e, r.settings))
            <==> TextsPrint(e, r.settings)
  {
    if TextsPrint(e, r.settings) {
      forall name: string, stray: Stray
        ensures CarriesTexts(EntryWith(default, e, r, name, stray), e, r.settings)
      {
        TextsKept(default, e, r, name, stray);
      }
    } else {
      TextsLost(default, e, r);
    }
  }

  /** A name with a doubled percent sign is kept with one. */
  lemma EntryLosesPercent(default: Profile, e: ListEntry, r: Reply)
    requires e.name == "a%%b"
    ensures Entry(default, e, r).name == "a%b"
  {
    DoubledPrintsOnce(e.stray);
  }

  /**
   In a collected list entry i is the modem's entry i, with its values, and with its texts if they print themselves;
   with distinct indices at most one is the default.
   */
  lemma FullListFaithful(default: Profile, entries: seq<ListEntry>, answers: seq<Reply>, i: nat)
    requires |answers| == |entries| && i < |entries|
    ensures var p := FullList(default, entries, answers)[i];
            && p.id == entries[i].index && p.kind == KIND_3GPP
            && (p.isDefault <==> entries[i].index == default.id)
            && CarriesValues(p, answers[i].settings, entries[i].cell)
            && (TextsPrint(entries[i], answers[i].settings) ==> CarriesTexts(p, entries[i], answers[i].settings))
    ensures (forall a, b :: 0 <= a < b < |entries| ==> entries[a].index != entries[b].index)
            && FullList(default, entries, answers)[i].isDefault ==>
              forall j :: 0 <= j < |entries| && j != i ==> !FullList(default, entries, answers)[j].isDefault
  {
    var e, r := entries[i], answers[i];
    if TextsPrint(e, r.settings) { TextsKept(default, e, r, e.stray, r.stray); }
    assert EntryWith(default, e, r, e.stray, r.stray) == FullList(default, entries, answers)[i];
  }

  /** The modem's default profile keeps its number and takes every reported setting, its texts cut to their buffers. */
  lemma DefaultFaithful(named: Profile, s: Settings)
    ensures var p := WithDefaultSettings(named, s);
            && p.id == named.id && p.kind == named.kind && p.isDefault == named.isDefault
            && CarriesValues(p, s, named)
            && p.name == (if s.name.Some? then Clip(s.name.value, NAME_SIZE) else named.name)
            && p.apn == (if s.apn.Some? then Clip(s.apn.value, APN_SIZE) else named.apn)
            && p.username == (if s.username.Some? then Clip(s.username.value, CREDENTIAL_SIZE) else named.username)
            && p.password == (if s.password.Some? then Clip(s.password.value, CREDENTIAL_SIZE) else named.password)
  {
  }

  // The modem reports just what is wanted, in texts that fit their buffers.
  predicate Reports(s: Settings, wanted: Profile) {
    && s.apn == Some(wanted.apn) && |wanted.apn| < APN_SIZE
    && s.username == Some(wanted.username) && |wanted.username| < CREDENTIAL_SIZE
    && s.password == Some(wanted.password) && |wanted.password| < CREDENTIAL_SIZE
    && s.pdpType.Some? && PdpTypeOf(s.pdpType.value) == wanted.pdpType
    && s.authentication.Some? && AuthenticationOf(s.authentication.value) == wanted.authentication
  }

  /**
   The entry of a profile that is just what a caller wants matches it, whatever strays into its texts, if and only if
   access point, user and password have no percent sign; with one the profile the modem has is not recognised.
   */
  lemma EntryMatchesExactly(default: Profile, e: ListEntry, r: Reply, wanted: Profile)
    requires Reports(r.settings, wanted)
    ensures (forall name: string, stray: Stray :: Matches(EntryWith(default, e, r, name, stray), wanted))
            <==> '%' !in wanted.apn && '%' !in wanted.username && '%' !in wanted.password
  {
    PrintedShort(wanted.apn, APN_SIZE);
    PrintedShort(wanted.username, CREDENTIAL_SIZE);
    PrintedShort(wanted.password, CREDENTIAL_SIZE);
    if '%' in wanted.apn || '%' in wanted.username || '%' in wanted.password {
      assert !Matches(EntryWith(default, e, r, "", Stray("", "", "")), wanted);
    }
  }

  // ---- Matching a create request against the list ----

  // What set-default is told in a create run: the first match, or the index the modem just gave.
  ghost predicate DefaultNumberSound(t: Task, s: State)
    requires s.phase.Waiting? && s.phase.request.SetDefault?
  {
    var cached := Cached(s.cache);
    var n := |s.log|;
    match FirstCollision(Create, cached, t.input)
    case Some(m) =>
      s.phase.request == SetDefault(cached[m].kind, AsByte(cached[m].id)) && s.task.present
    case None =>
      && n >= 3 && s.log[n - 3] == Ask(CreateProfile(t.input)) && s.log[n - 2].Answer?
      && s.phase.request == SetDefault(s.log[n - 2].reply.kind, s.log[n - 2].reply.index.GetOr(0))
      && s.log[n - 2].reply.ok && s.log[n - 2].reply.index.Some?
  }

  // Where a create run can be, told in terms of what it was asked to create.
  ghost predicate CreateTrack(t: Task, s: State)
    requires WellPlaced(s)
  {
    && s.task.op == Create == t.op
    && (!s.phase.Ended? && s.phase.stage <= 2 ==> s.task == t.(present := false))
    && (!s.phase.Ended? && s.phase.stage == 4 ==>
          && s.phase.Waiting? && s.phase.request == CreateProfile(t.input)
          && s.task == t.(present := false)
          && FirstCollision(Create, Cached(s.cache), t.input).None?)
    && (!s.phase.Ended? && s.phase.stage == 5 ==>
          s.phase.Waiting? && s.phase.request.SetDefault? && DefaultNumberSound(t, s))
    && (!s.phase.Ended? ==> s.phase.stage <= 2 || s.phase.stage == 4 || s.phase.stage == 5)
  }

  // Taking a match over leaves it the first match.
  lemma CheckedKeepsMatch(s: State, m: nat)
    requires s.cache.listing.Some? && FirstCollision(Create, Cached(s.cache), s.task.input) == Some(m)
    requires s.task.op == Create
    ensures Cached(Checked(s).cache) == Cached(s.cache)[m := Checked(s).task.input]
    ensures FirstCollision(Create, Cached(Checked(s).cache), s.task.input) == Some(m)
  {
    var cached := Cached(s.cache);
    var after := Cached(Checked(s).cache);
    assert after == cached[m := Checked(s).task.input];
    FirstCollisionUnique(Create, after, s.task.input, m);
  }

  // Past set-default there is nothing left to ask.
  lemma CreateEnds(s: State)
    requires s.task.op == Create
    ensures Proceed(s, 6) == Ending(Told(s))
  {
    assert Plan(Create)[6] == Attach && Plan(Create)[7] == Tell;
    assert Proceed(s, 6) == Proceed(s, 7) == Proceed(Told(s), 8);
  }

  // With a profile to fall back on there is at most the default left to set.
  lemma CreateMatched(u: State)
    requires u.task.op == Create && u.task.present
    ensures Proceed(u, 4) == if u.task.input.isDefault
                             then Asking(u, 5, SetDefault(u.task.input.kind, AsByte(u.task.input.id)))
                             else Ending(Told(u))
  {
    assert Plan(Create)[4] == Add && Plan(Create)[5] == MakeDefault;
    assert Proceed(u, 4) == Proceed(u, 5);
    if !u.task.input.isDefault {
      assert Proceed(u, 5) == Proceed(u, 6);
      CreateEnds(u);
    }
  }

  lemma CreateFromCheck(s: State)
    requires s.task.op == Create && !s.task.present
    ensures FirstCollision(Create, Cached(s.cache), s.task.input).None? ==>
              Proceed(s, 3) == Asking(s, 4, CreateProfile(s.task.input))
    ensures FirstCollision(Create, Cached(s.cache), s.task.input).Some? ==>
              var u := Checked(s);
              Proceed(s, 3) == if u.task.input.isDefault
                               then Asking(u, 5, SetDefault(u.task.input.kind, AsByte(u.task.input.id)))
                               else Ending(Told(u))
  {
    assert Plan(Create)[3] == Verify && Plan(Create)[4] == Add;
    var u := Checked(s);
    assert Proceed(s, 3) == Proceed(u, 4);
    if FirstCollision(Create, Cached(s.cache), s.task.input).None? {
      assert u == s;
    } else {
      CreateMatched(u);
    }
  }

  lemma CreateGoesOn(t: Task, s: State, stage: nat)
    requires stage <= 3 && s.task == t.(present := false) && t.op == Create
    ensures CreateTrack(t, Proceed(s, stage))
    decreases 3 - stage
  {
    var plan := Plan(Create);
    assert plan[0] == Allocate && plan[1] == ReadDefault && plan[2] == Collect;
    if stage == 3 {
      CreateFromCheck(s);
      if FirstCollision(Create, Cached(s.cache), s.task.input).Some? {
        CheckedKeepsMatch(s, FirstCollision(Create, Cached(s.cache), s.task.input).value);
      }
    } else if Wanted(s.cache, s.task, plan[stage]).None? {
      CreateGoesOn(t, s, stage + 1);
    }
  }

  lemma CreateFromAnswer(s: State)
    requires s.task.op == Create
    ensures s.task.input.isDefault ==>
              Proceed(s, 5) == Asking(s, 5, SetDefault(s.task.input.kind, AsByte(s.task.input.id)))
    ensures !s.task.input.isDefault ==> Proceed(s, 5).phase.Ended?
    ensures Proceed(s, 6).phase.Ended?
  {
    assert Plan(Create)[5] == MakeDefault;
    CreateEnds(s);
  }

  // From the create request or set-default on.
  lemma DeliverLate(t: Task, s: State, r: Reply)
    requires WellPlaced(s) && Owned(s) && CreateTrack(t, s) && !s.phase.Ended? && s.phase.stage > 2
    requires VerdictOn(s, r).MoveOn?
    ensures CreateTrack(t, Deliver(s, r, false))
  {
    var u := VerdictOn(s, r).after;
    CreateFromAnswer(u);
    if s.phase.stage == 4 && u.task.input.isDefault {
      var u' := Deliver(s, r, false);
      assert Cached(u'.cache) == Cached(s.cache);
      assert u'.log == s.log + [Answer(r)] + [Ask(u'.phase.request)];
    }
  }

  lemma DeliverCreates(t: Task, s: State, r: Reply)
    requires WellPlaced(s) && Owned(s) && CreateTrack(t, s)
    ensures CreateTrack(t, Deliver(s, r, false))
  {
    if s.phase.Ended? { return; }
    VerdictShape(s, r);
    match VerdictOn(s, r) {
      case Stop(_) =>
      case AskAgain(_, _) =>
      case MoveOn(u) =>
        if s.phase.stage <= 2 {
          CreateGoesOn(t, u, s.phase.stage + 1);
        } else {
          DeliverLate(t, s, r);
        }
      case Walk(u, entries, cursor) =>
        CreateGoesOn(t, u.(cache := u.cache.(collected := true)), s.phase.stage + 1);
    }
  }

  lemma {:induction false} CreatesFrom(t: Task, s: State, replies: seq<Reply>)
    requires WellPlaced(s) && Owned(s) && CreateTrack(t, s)
    ensures CreateTrack(t, Run(s, replies, false))
    decreases |replies|
  {
    if replies != [] && !s.phase.Ended? {
      DeliverCreates(t, s, replies[0]);
      DeliverOwned(s, replies[0], false);
      CreatesFrom(t, Deliver(s, replies[0], false), replies[1..]);
    }
  }

  lemma CreateTrackMeans(t: Task, s: State)
    requires WellPlaced(s) && Owned(s) && CreateTrack(t, s)
    ensures s.phase.Waiting? && s.phase.request.CreateProfile? ==>
              s.phase.request.profile == t.input && FirstCollision(Create, Cached(s.cache), t.input).None?
    ensures s.phase.Waiting? && s.phase.request.SetDefault? ==> DefaultNumberSound(t, s)
  {
    if s.phase.Waiting? {
      var plan := Plan(Create);
      assert plan[0] == Allocate && plan[1] == ReadDefault && plan[2] == Collect;
      assert plan[s.phase.stage] == StageOf(s.phase.request);
    }
  }

  /**
   In every create run a profile is created only as it was asked for and only if nothing cached matches,
   and the number made the default is the first match's or the one the modem has just given.
   */
  lemma CreateRunSound(c: Cache, t: Task, replies: seq<Reply>)
    requires t.op == Create
    ensures var s := Run(Begin(c, t), replies, false);
            && (s.phase.Waiting? && s.phase.request.CreateProfile? ==>
                  && s.phase.request.profile == t.input
                  && FirstCollision(Create, Cached(s.cache), t.input).None?)
            && (s.phase.Waiting? && s.phase.request.SetDefault? ==> DefaultNumberSound(t, s))
  {
    BeginOwned(c, t);
    CreateGoesOn(t, State(c, t.(present := false), Ended, []), 0);
    CreatesFrom(t, Begin(c, t), replies);
    RunOwnedFrom(Begin(c, t), replies, false);
    CreateTrackMeans(t, Run(Begin(c, t), replies, false));
  }
}
