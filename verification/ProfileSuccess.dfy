/** The profile operations when nothing is refused: their requests, one by one. */
module ProfileSuccess {
  import opened Wrappers
  import opened Profiles
  import opened ProfileProtocol
  import opened ProfileRuns
  import opened ProfileNotices
  import opened ProfileListing
  import opened ProfileConversation

  function EntryAsks(entries: seq<ListEntry>): (r: seq<Request>)
    ensures |r| == |entries|
  {
    seq(|entries|, i requires 0 <= i < |entries| => GetEntrySettings(entries[i].index))
  }

  function ClientAsks(c: Cache): seq<Request> {
    if c.clientValid then [] else [AllocateClient]
  }

  // The number is the one the modem gave for its default.
  function DefaultAsks(c: Cache, number: nat): seq<Request>
    requires number < 256
  {
    if c.defaultCached then [] else [GetDefaultNumber, GetDefaultSettings(number)]
  }

  function SetDefaultAsks(p: Profile): seq<Request> {
    if p.isDefault then [SetDefault(p.kind, p.id % 256)] else []
  }

  lemma {:induction false} RequestsAreAsked(log: seq<Action>, q: Request)
    requires q in Requests(log)
    ensures Ask(q) in log
    decreases |log|
  {
    if q in Requests(log[..|log| - 1]) {
      RequestsAreAsked(log[..|log| - 1], q);
    } else {
      assert log[|log| - 1] == Ask(q);
    }
  }

  lemma {:induction false} EntriesClean(k: Knowledge, entries: seq<ListEntry>, answers: seq<Reply>, a: seq<Reply>)
    requires |answers| < |entries|
    ensures var t := EntriesTurn(k, entries, answers, a);
            && !t.Over?
            && (t.On? ==> t.known.client == k.client && t.known.defaultKnown == k.defaultKnown && t.known.default == k.default)
            && (t.On? && t.clean ==>
                  && t.asked == EntryAsks(entries[|answers| + 1..])
                  && t.known.collected && t.known.listed && |t.known.profiles| == |entries|)
    decreases |a|
  {
    if a != [] && a[0].ok && |answers| + 1 < |entries| {
      EntriesClean(k, entries, answers + [a[0]], a[1..]);
      var rest := entries[|answers| + 1..];
      assert EntryAsks(rest) == [GetEntrySettings(rest[0].index)] + EntryAsks(rest[1..]);
      assert rest[1..] == entries[|answers| + 2..];
    }
  }

  // The entries are those of the list reply.
  lemma ListClean(k: Knowledge, source: ListSource, a: seq<Reply>) returns (entries: seq<ListEntry>)
    ensures var t := ListTurn(k, source, a);
            && !t.Over?
            && (t.On? && t.clean ==>
                  && a != [] && entries == a[0].entries
                  && t.asked == [GetProfileList(source)] + EntryAsks(entries)
                  && t.known.collected && |t.known.profiles| == |entries|)
  {
    entries := if a != [] then a[0].entries else [];
    if a != [] && a[0].ok && entries != [] {
      EntriesClean(k, entries, [], a[1..]);
      assert EntryAsks(entries) == [GetEntrySettings(entries[0].index)] + EntryAsks(entries[1..]);
    }
  }

  lemma DefaultClean(c: Cache, k: Knowledge, a: seq<Reply>) returns (number: nat)
    requires k.defaultKnown == c.defaultCached
    ensures number < 256
    ensures var t := DefaultTurn(k, a);
            && (t.Over? ==> !t.clean)
            && (t.On? && t.clean ==> t.asked == DefaultAsks(c, number))
            && (t.On? ==> t.known.listed == k.listed && t.known.profiles == k.profiles)
  {
    number := if a != [] && a[0].index.Some? then a[0].index.value else 0;
  }

  // The whole of a list conversation without a refusal.
  lemma ListTalkClean(c: Cache, a: seq<Reply>) returns (number: nat, entries: seq<ListEntry>)
    ensures number < 256
    ensures var talk := ListConversation(Known(c), a);
            talk.Over? && talk.clean ==>
              && talk.asked == ClientAsks(c) + (DefaultAsks(c, number) + ([GetProfileList(ViaDml)] + EntryAsks(entries)))
              && talk.known.collected && |talk.known.profiles| == |entries| && talk.told.None?
  {
    var first := ClientTurn(Known(c).(collected := false), a);
    number, entries := 0, [];
    if first.On? {
      number := DefaultClean(c, first.known, first.rest);
      var next := DefaultTurn(first.known, first.rest);
      if next.On? {
        entries := ListClean(next.known, ViaDml, next.rest);
      }
    }
  }

  /**
   A list run whose requests all succeed asks for a client if there is none, for the modem's default if it is not cached,
   always for the list, and then for the settings of every entry; and then the list is collected.
   */
  lemma SuccessfulList(c: Cache, t: Task, replies: seq<Reply>) returns (number: nat, entries: seq<ListEntry>)
    requires t.op == List
    requires var s := Run(Begin(c, t), replies, false); s.phase.Ended? && AllSucceeded(s.log)
    ensures number < 256
    ensures var s := Run(Begin(c, t), replies, false);
            && Requests(s.log)
               == ClientAsks(c) + (DefaultAsks(c, number) + ([GetProfileList(ViaDml)] + EntryAsks(entries)))
            && Ask(GetProfileList(ViaDml)) in s.log
            && s.cache.collected && |Cached(s.cache)| == |entries|
            && Notices(s.log) == []
  {
    RunConverses(c, t, replies);
    number, entries := ListTalkClean(c, replies);
    var s := Run(Begin(c, t), replies, false);
    assert s.cache.collected == Known(s.cache).collected && Cached(s.cache) == Known(s.cache).profiles;
    assert GetProfileList(ViaDml) in [GetProfileList(ViaDml)] + EntryAsks(entries);
    RequestsAreAsked(s.log, GetProfileList(ViaDml));
  }

  /** A delete run whose requests all succeed: a client if there is none, the delete, the list again; then it is told. */
  lemma SuccessfulDelete(c: Cache, t: Task, replies: seq<Reply>) returns (entries: seq<ListEntry>)
    requires t.op == Delete
    requires var s := Run(Begin(c, t), replies, false); s.phase.Ended? && AllSucceeded(s.log)
    ensures var s := Run(Begin(c, t), replies, false);
            && Requests(s.log)
               == ClientAsks(c) + [DeleteProfile(t.input.id % 256)] + ([GetProfileList(ViaDelete)] + EntryAsks(entries))
            && s.cache.collected && |Cached(s.cache)| == |entries|
            && Notices(s.log) == if t.callback then [Deleted(t.input.name, t.input.pdpType)] else []
  {
    RunConverses(c, t, replies);
    var s := Run(Begin(c, t), replies, false);
    var first := ClientTurn(Known(c), replies);
    var next := DeleteTurn(first.known, t.input, first.rest);
    entries := ListClean(next.known, ViaDelete, next.rest);
    assert s.cache.collected == Known(s.cache).collected && Cached(s.cache) == Known(s.cache).profiles;
  }

  /**
   A modify run whose requests all succeed: a client if there is none; the modify and, for a profile that is to be the
   default, set-default, unless another cached profile is what was asked for. After set-default the cached default is the
   profile, and nothing is told.
   */
  lemma SuccessfulModify(c: Cache, t: Task, replies: seq<Reply>)
    requires t.op == Modify
    requires var s := Run(Begin(c, t), replies, false); s.phase.Ended? && AllSucceeded(s.log)
    ensures var s, hit := Run(Begin(c, t), replies, false), FirstCollision(Modify, Cached(c), t.input);
            && Requests(s.log)
               == ClientAsks(c)
                  + (if hit.None? then [ModifyProfile(t.input.id % 256, t.input)] + SetDefaultAsks(t.input) else [])
            && s.cache.default == (if hit.None? && t.input.isDefault then t.input else c.default)
            && Notices(s.log)
               == if !t.callback || (hit.None? && t.input.isDefault) then []
                  else if hit.None? then [Ready(t.input.name, t.input.pdpType)]
                  else [Ready(Cached(c)[hit.value].name, Cached(c)[hit.value].pdpType)]
  {
    RunConverses(c, t, replies);
    var s := Run(Begin(c, t), replies, false);
    assert s.cache.default == Known(s.cache).default;
  }

  // The profile a create run settles on: the first match, or what was asked for under the modem's number.
  predicate Takes(list: seq<Profile>, wanted: Profile, p: Profile) {
    match FirstCollision(Create, list, wanted)
    case Some(m) => p == list[m].(isDefault := wanted.isDefault || list[m].isDefault)
    case None => p == wanted.(id := p.id, kind := p.kind)
  }

  function ListAsks(listed: bool, entries: seq<ListEntry>): seq<Request> {
    if listed then [] else [GetProfileList(ViaCreate)] + EntryAsks(entries)
  }

  function CreateAsksFor(list: seq<Profile>, wanted: Profile, p: Profile): seq<Request> {
    (if FirstCollision(Create, list, wanted).Some? then [] else [CreateProfile(wanted)]) + SetDefaultAsks(p)
  }

  lemma CreateClean(k: Knowledge, wanted: Profile, a: seq<Reply>) returns (p: Profile)
    ensures Takes(k.profiles, wanted, p)
    ensures var turn := CreateTurn(k, wanted, a);
            turn.Over? && turn.clean ==>
              && turn.asked == CreateAsksFor(k.profiles, wanted, p)
              && (p.isDefault ==> turn.known.default == p) && turn.told == Some(Ready(p.name, p.pdpType))
  {
    match FirstCollision(Create, k.profiles, wanted)
    case Some(m) => p := Taken(k, m, wanted);
    case None =>
      p := if a != [] && a[0].index.Some? then wanted.(id := a[0].index.value, kind := a[0].kind) else wanted;
  }

  // From the list on.
  lemma ListThenCreateClean(k: Knowledge, wanted: Profile, a: seq<Reply>)
      returns (entries: seq<ListEntry>, list: seq<Profile>, p: Profile)
    ensures k.listed ==> list == k.profiles
    ensures Takes(list, wanted, p)
    ensures var turn := ListThenCreate(k, wanted, a);
            turn.Over? && turn.clean ==>
              && turn.asked == ListAsks(k.listed, entries) + CreateAsksFor(list, wanted, p)
              && (!k.listed ==> |list| == |entries|)
              && (p.isDefault ==> turn.known.default == p) && turn.told == Some(Ready(p.name, p.pdpType))
  {
    entries, list := [], k.profiles;
    if k.listed {
      p := CreateClean(k, wanted, a);
    } else {
      entries := ListClean(k, ViaCreate, a);
      var next := ListTurn(k, ViaCreate, a);
      if next.On? {
        list := next.known.profiles;
        p := CreateClean(next.known, wanted, next.rest);
      } else {
        p := CreateClean(k, wanted, a);
      }
    }
  }

  // The whole of a create conversation without a refusal.
  lemma CreateTalkClean(c: Cache, wanted: Profile, a: seq<Reply>)
      returns (number: nat, entries: seq<ListEntry>, list: seq<Profile>, p: Profile)
    ensures number < 256 && (c.listing.Some? ==> list == Cached(c)) && Takes(list, wanted, p)
    ensures var talk := CreateConversation(Known(c), wanted, a);
            talk.Over? && talk.clean ==>
              && talk.asked == ClientAsks(c) + (DefaultAsks(c, number)
                               + (ListAsks(c.listing.Some?, entries) + CreateAsksFor(list, wanted, p)))
              && (c.listing.None? ==> |list| == |entries|)
              && (p.isDefault ==> talk.known.default == p) && talk.told == Some(Ready(p.name, p.pdpType))
  {
    var k := Known(c);
    var first := ClientTurn(k, a);
    number := 0;
    entries, list, p := ListThenCreateClean(k, wanted, a);
    if first.On? {
      number := DefaultClean(c, first.known, first.rest);
      var next := DefaultTurn(first.known, first.rest);
      if next.On? {
        entries, list, p := ListThenCreateClean(next.known, wanted, next.rest);
      }
    }
  }

  /**
   A create run whose requests all succeed: a client if there is none, the modem's default if it is not cached, the list
   if there is none; then, unless a profile of that list is what was asked for, the create; and set-default for a profile
   that is to be the default, under the number of the match or the one the modem has just given, which is then cached.
   The callback hears of that profile.
   */
  lemma SuccessfulCreate(c: Cache, t: Task, replies: seq<Reply>)
      returns (number: nat, entries: seq<ListEntry>, list: seq<Profile>, p: Profile)
    requires t.op == Create
    requires var s := Run(Begin(c, t), replies, false); s.phase.Ended? && AllSucceeded(s.log)
    ensures number < 256
    ensures if c.listing.Some? then list == Cached(c) else |list| == |entries|
    ensures Takes(list, t.input, p)
    ensures var s := Run(Begin(c, t), replies, false);
            && Requests(s.log) == ClientAsks(c) + (DefaultAsks(c, number)
                                  + (ListAsks(c.listing.Some?, entries) + CreateAsksFor(list, t.input, p)))
            && (p.isDefault ==> s.cache.default == p)
            && Notices(s.log) == if t.callback then [Ready(p.name, p.pdpType)] else []
  {
    RunConverses(c, t, replies);
    number, entries, list, p := CreateTalkClean(c, t.input, replies);
    var s := Run(Begin(c, t), replies, false);
    assert s.cache.default == Known(s.cache).default;
  }
}
