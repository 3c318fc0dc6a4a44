/** When a cached profile is what a caller asks for: the comparison spelled out, and what hangs on it. */
module ProfileMatching {
  import opened Wrappers
  import opened CText
  import opened Profiles
  import opened ProfileProtocol
  import opened ProfileListing
  import opened ProfileModify

  // The same letter, but for ASCII case: 32 lies between a capital and its small letter.
  ghost predicate SameLetter(a: char, b: char) {
    || a == b
    || ('A' <= a <= 'Z' && b as int == a as int + 32)
    || ('A' <= b <= 'Z' && a as int == b as int + 32)
  }

  ghost predicate SameWord(a: string, b: string) {
    |a| == |b| && forall i :: 0 <= i < |a| ==> SameLetter(a[i], b[i])
  }

  // Five comparisons, and no more.
  ghost predicate SameService(entry: Profile, wanted: Profile) {
    && SameWord(entry.apn, wanted.apn)
    && entry.username == wanted.username
    && entry.password == wanted.password
    && entry.pdpType == wanted.pdpType
    && entry.authentication == wanted.authentication
  }

  lemma SameLetterExactly(a: char, b: char)
    ensures ToLower(a) == ToLower(b) <==> SameLetter(a, b)
  {
  }

  lemma SameWordExactly(a: string, b: string)
    ensures EqualIgnoringCase(a, b) <==> SameWord(a, b)
  {
    if |a| == |b| {
      forall i | 0 <= i < |a|
        ensures ToLower(a[i]) == ToLower(b[i]) <==> SameLetter(a[i], b[i])
      {
        SameLetterExactly(a[i], b[i]);
      }
    }
  }

  /** A cached entry stands in the way of a request when all five agree; of a modify only if it is another profile. */
  lemma CollidesExactly(op: Operation, entry: Profile, wanted: Profile)
    ensures Collides(op, entry, wanted)
            <==>
            SameWord(entry.apn, wanted.apn) && entry.username == wanted.username && entry.password == wanted.password
            && entry.pdpType == wanted.pdpType && entry.authentication == wanted.authentication
            && (op == Modify ==> entry.id != wanted.id)
  {
    SameWordExactly(entry.apn, wanted.apn);
  }

  lemma NoCollision(op: Operation, cached: seq<Profile>, wanted: Profile)
    ensures FirstCollision(op, cached, wanted).None?
            <==> forall j :: 0 <= j < |cached| ==>
                   !(SameService(cached[j], wanted) && (op == Modify ==> cached[j].id != wanted.id))
  {
    forall j | 0 <= j < |cached|
      ensures Collides(op, cached[j], wanted)
              <==> SameService(cached[j], wanted) && (op == Modify ==> cached[j].id != wanted.id)
    {
      CollidesExactly(op, cached[j], wanted);
    }
  }

  /**
   With its list at hand a create run asks the modem for a new profile, as it was wanted, exactly when no cached entry
   agrees with it in access point, user, password, PDP type and authentication; otherwise it goes on with the first that
   does.
   */
  lemma CreateAsksIffUnmatched(s: State)
    requires s.task.op == Create && !s.task.present
    ensures var next, cached, wanted := Proceed(s, 3), Cached(s.cache), s.task.input;
            && ((next.phase.Waiting? && next.phase.request == CreateProfile(wanted))
                <==> forall j :: 0 <= j < |cached| ==> !SameService(cached[j], wanted))
            && (next.phase.Waiting? && next.phase.request.CreateProfile? ==> next.phase.request.profile == wanted)
            && (next.phase.Waiting? && next.phase.request.SetDefault? ==>
                  exists m ::
                    && 0 <= m < |cached| && SameService(cached[m], wanted)
                    && (forall j :: 0 <= j < m ==> !SameService(cached[j], wanted))
                    && next.phase.request == SetDefault(cached[m].kind, cached[m].id % 256))
  {
    var cached, wanted := Cached(s.cache), s.task.input;
    CreateFromCheck(s);
    NoCollision(Create, cached, wanted);
    var hit := FirstCollision(Create, cached, wanted);
    if hit.Some? {
      CollidesExactly(Create, cached[hit.value], wanted);
      forall j | 0 <= j < hit.value
        ensures !SameService(cached[j], wanted)
      {
        CollidesExactly(Create, cached[j], wanted);
      }
    }
  }

  /**
   With a client at hand a modify is sent to the modem, as it was wanted, exactly when no cached entry with another
   number agrees with it in those five; otherwise the run ends.
   */
  lemma ModifyAsksIffUnmatched(s: State)
    requires s.task.op == Modify && !s.task.present
    ensures var next, cached, wanted := Proceed(s, 1), Cached(s.cache), s.task.input;
            && ((next.phase.Waiting? && next.phase.request == ModifyProfile(wanted.id % 256, wanted))
                <==> forall j :: 0 <= j < |cached| && cached[j].id != wanted.id ==> !SameService(cached[j], wanted))
            && (next.phase.Ended?
                <==> exists j :: 0 <= j < |cached| && cached[j].id != wanted.id && SameService(cached[j], wanted))
  {
    ModifyFromCheck(s);
    NoCollision(Modify, Cached(s.cache), s.task.input);
  }

  /**
   The comparison tells profiles apart by each of the five and by nothing else: changed in any one of them, the access
   point other than in letter case, an entry that was what is wanted is so no longer; number, kind, context number, name
   and flags do not count.
   */
  lemma MatchSeparates(entry: Profile, wanted: Profile, other: Profile)
    requires SameService(entry, wanted)
    ensures Collides(Create, entry, wanted)
    ensures other.username != entry.username ==> !Collides(Create, entry.(username := other.username), wanted)
    ensures other.password != entry.password ==> !Collides(Create, entry.(password := other.password), wanted)
    ensures other.pdpType != entry.pdpType ==> !Collides(Create, entry.(pdpType := other.pdpType), wanted)
    ensures other.authentication != entry.authentication ==>
              !Collides(Create, entry.(authentication := other.authentication), wanted)
    ensures Collides(Create, entry.(apn := other.apn), wanted) <==> SameWord(other.apn, entry.apn)
    ensures Collides(Create, other.(apn := entry.apn, username := entry.username, password := entry.password,
                                    pdpType := entry.pdpType, authentication := entry.authentication), wanted)
  {
    SameWordExactly(entry.apn, wanted.apn);
    SameWordExactly(other.apn, wanted.apn);
    if SameWord(other.apn, entry.apn) {
      assert forall i :: 0 <= i < |entry.apn| ==> SameLetter(other.apn[i], entry.apn[i]) && SameLetter(entry.apn[i], wanted.apn[i]);
    }
    if SameWord(other.apn, wanted.apn) {
      assert forall i :: 0 <= i < |entry.apn| ==> SameLetter(other.apn[i], wanted.apn[i]) && SameLetter(entry.apn[i], wanted.apn[i]);
    }
  }

  /** With one entry cached, changing it in one of the five lets the create go out. */
  lemma SeparationLetsCreate(s: State, entry: Profile)
    requires s.task.op == Create && !s.task.present && Cached(s.cache) == [entry]
    ensures var next := Proceed(s, 3);
            next.phase.Waiting? && next.phase.request == CreateProfile(s.task.input)
            <==> !SameService(entry, s.task.input)
  {
    CreateAsksIffUnmatched(s);
  }
}
