/** The table of open bearers: an array of pointers, packed at the front, compacted in place. */
module BearerTable {
  import opened Wrappers
  import BearerPath
  import CText

  const MAX_BEARERS := 16

  class Bearer {
    const path: string

    constructor (path: string)
      ensures this.path == path
    {
      this.path := path;
    }
  }

  datatype Notice = ProfileReady | ProfileNotReady | ProfileDeleted

  // What ModemManager makes of a request for a bearer.
  datatype Creation = Created(path: string) | Refused(maximumReached: bool)

  // ---- What deletion means for the sequence of live bearers ----

  function Without(bearers: seq<Bearer>, path: string): seq<Bearer> {
    if bearers == [] then []
    else (if bearers[0].path == path then [] else [bearers[0]]) + Without(bearers[1..], path)
  }

  function Having(bearers: seq<Bearer>, path: string): seq<Bearer> {
    if bearers == [] then []
    else (if bearers[0].path == path then [bearers[0]] else []) + Having(bearers[1..], path)
  }

  ghost predicate DistinctPaths(bearers: seq<Bearer>) {
    forall i, j :: 0 <= i < j < |bearers| ==> bearers[i].path != bearers[j].path
  }

  ghost predicate Absent(bearers: seq<Bearer>, path: string) {
    forall i :: 0 <= i < |bearers| ==> bearers[i].path != path
  }

  lemma {:induction false} WithoutAbsent(bearers: seq<Bearer>, path: string)
    requires Absent(bearers, path)
    ensures Without(bearers, path) == bearers && Having(bearers, path) == []
  {
    if bearers != [] {
      WithoutAbsent(bearers[1..], path);
    }
  }

  lemma {:induction false} WithoutAt(bearers: seq<Bearer>, k: nat)
    requires k < |bearers| && DistinctPaths(bearers)
    ensures Without(bearers, bearers[k].path) == bearers[..k] + bearers[k + 1..]
    ensures Having(bearers, bearers[k].path) == [bearers[k]]
    decreases |bearers|
  {
    if k == 0 {
      WithoutAbsent(bearers[1..], bearers[0].path);
    } else {
      WithoutAt(bearers[1..], k - 1);
      assert bearers[..k] + bearers[k + 1..] == [bearers[0]] + (bearers[1..][..k - 1] + bearers[1..][k..]);
    }
  }

  // The path a deletion looks for: the profile's, or the modem's first, or none.
  function Target(profileId: Option<int>, firstPath: Option<string>): string {
    if profileId.Some? then BearerPath.PathOf(profileId.value)
    else CText.Clip(firstPath.GetOr(""), BearerPath.PATH_SIZE)
  }

  lemma HavingAtMostOne(bearers: seq<Bearer>, path: string)
    requires DistinctPaths(bearers)
    ensures |Having(bearers, path)| <= 1
  {
    if k :| 0 <= k < |bearers| && bearers[k].path == path {
      WithoutAt(bearers, k);
    } else {
      WithoutAbsent(bearers, path);
    }
  }

  // Packed, no path twice, and nothing live or freed twice has been freed.
  ghost predicate Sound(live: seq<Bearer?>, freed: seq<Bearer>) {
    && (forall i :: 0 <= i < |live| ==> live[i] != null && live[i] !in freed)
    && (forall i, j :: 0 <= i < j < |live| ==> live[i].path != live[j].path)
    && (forall i, j :: 0 <= i < j < |freed| ==> freed[i] != freed[j])
  }

  lemma SoundWithout(live: seq<Bearer?>, freed: seq<Bearer>, k: nat)
    requires Sound(live, freed) && k < |live|
    ensures Sound(live[..k] + live[k + 1..], freed + [live[k]])
  {
    var rest := live[..k] + live[k + 1..];
    assert forall i :: 0 <= i < |rest| ==> rest[i] == if i < k then live[i] else live[i + 1];
  }

  class Modem {
    const bearers: array<Bearer?>
    var count: nat
    var notices: seq<Notice>
    ghost var freed: seq<Bearer>

    constructor ()
      ensures Valid() && fresh(bearers) && Live() == [] && freed == [] && notices == []
    {
      bearers := new Bearer?[MAX_BEARERS](_ => null);
      count, notices, freed := 0, [], [];
    }

    ghost predicate Valid()
      reads this, bearers
    {
      bearers.Length == MAX_BEARERS && count <= MAX_BEARERS && Sound(bearers[..count], freed)
    }

    ghost function Live(): (r: seq<Bearer>)
      requires Valid()
      reads this, bearers
      ensures |r| == count && DistinctPaths(r)
    {
      bearers[..count]
    }

    // A matching bearer: the modem may agree to its deletion; its memory goes in any case.
    method Free(current: nat, deleted: bool, callback: bool)
      requires current < bearers.Length && bearers[current] != null
      modifies this`notices, this`freed, bearers
      ensures bearers[..] == old(bearers[..])[current := null]
      ensures freed == old(freed) + [old(bearers[current])]
      ensures notices == old(notices) + if deleted && callback then [ProfileDeleted] else []
    {
      if deleted && callback {
        notices := notices + [ProfileDeleted];
      }
      freed := freed + [bearers[current]];
      bearers[current] := null;
    }

    // The loop of a deletion: everything behind the removed entry moves up, the entry after the live ones included.
    method Compact(path: string, deleted: bool, callback: bool) returns (removed: nat)
      requires Valid() && (count < MAX_BEARERS || Absent(Live(), path))
      modifies this`notices, this`freed, bearers
      ensures removed == MAX_BEARERS ==>
                && bearers[..] == old(bearers[..]) && freed == old(freed) && notices == old(notices)
                && Absent(old(Live()), path)
      ensures removed != MAX_BEARERS ==>
                && removed < count && old(Live())[removed].path == path
                && bearers[..count - 1] == old(Live())[..removed] + old(Live())[removed + 1..]
                && freed == old(freed) + [old(Live())[removed]]
                && notices == old(notices) + if deleted && callback then [ProfileDeleted] else []
    {
      ghost var was := bearers[..];
      ghost var live := Live();
      var current := 0;
      removed := MAX_BEARERS;
      while current < count
        invariant 0 <= current <= count
        invariant removed == MAX_BEARERS || (removed < current && count < MAX_BEARERS)
        invariant forall i :: current <= i < MAX_BEARERS ==> bearers[i] == was[i]
        invariant forall i :: 0 <= i < current && i < removed ==> bearers[i] == was[i]
        invariant forall i :: removed <= i < current ==> bearers[i] == was[i + 1]
        invariant removed == MAX_BEARERS ==>
                    && Absent(live[..current], path) && freed == old(freed) && notices == old(notices)
        invariant removed != MAX_BEARERS ==>
                    && live[removed].path == path && freed == old(freed) + [live[removed]]
                    && notices == old(notices) + if deleted && callback then [ProfileDeleted] else []
      {
        assert bearers[current] == was[current] == live[current];
        if bearers[current].path == path {
          removed := current;
          Free(current, deleted, callback);
        }
        if removed != MAX_BEARERS {
          bearers[current] := bearers[current + 1];
        }
        current := current + 1;
      }
    }

    /**
     Deleting a profile. The bearer with its path goes, is freed once, and the ones behind it move up; the modem's
     refusal only keeps the notification back.
     */
    method ProfileDelete(profileId: Option<int>, firstPath: Option<string>, deleted: bool, callback: bool)
      requires Valid() && (count < MAX_BEARERS || Absent(Live(), Target(profileId, firstPath)))
      modifies this, bearers
      ensures Valid()
      ensures var path, was := Target(profileId, firstPath), old(Live());
              && Live() == Without(was, path)
              && freed == old(freed) + Having(was, path)
              && count == old(count) - |Having(was, path)|
              && notices == old(notices) + if Having(was, path) != [] && deleted && callback then [ProfileDeleted] else []
    {
      var path := Target(profileId, firstPath);
      ghost var was := Live();
      var removed := Compact(path, deleted, callback);
      if removed != MAX_BEARERS {
        count := count - 1;
        WithoutAt(was, removed);
        SoundWithout(was, old(freed), removed);
      } else {
        WithoutAbsent(was, path);
        assert bearers[..count] == old(bearers[..])[..count];
      }
    }

    /** Creating a bearer at the end of the table; a refused one leaves only its freed pointer behind the live ones. */
    method ProfileCreate(outcome: Creation, junk: string) returns (profileId: Option<int>)
      requires Valid() && count < MAX_BEARERS
      requires outcome.Created? ==> |outcome.path| >= |BearerPath.PREFIX|
      requires outcome.Created? ==> Absent(Live(), outcome.path)
      modifies this, bearers
      ensures Valid()
      ensures match outcome
              case Created(path) =>
                && count == old(count) + 1 && Live()[..old(count)] == old(Live())
                && Live()[old(count)].path == path && fresh(Live()[old(count)])
                && freed == old(freed)
                && profileId == Some(BearerPath.ProfileIdOf(path, junk))
                && notices == old(notices) + [ProfileReady]
              case Refused(maximumReached) =>
                && Live() == old(Live()) && profileId == None
                && |freed| == |old(freed)| + 1 && freed[..|old(freed)|] == old(freed) && fresh(freed[|old(freed)|])
                && notices == old(notices) + [if maximumReached then ProfileReady else ProfileNotReady]
    {
      ghost var was := Live();
      var bearer := new Bearer(if outcome.Created? then outcome.path else "");
      bearers[count] := bearer;
      match outcome {
        case Refused(maximumReached) =>
          notices := notices + [if maximumReached then ProfileReady else ProfileNotReady];
          freed := freed + [bearer];
          profileId := None;
          assert bearers[..count] == was;
        case Created(path) =>
          profileId := Some(BearerPath.ProfileIdOf(path, junk));
          count := count + 1;
          notices := notices + [ProfileReady];
          assert bearers[..count] == was + [bearer];
      }
    }

    /**
     Modifying is deleting and creating again: a matching bearer makes way for a new one at the end, and the count
     stays.
     */
    method ProfileModify(profileId: Option<int>, firstPath: Option<string>, deleted: bool, callback: bool,
                         outcome: Creation, junk: string)
        returns (newId: Option<int>)
      requires Valid() && count < MAX_BEARERS
      requires outcome.Created? ==> |outcome.path| >= |BearerPath.PREFIX|
      requires outcome.Created? ==> Absent(Without(Live(), Target(profileId, firstPath)), outcome.path)
      modifies this, bearers
      ensures Valid()
      ensures var was, rest := old(Live()), Without(old(Live()), Target(profileId, firstPath));
              && |rest| <= count && Live()[..|rest|] == rest
              && (outcome.Refused? ==> Live() == rest && newId == None)
              && (outcome.Created? ==>
                    && count == |rest| + 1
                    && Live()[|rest|].path == outcome.path && fresh(Live()[|rest|])
                    && freed == old(freed) + Having(was, Target(profileId, firstPath))
                    && newId == Some(BearerPath.ProfileIdOf(outcome.path, junk))
                    && (Having(was, Target(profileId, firstPath)) != [] ==> count == old(count)))
    {
      HavingAtMostOne(Live(), Target(profileId, firstPath));
      ProfileDelete(profileId, firstPath, deleted, callback);
      newId := ProfileCreate(outcome, junk);
    }
  }

  /**
   Deleting with the number that creation parsed from a path removes exactly the bearer with that path and keeps the
   order of the rest, for bearer indices under a million.
   */
  lemma DeleteFindsCreated(bearers: seq<Bearer>, k: nat, index: nat, junk: string)
    requires k < |bearers| && DistinctPaths(bearers) && |junk| >= 1
    requires index < 1_000_000 && bearers[k].path == BearerPath.PREFIX + BearerPath.Decimal(index)
    ensures var target := Target(Some(BearerPath.ProfileIdOf(bearers[k].path, junk)), None);
            Having(bearers, target) == [bearers[k]] && Without(bearers, target) == bearers[..k] + bearers[k + 1..]
  {
    BearerPath.PathRoundTrip(index);
    WithoutAt(bearers, k);
  }

  /** Deleting without a profile removes exactly the modem's first bearer, if its path fits, and none if it has none. */
  lemma DeleteFindsFirst(bearers: seq<Bearer>, k: nat)
    requires k < |bearers| && DistinctPaths(bearers)
    requires forall i :: 0 <= i < |bearers| ==> 0 < |bearers[i].path| < 64
    ensures Having(bearers, Target(None, Some(bearers[k].path))) == [bearers[k]]
    ensures Without(bearers, Target(None, Some(bearers[k].path))) == bearers[..k] + bearers[k + 1..]
    ensures Having(bearers, Target(None, None)) == [] && Without(bearers, Target(None, None)) == bearers
  {
    WithoutAt(bearers, k);
    WithoutAbsent(bearers, "");
  }
}
