/** Finding a WAN interface by name: a search over the bus, and the cache in front of it. */
module InterfaceIndex {
  import opened Wrappers

  const CACHE_SIZE := 16
  const NAME_SIZE := 16
  const NOT_FOUND := 0xFF

  // What the bus answers: the number of interfaces, then the name of each; any read may fail.
  datatype Bus = Bus(count: Option<nat>, names: seq<Option<string>>)

  datatype Entry = Entry(index: nat, name: string)

  function NameAt(bus: Bus, i: nat): Option<string> {
    if i < |bus.names| then bus.names[i] else None
  }

  // The search from entry i on: 1-based, or -1 when nothing matches or a read fails first.
  function SearchFrom(bus: Bus, name: string, i: nat): int
    requires bus.count.Some? && i <= bus.count.value
    decreases bus.count.value - i
  {
    if i == bus.count.value then -1
    else match NameAt(bus, i)
    case None => -1
    case Some(value) => if name <= value then i + 1 else SearchFrom(bus, name, i + 1)
  }

  function Search(bus: Bus, name: string): int {
    if bus.count.None? then -1 else SearchFrom(bus, name, 0)
  }

  // The first cached index of a name; 0xFF says there is none, and is never taken for an index.
  function Found(entries: seq<Entry>, name: string): nat {
    if entries == [] then NOT_FOUND
    else if entries[0].name == name then entries[0].index
    else Found(entries[1..], name)
  }

  // A lookup: its result, and the cache after it.
  function Answer(entries: seq<Entry>, bus: Bus, name: string): int {
    if Found(entries, name) != NOT_FOUND then Found(entries, name) else Search(bus, name)
  }

  function Cached(entries: seq<Entry>, bus: Bus, name: string): seq<Entry> {
    if Found(entries, name) != NOT_FOUND || Search(bus, name) < 0 then entries
    else entries + [Entry(Search(bus, name), name)]
  }

  lemma {:induction false} FoundAt(entries: seq<Entry>, name: string, k: nat)
    requires k <= |entries| && forall i :: 0 <= i < k ==> entries[i].name != name
    ensures Found(entries, name) == Found(entries[k..], name)
    decreases k
  {
    if k > 0 {
      FoundAt(entries[1..], name, k - 1);
      assert entries[1..][k - 1..] == entries[k..];
    } else {
      assert entries[0..] == entries;
    }
  }

  class IndexCache {
    const entries: array<Entry>
    var size: nat

    constructor ()
      ensures Valid() && fresh(entries) && Contents() == []
    {
      entries := new Entry[CACHE_SIZE](_ => Entry(0, ""));
      size := 0;
    }

    ghost predicate Valid()
      reads this
    {
      entries.Length == CACHE_SIZE && size <= CACHE_SIZE
    }

    ghost function Contents(): seq<Entry>
      requires Valid()
      reads this, entries
    {
      entries[..size]
    }

    method FindInList(name: string) returns (index: nat)
      requires Valid()
      ensures index == Found(Contents(), name)
    {
      var i := 0;
      while i < size
        invariant 0 <= i <= size
        invariant forall k :: 0 <= k < i ==> entries[k].name != name
      {
        if entries[i].name == name {
          FoundAt(Contents(), name, i);
          return entries[i].index;
        }
        i := i + 1;
      }
      FoundAt(Contents(), name, size);
      return NOT_FOUND;
    }

    /** A lookup. A found name is copied behind the cached ones, for which there must be room. */
    method Lookup(bus: Bus, name: string) returns (index: int)
      requires Valid() && |name| < NAME_SIZE
      requires size < CACHE_SIZE || Cached(Contents(), bus, name) == Contents()
      modifies this, entries
      ensures Valid()
      ensures index == Answer(old(Contents()), bus, name)
      ensures Contents() == Cached(old(Contents()), bus, name)
    {
      var found := FindInList(name);
      if found != NOT_FOUND {
        return found;
      }
      if bus.count.None? {
        return -1;
      }
      var total := bus.count.value;
      var i := 0;
      while i < total
        invariant 0 <= i <= total
        invariant SearchFrom(bus, name, i) == Search(bus, name)
      {
        var value := NameAt(bus, i);
        if value.None? {
          return -1;
        }
        if name <= value.value {
          entries[size] := Entry(i + 1, name);
          size := size + 1;
          return i + 1;
        }
        i := i + 1;
      }
      return -1;
    }
  }

  // ---- What the search finds ----

  // A bus over a fixed table, all of whose reads succeed.
  function BusOf(table: seq<string>): (bus: Bus)
    ensures bus.count == Some(|table|) && |bus.names| == |table|
    ensures forall i :: 0 <= i < |table| ==> bus.names[i] == Some(table[i])
  {
    Bus(Some(|table|), seq(|table|, i requires 0 <= i < |table| => Some(table[i])))
  }

  lemma {:induction false} SearchFromIsLeast(table: seq<string>, name: string, i: nat)
    requires i <= |table|
    ensures var r := SearchFrom(BusOf(table), name, i);
            if r == -1 then forall k :: i <= k < |table| ==> !(name <= table[k])
            else i < r <= |table| && name <= table[r - 1] && forall k :: i <= k < r - 1 ==> !(name <= table[k])
    decreases |table| - i
  {
    if i < |table| { SearchFromIsLeast(table, name, i + 1); }
  }

  /** The search yields the least 1-based entry that has the name as a prefix, or -1 when none has. */
  lemma SearchIsLeast(table: seq<string>, name: string)
    ensures var r := Search(BusOf(table), name);
            if r == -1 then forall k :: 0 <= k < |table| ==> !(name <= table[k])
            else 1 <= r <= |table| && name <= table[r - 1] && forall k :: 0 <= k < r - 1 ==> !(name <= table[k])
  {
    SearchFromIsLeast(table, name, 0);
  }

  // ---- Sequences of lookups ----

  // The results of a sequence of lookups, and the cache they leave.
  function Results(entries: seq<Entry>, bus: Bus, names: seq<string>): (r: seq<int>)
    ensures |r| == |names|
    decreases |names|
  {
    if names == [] then []
    else [Answer(entries, bus, names[0])] + Results(Cached(entries, bus, names[0]), bus, names[1..])
  }

  function CacheAfter(entries: seq<Entry>, bus: Bus, names: seq<string>): seq<Entry>
    decreases |names|
  {
    if names == [] then entries else CacheAfter(Cached(entries, bus, names[0]), bus, names[1..])
  }

  // Every cached index is the one the search would give.
  ghost predicate Faithful(entries: seq<Entry>, bus: Bus) {
    forall i :: 0 <= i < |entries| ==> entries[i].index == Search(bus, entries[i].name)
  }

  lemma {:induction false} FaithfulFound(entries: seq<Entry>, bus: Bus, name: string)
    requires Faithful(entries, bus) && Found(entries, name) != NOT_FOUND
    ensures Found(entries, name) == Search(bus, name)
    decreases |entries|
  {
    if entries[0].name != name { FaithfulFound(entries[1..], bus, name); }
  }

  /** Over a fixed table every lookup of any sequence returns what the search without a cache returns. */
  lemma {:induction false} CacheTransparent(entries: seq<Entry>, bus: Bus, names: seq<string>, k: nat)
    requires Faithful(entries, bus) && k < |names|
    ensures Results(entries, bus, names)[k] == Search(bus, names[k])
    decreases |names|
  {
    if Found(entries, names[0]) != NOT_FOUND { FaithfulFound(entries, bus, names[0]); }
    if k > 0 {
      CacheTransparent(Cached(entries, bus, names[0]), bus, names[1..], k - 1);
    }
  }

  // ---- How large the cache grows ----

  ghost predicate DistinctNames(entries: seq<Entry>) {
    forall i, j :: 0 <= i < j < |entries| ==> entries[i].name != entries[j].name
  }

  ghost predicate NamesIn(entries: seq<Entry>, names: set<string>) {
    forall i :: 0 <= i < |entries| ==> entries[i].name in names
  }

  lemma {:induction false} DistinctBounded(entries: seq<Entry>, names: set<string>)
    requires DistinctNames(entries) && NamesIn(entries, names)
    ensures |entries| <= |names|
    decreases |entries|
  {
    if entries != [] {
      var last := |entries| - 1;
      DistinctBounded(entries[..last], names - {entries[last].name});
    }
  }

  // A name that is cached is found, unless its index is the value that says otherwise.
  lemma {:induction false} CachedIsFound(entries: seq<Entry>, i: nat)
    requires i < |entries| && forall j :: 0 <= j < |entries| ==> entries[j].index != NOT_FOUND
    ensures Found(entries, entries[i].name) != NOT_FOUND
    decreases |entries|
  {
    if i > 0 { CachedIsFound(entries[1..], i - 1); }
  }

  // The known names that are found somewhere.
  function Hits(bus: Bus, known: set<string>): set<string> {
    set n | n in known && Search(bus, n) >= 0
  }

  // The indices of names that are found elsewhere than at place 255 are told apart from absence.
  predicate Distinguishable(bus: Bus, known: set<string>) {
    forall n :: n in known ==> Search(bus, n) != NOT_FOUND
  }

  predicate NamesFrom(names: seq<string>, known: set<string>) {
    forall k :: 0 <= k < |names| ==> names[k] in known
  }

  lemma {:induction false} CacheGrowth(entries: seq<Entry>, bus: Bus, names: seq<string>, known: set<string>)
    requires NamesFrom(names, known) && Distinguishable(bus, known)
    requires Faithful(entries, bus) && DistinctNames(entries) && NamesIn(entries, Hits(bus, known))
    ensures var after := CacheAfter(entries, bus, names); DistinctNames(after) && NamesIn(after, Hits(bus, known))
    decreases |names|
  {
    if names != [] {
      if Found(entries, names[0]) == NOT_FOUND {
        forall i | 0 <= i < |entries|
          ensures entries[i].name != names[0]
        {
          assert forall j :: 0 <= j < |entries| ==> entries[j].index != NOT_FOUND;
          CachedIsFound(entries, i);
        }
      }
      CacheGrowth(Cached(entries, bus, names[0]), bus, names[1..], known);
    }
  }

  // Looking up names that are not cached yet, each once, caches them all.
  lemma {:induction false} CacheFills(entries: seq<Entry>, bus: Bus, todo: set<string>) returns (names: seq<string>)
    requires forall n :: n in todo ==> Search(bus, n) >= 0
    requires forall i :: 0 <= i < |entries| ==> entries[i].name !in todo
    ensures NamesFrom(names, todo) && |CacheAfter(entries, bus, names)| == |entries| + |todo|
    decreases |todo|
  {
    names := [];
    if todo != {} {
      var n :| n in todo;
      FoundAt(entries, n, |entries|);
      var rest := CacheFills(Cached(entries, bus, n), bus, todo - {n});
      names := [n] + rest;
    }
  }

  lemma {:induction false} FoundAppended(entries: seq<Entry>, name: string)
    requires Found(entries, name) == NOT_FOUND
    ensures Found(entries + [Entry(NOT_FOUND, name)], name) == NOT_FOUND
    decreases |entries|
  {
    if entries != [] && entries[0].name != name {
      FoundAppended(entries[1..], name);
      assert (entries + [Entry(NOT_FOUND, name)])[1..] == entries[1..] + [Entry(NOT_FOUND, name)];
    }
  }

  /** A name found at place 255 is cached under the value for absence, and so cached again by every lookup. */
  lemma {:induction false} SentinelGrows(entries: seq<Entry>, bus: Bus, name: string, times: nat)
    requires Search(bus, name) == NOT_FOUND && Found(entries, name) == NOT_FOUND
    ensures |CacheAfter(entries, bus, seq(times, _ => name))| == |entries| + times
    decreases times
  {
    if times > 0 {
      var next := Cached(entries, bus, name);
      FoundAppended(entries, name);
      SentinelGrows(next, bus, name, times - 1);
      assert seq(times, _ => name)[1..] == seq(times - 1, _ => name);
    }
  }

  /**
   Over a fixed bus the cache stays within its 16 places in all sequences of lookups of known names, if and only if none
   of them is found at place 255 and at most 16 are found at all.
   */
  lemma CacheFitsExactly(bus: Bus, known: set<string>)
    ensures (forall names | NamesFrom(names, known) :: |CacheAfter([], bus, names)| <= CACHE_SIZE)
            <==> Distinguishable(bus, known) && |Hits(bus, known)| <= CACHE_SIZE
  {
    if !Distinguishable(bus, known) {
      var n :| n in known && Search(bus, n) == NOT_FOUND;
      SentinelGrows([], bus, n, CACHE_SIZE + 1);
      assert NamesFrom(seq(CACHE_SIZE + 1, _ => n), known);
    } else if |Hits(bus, known)| > CACHE_SIZE {
      var names := CacheFills([], bus, Hits(bus, known));
      assert NamesFrom(names, known);
    } else {
      forall names | NamesFrom(names, known)
        ensures |CacheAfter([], bus, names)| <= CACHE_SIZE
      {
        CacheGrowth([], bus, names, known);
        DistinctBounded(CacheAfter([], bus, names), Hits(bus, known));
      }
    }
  }

  lemma {:induction false} SubsetSize(a: set<string>, b: set<string>)
    requires a <= b
    ensures |a| <= |b|
    decreases |a|
  {
    if a != {} {
      var x :| x in a;
      SubsetSize(a - {x}, b - {x});
    }
  }

  /** In particular it does over a table of fewer than 255 interfaces, while at most 16 names are looked up. */
  lemma CacheFits(table: seq<string>, names: seq<string>, known: set<string>)
    requires |table| < NOT_FOUND && |known| <= CACHE_SIZE && NamesFrom(names, known)
    ensures |CacheAfter([], BusOf(table), names)| <= CACHE_SIZE
  {
    forall n | n in known
      ensures Search(BusOf(table), n) != NOT_FOUND
    {
      SearchIsLeast(table, n);
    }
    SubsetSize(Hits(BusOf(table), known), known);
    CacheFitsExactly(BusOf(table), known);
  }
}
