/** The filter between the modem's serving-system indications and the registration callback. */
module ServingSystem {
  import opened Wrappers

  datatype Registration = Registered | Unregistered(code: nat)

  datatype Roaming = RoamingOn | RoamingOff(code: nat)

  datatype Service = NoService | CsOnly | PsOnly | CsAndPs

  // The serving-system field of an indication.
  datatype Serving = Serving(registration: Registration, cs: bool, ps: bool)

  // An indication; a field that cannot be parsed is missing.
  datatype Indication = Indication(serving: Option<Serving>, roaming: Option<Roaming>)

  datatype Pair = Pair(registration: Registration, roaming: Roaming)

  datatype Report = Report(registered: bool, roaming: bool, service: Service)

  function ServiceOf(s: Serving): Service {
    if s.ps && s.cs then CsAndPs else if s.ps then PsOnly else if s.cs then CsOnly else NoService
  }

  // The raw pair an indication stands for, given the one before it.
  function Seen(before: Pair, i: Indication): Pair {
    Pair(if i.serving.Some? then i.serving.value.registration else before.registration,
         i.roaming.GetOr(before.roaming))
  }

  // The service is told only by the indication that changes the registration.
  function ReportOf(before: Pair, now: Pair, i: Indication): Report {
    Report(now.registration == Registered, now.roaming == RoamingOn,
           if now.registration != before.registration && i.serving.Some? then ServiceOf(i.serving.value) else NoService)
  }

  class Filter {
    var registrationPrevious: Registration
    var roamingPrevious: Roaming
    var reports: seq<Report>

    constructor (registration: Registration, roaming: Roaming)
      ensures View() == Pair(registration, roaming) && reports == []
    {
      registrationPrevious, roamingPrevious, reports := registration, roaming, [];
    }

    ghost function View(): Pair
      reads this
    {
      Pair(registrationPrevious, roamingPrevious)
    }

    /** One indication: a report exactly when the pair changes, about the pair as it is now. */
    method Indicate(i: Indication, callback: bool)
      modifies this
      ensures View() == Seen(old(View()), i)
      ensures reports == old(reports) + if callback && View() != old(View()) then [ReportOf(old(View()), View(), i)] else []
    {
      var registered := registrationPrevious == Registered;
      var roaming := roamingPrevious == RoamingOn;
      var service := NoService;
      var sendNotify := false;
      if i.serving.Some? {
        var s := i.serving.value;
        if registrationPrevious != s.registration {
          registrationPrevious := s.registration;
          registered := s.registration == Registered;
          sendNotify := true;
          if s.ps && s.cs {
            service := CsAndPs;
          } else if s.ps {
            service := PsOnly;
          } else if s.cs {
            service := CsOnly;
          } else {
            service := NoService;
          }
        }
      }
      if i.roaming.Some? {
        if roamingPrevious != i.roaming.value {
          roamingPrevious := i.roaming.value;
          roaming := i.roaming.value == RoamingOn;
          sendNotify := true;
        }
      }
      if sendNotify && callback {
        reports := reports + [Report(registered, roaming, service)];
      }
    }
  }

  // ---- Over a run of indications ----

  // The pairs a run goes through, the first one included.
  function Trace(before: Pair, run: seq<Indication>): (r: seq<Pair>)
    ensures |r| == |run| + 1 && r[0] == before
    decreases |run|
  {
    if run == [] then [before] else [before] + Trace(Seen(before, run[0]), run[1..])
  }

  // The same pairs without repetitions in a row.
  function Destuttered(pairs: seq<Pair>): (r: seq<Pair>)
    requires pairs != []
    ensures r != [] && r[0] == pairs[0] && |r| <= |pairs|
    ensures forall k :: 0 < k < |r| ==> r[k - 1] != r[k]
    decreases |pairs|
  {
    if |pairs| == 1 then pairs
    else if pairs[0] == pairs[1] then Destuttered(pairs[1..])
    else [pairs[0]] + Destuttered(pairs[1..])
  }

  // What a run with a callback reports.
  function Reports(before: Pair, run: seq<Indication>): seq<Report>
    decreases |run|
  {
    if run == [] then []
    else
      var now := Seen(before, run[0]);
      (if now != before then [ReportOf(before, now, run[0])] else []) + Reports(now, run[1..])
  }

  predicate Tells(r: Report, p: Pair) {
    r.registered == p.registration.Registered? && r.roaming == p.roaming.RoamingOn?
  }

  /**
   Over any run, with fields missing anywhere, there is one report for every pair of the destuttered run after the
   first, in order, and it tells that pair.
   */
  lemma {:induction false} ReportsDestutter(before: Pair, run: seq<Indication>)
    ensures var pairs, told := Destuttered(Trace(before, run)), Reports(before, run);
            && |told| == |pairs| - 1
            && forall k :: 0 <= k < |told| ==> Tells(told[k], pairs[k + 1])
    decreases |run|
  {
    if run != [] {
      var now := Seen(before, run[0]);
      ReportsDestutter(now, run[1..]);
      assert Trace(before, run)[1..] == Trace(now, run[1..]);
    }
  }

  /**
   One indication: it is reported exactly if it brings another registration or another roaming state; the service told is
   the one attached to if the registration changed, and none otherwise.
   */
  lemma ReportExactly(before: Pair, i: Indication)
    ensures var told := Reports(before, [i]);
            var moved := i.serving.Some? && i.serving.value.registration != before.registration;
            var roamed := i.roaming.Some? && i.roaming.value != before.roaming;
            if !moved && !roamed then told == []
            else
              && |told| == 1
              && told[0].registered == (if moved then i.serving.value.registration else before.registration).Registered?
              && told[0].roaming == (if roamed then i.roaming.value else before.roaming).RoamingOn?
              && (told[0].service == CsAndPs <==> moved && i.serving.value.cs && i.serving.value.ps)
              && (told[0].service == CsOnly <==> moved && i.serving.value.cs && !i.serving.value.ps)
              && (told[0].service == PsOnly <==> moved && i.serving.value.ps && !i.serving.value.cs)
              && (told[0].service == NoService <==> !moved || (!i.serving.value.cs && !i.serving.value.ps))
  {
    assert [i][1..] == [];
  }

  // Pairs of a run whose registration differs from the one before: the only ones reported with a service.
  lemma {:induction false} ServiceOnlyOnChange(before: Pair, run: seq<Indication>, k: nat)
    requires k < |Reports(before, run)| && Reports(before, run)[k].service != NoService
    ensures var pairs := Destuttered(Trace(before, run));
            k + 1 < |pairs| && pairs[k].registration != pairs[k + 1].registration
    decreases |run|
  {
    ReportsDestutter(before, run);
    var now := Seen(before, run[0]);
    assert Trace(before, run)[1..] == Trace(now, run[1..]);
    if now == before {
      ServiceOnlyOnChange(now, run[1..], k);
    } else if k > 0 {
      assert Reports(before, run)[k] == Reports(now, run[1..])[k - 1];
      ServiceOnlyOnChange(now, run[1..], k - 1);
    }
  }

  /** A whole run of the filter, one indication after the other. */
  method Replay(filter: Filter, run: seq<Indication>)
    modifies filter
    ensures filter.reports == old(filter.reports) + Reports(old(filter.View()), run)
    decreases |run|
  {
    if run == [] {
      assert filter.reports + [] == filter.reports;
      return;
    }
    filter.Indicate(run[0], true);
    Replay(filter, run[1..]);
  }
}
