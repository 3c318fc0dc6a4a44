/**
 The four profile operations as conversations with the modem: for every sequence of answers the requests that go out, by
 name and in order, what the caller is told and what the cache then knows. Nothing here mentions stages, steps or lines;
 every run of the protocol is proved to be the conversation of its operation.
 */
module ProfileConversation {
  import opened Wrappers
  import opened Profiles
  import opened ProfileProtocol
  import opened ProfileRuns
  import opened ProfileNotices
  import opened ProfileModify
  import opened ProfileListing

  // What the cache can tell an operation: after a failed collection the profiles it still holds do not count.
  datatype Knowledge = Knowledge(
    client: bool,
    defaultKnown: bool,
    default: Profile,
    listed: bool,
    profiles: seq<Profile>,
    collected: bool)

  function Known(c: Cache): Knowledge {
    Knowledge(c.clientValid, c.defaultCached, c.default, c.listing.Some?, Cached(c), c.collected)
  }

  /**
   A part of a conversation, with the requests it made: still waiting for an answer to the last one; over, with what the
   caller is told; or done, with the answers left for the next part. It is clean while nothing was refused.
   */
  datatype Turn =
    | Waits(asked: seq<Request>)
    | Over(asked: seq<Request>, told: Option<Notice>, known: Knowledge, clean: bool)
    | On(asked: seq<Request>, known: Knowledge, rest: seq<Reply>, clean: bool)

  // A part that comes after others.
  function After(asked: seq<Request>, clean: bool, t: Turn): Turn {
    match t
    case Waits(more) => Waits(asked + more)
    case Over(more, told, k, fine) => Over(asked + more, told, k, clean && fine)
    case On(more, k, rest, fine) => On(asked + more, k, rest, clean && fine)
  }

  // ---- The parts ----

  function ClientTurn(k: Knowledge, a: seq<Reply>): Turn {
    if k.client then On([], k, a, true)
    else if a == [] then Waits([AllocateClient])
    else if !a[0].ok then Over([AllocateClient], None, k, false)
    else On([AllocateClient], k.(client := true), a[1..], true)
  }

  function DefaultTurn(k: Knowledge, a: seq<Reply>): Turn {
    if k.defaultKnown then On([], k, a, true)
    else if a == [] then Waits([GetDefaultNumber])
    else if !a[0].ok || a[0].index.None? then Over([GetDefaultNumber], None, k.(default := BLANK), false)
    else After([GetDefaultNumber], true, DefaultSettingsTurn(k, BLANK.(id := a[0].index.value), a[0].index.value, a[1..]))
  }

  function DefaultSettingsTurn(k: Knowledge, named: Profile, number: int, a: seq<Reply>): Turn
    requires 0 <= number < 256
  {
    var asked := [GetDefaultSettings(number)];
    if a == [] then Waits(asked)
    else if !a[0].ok then Over(asked, None, k.(default := named), false)
    else On(asked, k.(default := WithDefaultSettings(named, a[0].settings), defaultKnown := true), a[1..], true)
  }

  function ListTurn(k: Knowledge, source: ListSource, a: seq<Reply>): Turn {
    var asked := [GetProfileList(source)];
    if a == [] then Waits(asked)
    else if !a[0].ok || a[0].entries == [] then On(asked, k.(profiles := [], collected := true), a[1..], a[0].ok)
    else After(asked + [GetEntrySettings(a[0].entries[0].index)], true, EntriesTurn(k, a[0].entries, [], a[1..]))
  }

  // One settings request for every entry, as long as they are answered; the first ones have been.
  function EntriesTurn(k: Knowledge, entries: seq<ListEntry>, answers: seq<Reply>, a: seq<Reply>): Turn
    requires |answers| < |entries|
    decreases |a|
  {
    if a == [] then Waits([])
    else if !a[0].ok then On([], k.(listed := true, profiles := [], collected := true), a[1..], false)
    else if |answers| + 1 == |entries| then
      On([], k.(listed := true, profiles := FullList(k.default, entries, answers + [a[0]]), collected := true), a[1..], true)
    else
      After([GetEntrySettings(entries[|answers| + 1].index)], true, EntriesTurn(k, entries, answers + [a[0]], a[1..]))
  }

  function ReadyFor(p: Profile): Option<Notice> {
    Some(Ready(p.name, p.pdpType))
  }

  // Making a profile the default, if it is to be; a modify that does so forgets to tell.
  function MakeDefaultTurn(k: Knowledge, p: Profile, told: Option<Notice>, a: seq<Reply>): Turn {
    if !p.isDefault then Over([], ReadyFor(p), k, true)
    else
      var asked := [SetDefault(p.kind, p.id % 256)];
      if a == [] then Waits(asked)
      else if !a[0].ok then Over(asked, None, k, false)
      else Over(asked, told, k.(default := p), true)
  }

  // The profile taken over for a match, and the list it leaves.
  function Taken(k: Knowledge, m: nat, wanted: Profile): Profile
    requires m < |k.profiles|
  {
    k.profiles[m].(isDefault := wanted.isDefault || k.profiles[m].isDefault)
  }

  function CreateTurn(k: Knowledge, wanted: Profile, a: seq<Reply>): Turn {
    match FirstCollision(Create, k.profiles, wanted)
    case Some(m) =>
      var p := Taken(k, m, wanted);
      MakeDefaultTurn(k.(profiles := k.profiles[m := p]), p, ReadyFor(p), a)
    case None =>
      var asked := [CreateProfile(wanted)];
      if a == [] then Waits(asked)
      else if !a[0].ok || a[0].index.None? then Over(asked, Some(NotReady), k, false)
      else
        var p := wanted.(id := a[0].index.value, kind := a[0].kind);
        After(asked, true, MakeDefaultTurn(k, p, ReadyFor(p), a[1..]))
  }

  function ModifyTurn(k: Knowledge, wanted: Profile, a: seq<Reply>): Turn {
    match FirstCollision(Modify, k.profiles, wanted)
    case Some(m) =>
      var p := Taken(k, m, wanted);
      Over([], ReadyFor(p), k.(profiles := k.profiles[m := p]), true)
    case None =>
      var asked := [ModifyProfile(wanted.id % 256, wanted)];
      if a == [] then Waits(asked)
      else if !a[0].ok then Over(asked, None, k, false)
      else After(asked, true, MakeDefaultTurn(k, wanted, None, a[1..]))
  }

  function DeleteTurn(k: Knowledge, wanted: Profile, a: seq<Reply>): Turn {
    var asked := [DeleteProfile(wanted.id % 256)];
    if a == [] then Waits(asked)
    else if !a[0].ok then Over(asked, None, k, false)
    else On(asked, k, a[1..], true)
  }

  // ---- The operations ----

  function Closing(t: Turn, told: Option<Notice>): Turn {
    match t
    case On(asked, k, _, clean) => Over(asked, told, k, clean)
    case _ => t
  }

  function ListConversation(k: Knowledge, a: seq<Reply>): Turn {
    match ClientTurn(k.(collected := false), a)
    case On(asked, k1, b, fine) =>
      After(asked, fine,
            match DefaultTurn(k1, b)
            case On(more, k2, d, good) => After(more, good, Closing(ListTurn(k2, ViaDml, d), None))
            case t => t)
    case t => t
  }

  function CreateConversation(k: Knowledge, wanted: Profile, a: seq<Reply>): Turn {
    match ClientTurn(k, a)
    case On(asked, k1, b, fine) =>
      After(asked, fine,
            match DefaultTurn(k1, b)
            case On(more, k2, d, good) => After(more, good, ListThenCreate(k2, wanted, d))
            case t => t)
    case t => t
  }

  function ListThenCreate(k: Knowledge, wanted: Profile, a: seq<Reply>): Turn {
    if k.listed then CreateTurn(k, wanted, a)
    else
      match ListTurn(k, ViaCreate, a)
      case On(asked, k1, b, fine) => After(asked, fine, CreateTurn(k1, wanted, b))
      case t => t
  }

  function DeleteConversation(k: Knowledge, wanted: Profile, a: seq<Reply>): Turn {
    match ClientTurn(k, a)
    case On(asked, k1, b, fine) =>
      After(asked, fine,
            match DeleteTurn(k1, wanted, b)
            case On(more, k2, d, good) =>
              After(more, good, Closing(ListTurn(k2, ViaDelete, d), Some(Deleted(wanted.name, wanted.pdpType))))
            case t => t)
    case t => t
  }

  function ModifyConversation(k: Knowledge, wanted: Profile, a: seq<Reply>): Turn {
    match ClientTurn(k, a)
    case On(asked, k1, b, fine) => After(asked, fine, ModifyTurn(k1, wanted, b))
    case t => t
  }

  function Conversation(k: Knowledge, t: Task, a: seq<Reply>): Turn {
    match t.op
    case List => ListConversation(k, a)
    case Create => CreateConversation(k, t.input, a)
    case Delete => DeleteConversation(k, t.input, a)
    case Modify => ModifyConversation(k, t.input, a)
  }

  // ---- What a log says ----

  function Requests(log: seq<Action>): seq<Request> {
    if log == [] then []
    else Requests(log[..|log| - 1]) + match log[|log| - 1] case Ask(q) => [q] case _ => []
  }

  lemma RequestsSnoc(log: seq<Action>, a: Action)
    ensures Requests(log + [a]) == Requests(log) + match a case Ask(q) => [q] case _ => []
  {
    assert (log + [a])[..|log|] == log;
  }

  // The same said and asked, and more.
  ghost predicate Adds(before: seq<Action>, asked: seq<Request>, told: seq<Notice>, after: seq<Action>) {
    && before <= after
    && Requests(after) == Requests(before) + asked
    && Notices(after) == Notices(before) + told
  }

  lemma AddsNothing(log: seq<Action>)
    ensures Adds(log, [], [], log)
  {
  }

  lemma AddsOn(a: seq<Action>, x: seq<Request>, m: seq<Notice>, b: seq<Action>, y: seq<Request>, n: seq<Notice>, c: seq<Action>)
    requires Adds(a, x, m, b) && Adds(b, y, n, c)
    ensures Adds(a, x + y, m + n, c)
  {
    assert Requests(a) + (x + y) == (Requests(a) + x) + y;
    assert Notices(a) + (m + n) == (Notices(a) + m) + n;
  }

  lemma AddsAction(log: seq<Action>, a: Action)
    ensures Adds(log, match a case Ask(q) => [q] case _ => [], match a case Notify(n) => [n] case _ => [], log + [a])
  {
    RequestsSnoc(log, a);
    CountSnoc(log, a);
  }

  // An ask and its answer.
  lemma AddsExchange(log: seq<Action>, q: Request, r: Reply)
    ensures Adds(log, [q], [], log + [Ask(q)] + [Answer(r)])
  {
    AddsAction(log, Ask(q));
    AddsAction(log + [Ask(q)], Answer(r));
    AddsOn(log, [q], [], log + [Ask(q)], [], [], log + [Ask(q)] + [Answer(r)]);
  }

  lemma RefusalShows(log: seq<Action>, q: Request, r: Reply, whole: seq<Action>)
    requires log + [Ask(q)] + [Answer(r)] <= whole && !Succeeded(q, r)
    ensures !AllSucceeded(whole)
  {
    assert whole[|log|] == Ask(q) && whole[|log| + 1] == Answer(r);
  }

  lemma RefusalStays(log: seq<Action>, whole: seq<Action>)
    requires log <= whole && !AllSucceeded(log)
    ensures !AllSucceeded(whole)
  {
    var i :| 0 <= i < |log| - 1 && log[i].Ask? && log[i + 1].Answer? && !Succeeded(log[i].request, log[i + 1].reply);
    assert whole[i] == log[i] && whole[i + 1] == log[i + 1];
  }

  // ---- A part of a run is a part of the conversation ----

  function ToldTo(callback: bool, told: Option<Notice>): seq<Notice> {
    if callback && told.Some? then [told.value] else []
  }

  /**
   From u on, the run that comes to end does what the part says; when the part is done the run goes on as the line does
   from v at the stage.
   */
  ghost predicate Leads(u: State, turn: Turn, v: State, stage: nat, end: State) {
    match turn
    case Waits(asked) =>
      !end.phase.Ended? && Adds(u.log, asked, [], end.log)
    case Over(asked, told, k, clean) =>
      && end.phase.Ended? && Adds(u.log, asked, ToldTo(u.task.callback, told), end.log)
      && Known(end.cache) == k && (!clean ==> !AllSucceeded(end.log))
    case On(asked, k, rest, clean) =>
      && Adds(u.log, asked, [], v.log) && v.task == u.task
      && Known(v.cache) == k && (!clean ==> !AllSucceeded(v.log))
      && stage <= |Plan(v.task.op)|
      && end == Run(Proceed(v, stage), rest, false)
  }

  lemma ProceedGrows(v: State, stage: nat, rest: seq<Reply>)
    requires stage <= |Plan(v.task.op)|
    ensures v.log <= Run(Proceed(v, stage), rest, false).log
  {
    ProceedShape(v, stage);
    RunGrows(Proceed(v, stage), rest, false);
  }

  // One part after the other.
  lemma LeadsAfter(u: State, asked: seq<Request>, clean: bool, v: State, turn: Turn, w: State, stage: nat, end: State)
    requires Adds(u.log, asked, [], v.log) && v.task.callback == u.task.callback
    requires turn.On? ==> v.task == u.task
    requires !clean ==> !AllSucceeded(v.log)
    requires Leads(v, turn, w, stage, end)
    ensures Leads(u, After(asked, clean, turn), w, stage, end)
  {
    match turn
    case Waits(more) =>
      AddsOn(u.log, asked, [], v.log, more, [], end.log);
    case Over(more, told, k, fine) =>
      AddsOn(u.log, asked, [], v.log, more, ToldTo(u.task.callback, told), end.log);
      if !clean { RefusalStays(v.log, end.log); }
    case On(more, k, rest, fine) =>
      AddsOn(u.log, asked, [], v.log, more, [], w.log);
      if !clean { RefusalStays(v.log, w.log); }
  }

  // ---- One request ----

  // The run of a task whose request has just gone out.
  function Awaiting(u: State, stage: nat, q: Request, a: seq<Reply>): State
    requires stage < |Plan(u.task.op)|
  {
    Run(Asking(u, stage, q), a, false)
  }

  // The task as it comes back with the first of the answers.
  function Back(u: State, stage: nat, q: Request, a: seq<Reply>): State
    requires a != []
  {
    Reclaimed(Asking(u, stage, q), a[0])
  }

  lemma AwaitingStep(u: State, stage: nat, q: Request, a: seq<Reply>)
    requires stage < |Plan(u.task.op)| && a != []
    ensures Awaiting(u, stage, q, a) == Run(Deliver(Asking(u, stage, q), a[0], false), a[1..], false)
  {
  }

  lemma WaitsLead(u: State, stage: nat, q: Request)
    requires stage < |Plan(u.task.op)|
    ensures Leads(u, Waits([q]), u, 0, Awaiting(u, stage, q, []))
  {
    AddsAction(u.log, Ask(q));
  }

  lemma AwaitingStops(u: State, stage: nat, q: Request, a: seq<Reply>, t: State)
    requires stage < |Plan(u.task.op)| && a != [] && VerdictOn(Asking(u, stage, q), a[0]) == Stop(t)
    ensures Awaiting(u, stage, q, a) == Ending(t)
  {
    AwaitingStep(u, stage, q, a);
  }

  // A request refused, what its callback says, and the end.
  lemma RefusalLeads(u: State, q: Request, r: Reply, t: State, told: Option<Notice>)
    requires !Succeeded(q, r) && Adds(u.log + [Ask(q)] + [Answer(r)], [], ToldTo(u.task.callback, told), t.log)
    ensures Leads(u, Over([q], told, Known(t.cache), false), u, 0, Ending(t))
  {
    AddsExchange(u.log, q, r);
    AddsAction(t.log, Release);
    AddsOn(u.log, [q], [], u.log + [Ask(q)] + [Answer(r)], [], ToldTo(u.task.callback, told), t.log);
    AddsOn(u.log, [q], ToldTo(u.task.callback, told), t.log, [], [], t.log + [Release]);
    RefusalShows(u.log, q, r, t.log + [Release]);
  }

  // A refused request ends the run; t is the task as it is given up.
  lemma RefusedLeads(u: State, stage: nat, q: Request, a: seq<Reply>, t: State, told: Option<Notice>)
    requires stage < |Plan(u.task.op)| && a != [] && !Succeeded(q, a[0])
    requires VerdictOn(Asking(u, stage, q), a[0]) == Stop(t)
    requires Adds(Back(u, stage, q, a).log, [], ToldTo(u.task.callback, told), t.log)
    ensures Leads(u, Over([q], told, Known(t.cache), false), u, 0, Awaiting(u, stage, q, a))
  {
    AwaitingStops(u, stage, q, a, t);
    RefusalLeads(u, q, a[0], t, told);
  }

  // A request that was answered as wished, or whose refusal does not matter, is followed by the next stage.
  lemma GrantedLeads(u: State, stage: nat, q: Request, a: seq<Reply>, v: State)
    requires stage < |Plan(u.task.op)| && a != [] && (u.task.op == Modify ==> stage + 1 != MODIFY_ATTACH)
    requires VerdictOn(Asking(u, stage, q), a[0]) == MoveOn(v)
    requires v.task == u.task && v.log == Back(u, stage, q, a).log
    ensures Leads(u, On([q], Known(v.cache), a[1..], Succeeded(q, a[0])), v, stage + 1, Awaiting(u, stage, q, a))
  {
    AwaitingStep(u, stage, q, a);
    AddsExchange(u.log, q, a[0]);
    if !Succeeded(q, a[0]) { RefusalShows(u.log, q, a[0], v.log); }
  }

  lemma AwaitingMoves(u: State, stage: nat, q: Request, a: seq<Reply>, v: State)
    requires stage < |Plan(u.task.op)| && a != []
    requires VerdictOn(Asking(u, stage, q), a[0]) == MoveOn(v) && v.task.op == u.task.op
    ensures Awaiting(u, stage, q, a) == Run(Resume(v, stage + 1, false), a[1..], false)
  {
    AwaitingStep(u, stage, q, a);
  }

  lemma RunEnded(t: State, a: seq<Reply>)
    requires t.phase.Ended?
    ensures Run(t, a, false) == t
  {
  }

  // A request, its answer and the end.
  lemma EndsLead(u: State, q: Request, r: Reply, v: State, told: Option<Notice>, end: State)
    requires v.log == u.log + [Ask(q)] + [Answer(r)] && end.phase.Ended? && end.cache == v.cache
    requires Adds(v.log, [], ToldTo(u.task.callback, told), end.log)
    ensures Leads(u, Over([q], told, Known(v.cache), true), u, 0, end)
  {
    AddsExchange(u.log, q, r);
    AddsOn(u.log, [q], [], v.log, [], ToldTo(u.task.callback, told), end.log);
  }

  // ---- The parts, one by one ----

  lemma ClientLeads(u: State, a: seq<Reply>) returns (v: State)
    ensures Leads(u, ClientTurn(Known(u.cache), a), v, 1, Run(Proceed(u, 0), a, false))
  {
    v := u;
    assert Plan(u.task.op)[0] == Allocate;
    if u.cache.clientValid {
      AddsNothing(u.log);
      assert Proceed(u, 0) == Proceed(u, 1);
    } else {
      assert Proceed(u, 0) == Asking(u, 0, AllocateClient);
      if a == [] {
        WaitsLead(u, 0, AllocateClient);
      } else {
        var t := Back(u, 0, AllocateClient, a);
        AddsNothing(t.log);
        if !a[0].ok {
          RefusedLeads(u, 0, AllocateClient, a, t, None);
        } else {
          v := t.(cache := t.cache.(clientValid := true));
          GrantedLeads(u, 0, AllocateClient, a, v);
        }
      }
    }
  }

  lemma DefaultGrantedLeads(u: State, number: nat, a: seq<Reply>) returns (v: State)
    requires number < 256 && (u.task.op == Create || u.task.op == List) && a != [] && a[0].ok
    ensures Leads(u, DefaultSettingsTurn(Known(u.cache), u.cache.default, number, a), v, 2,
                  Awaiting(u, 1, GetDefaultSettings(number), a))
  {
    var t := Back(u, 1, GetDefaultSettings(number), a);
    v := t.(cache := t.cache.(default := WithDefaultSettings(t.cache.default, a[0].settings), defaultCached := true));
    GrantedLeads(u, 1, GetDefaultSettings(number), a, v);
  }

  lemma DefaultSettingsLeads(u: State, number: nat, a: seq<Reply>) returns (v: State)
    requires number < 256 && (u.task.op == Create || u.task.op == List) && !u.cache.defaultCached
    ensures Leads(u, DefaultSettingsTurn(Known(u.cache), u.cache.default, number, a), v, 2,
                  Awaiting(u, 1, GetDefaultSettings(number), a))
  {
    v := u;
    var q := GetDefaultSettings(number);
    if a == [] {
      WaitsLead(u, 1, q);
    } else {
      var t := Back(u, 1, q, a);
      AddsNothing(t.log);
      if !a[0].ok {
        RefusedLeads(u, 1, q, a, t, None);
      } else {
        v := DefaultGrantedLeads(u, number, a);
      }
    }
  }

  // The task when the number of the default has come.
  function Named(u: State, a: seq<Reply>): State
    requires a != [] && a[0].index.Some?
  {
    var t := Back(u, 1, GetDefaultNumber, a);
    t.(cache := t.cache.(default := BLANK.(id := a[0].index.value), defaultCached := false))
  }

  lemma NamedNext(u: State, a: seq<Reply>)
    requires 1 < |Plan(u.task.op)| && a != [] && a[0].ok && a[0].index.Some?
    ensures Awaiting(u, 1, GetDefaultNumber, a)
         == Awaiting(Named(u, a), 1, GetDefaultSettings(a[0].index.value), a[1..])
  {
    AwaitingStep(u, 1, GetDefaultNumber, a);
  }

  lemma NamedSettings(u: State, a: seq<Reply>)
    requires a != [] && a[0].index.Some? && !u.cache.defaultCached
    ensures var number, named := a[0].index.value, Named(u, a);
            DefaultSettingsTurn(Known(u.cache), BLANK.(id := number), number, a[1..])
            == DefaultSettingsTurn(Known(named.cache), named.cache.default, number, a[1..])
  {
  }

  // Its settings come next.
  lemma DefaultNamedLeads(u: State, a: seq<Reply>) returns (v: State)
    requires (u.task.op == Create || u.task.op == List) && !u.cache.defaultCached
    requires a != [] && a[0].ok && a[0].index.Some?
    ensures Leads(u, DefaultTurn(Known(u.cache), a), v, 2, Awaiting(u, 1, GetDefaultNumber, a))
  {
    var number, named, k := a[0].index.value, Named(u, a), Known(u.cache);
    NamedNext(u, a);
    v := DefaultSettingsLeads(named, number, a[1..]);
    AddsExchange(u.log, GetDefaultNumber, a[0]);
    var turn := DefaultSettingsTurn(k, BLANK.(id := number), number, a[1..]);
    NamedSettings(u, a);
    LeadsAfter(u, [GetDefaultNumber], true, named, turn, v, 2, Awaiting(u, 1, GetDefaultNumber, a));
  }

  lemma DefaultRefusedLeads(u: State, a: seq<Reply>)
    requires (u.task.op == Create || u.task.op == List) && !u.cache.defaultCached
    requires a != [] && (!a[0].ok || a[0].index.None?)
    ensures Leads(u, DefaultTurn(Known(u.cache), a), u, 0, Awaiting(u, 1, GetDefaultNumber, a))
  {
    var t := Back(u, 1, GetDefaultNumber, a);
    AddsNothing(t.log);
    RefusedLeads(u, 1, GetDefaultNumber, a, t.(cache := t.cache.(default := BLANK, defaultCached := false)), None);
  }

  lemma DefaultAskedLeads(u: State, a: seq<Reply>) returns (v: State)
    requires (u.task.op == Create || u.task.op == List) && !u.cache.defaultCached
    ensures Leads(u, DefaultTurn(Known(u.cache), a), v, 2, Awaiting(u, 1, GetDefaultNumber, a))
  {
    v := u;
    if a == [] {
      WaitsLead(u, 1, GetDefaultNumber);
    } else if !a[0].ok || a[0].index.None? {
      DefaultRefusedLeads(u, a);
    } else {
      v := DefaultNamedLeads(u, a);
    }
  }

  lemma DefaultLeads(u: State, a: seq<Reply>) returns (v: State)
    requires u.task.op == Create || u.task.op == List
    ensures Leads(u, DefaultTurn(Known(u.cache), a), v, 2, Run(Proceed(u, 1), a, false))
  {
    v := u;
    assert Plan(u.task.op)[1] == ReadDefault;
    if u.cache.defaultCached {
      AddsNothing(u.log);
      assert Proceed(u, 1) == Proceed(u, 2);
    } else {
      assert Proceed(u, 1) == Asking(u, 1, GetDefaultNumber);
      v := DefaultAskedLeads(u, a);
    }
  }

  // What an entry walk leaves alone.
  predicate Alongside(k: Knowledge, c: Cache) {
    k.client == c.clientValid && k.defaultKnown == c.defaultCached && k.default == c.default
  }

  // The request in flight is the last thing logged.
  predicate Poised(s: State, entries: seq<ListEntry>, cursor: nat) {
    cursor < |entries| && s.log != [] && s.log[|s.log| - 1] == Ask(GetEntrySettings(entries[cursor].index))
  }

  lemma {:induction false} EntriesLead(s: State, k: Knowledge, entries: seq<ListEntry>, answers: seq<Reply>, a: seq<Reply>)
      returns (v: State)
    requires WellPlaced(s) && CollectTrack(s, k.default, entries, answers) && AllOk(answers) && Alongside(k, s.cache)
    requires Poised(s, entries, |answers|)
    ensures |Plan(s.task.op)| >= 3 && Leads(s, EntriesTurn(k, entries, answers, a), v, 3, Run(s, a, false))
    decreases |a|, 1
  {
    v := s;
    AddsNothing(s.log);
    if a != [] {
      var r := a[0];
      RunOn(s, a);
      AddsAction(s.log, Answer(r));
      if !r.ok {
        WalkFails(s, k.default, entries, answers, a);
        v := WithoutList(Reclaimed(s, r));
        RefusalShows(s.log[..|s.log| - 1], GetEntrySettings(entries[|answers|].index), r, v.log);
      } else if |answers| + 1 == |entries| {
        WalkCompletes(s, k.default, entries, answers, r);
        var full := FullList(k.default, entries, answers + [r]);
        v := Reclaimed(s, r).(cache := s.cache.(listing := Some(full), collected := true));
        assert full[..|entries|] == full;
      } else {
        v := EntriesGoOn(s, k, entries, answers, a);
      }
    }
  }

  lemma EntriesGoOn(s: State, k: Knowledge, entries: seq<ListEntry>, answers: seq<Reply>, a: seq<Reply>)
      returns (v: State)
    requires WellPlaced(s) && CollectTrack(s, k.default, entries, answers) && AllOk(answers) && Alongside(k, s.cache)
    requires Poised(s, entries, |answers|)
    requires a != [] && a[0].ok && |answers| + 1 < |entries|
    ensures |Plan(s.task.op)| >= 3 && Leads(s, EntriesTurn(k, entries, answers, a), v, 3, Run(s, a, false))
    decreases |a|, 0
  {
    var r := a[0];
    var s' := Deliver(s, r, false);
    RunOn(s, a);
    WalksOn(s, k.default, entries, answers, r);
    var q := GetEntrySettings(entries[|answers| + 1].index);
    assert s'.log == s.log + [Answer(r)] + [Ask(q)];
    v := EntriesLead(s', k, entries, answers + [r], a[1..]);
    AddsAction(s.log, Answer(r));
    AddsAction(s.log + [Answer(r)], Ask(q));
    AddsOn(s.log, [], [], s.log + [Answer(r)], [q], [], s'.log);
    LeadsAfter(s, [q], true, s', EntriesTurn(k, entries, answers + [r], a[1..]), v, 3, Run(s, a, false));
  }

  lemma ListGoesOn(u: State, source: ListSource, a: seq<Reply>) returns (v: State)
    requires 3 <= |Plan(u.task.op)| && a != [] && a[0].ok && a[0].entries != []
    ensures Leads(u, ListTurn(Known(u.cache), source, a), v, 3, Awaiting(u, 2, GetProfileList(source), a))
  {
    var q := GetProfileList(source);
    var r, entries := a[0], a[0].entries;
    var s' := Deliver(Asking(u, 2, q), r, false);
    var first := GetEntrySettings(entries[0].index);
    AwaitingStep(u, 2, q, a);
    AddsExchange(u.log, q, r);
    AddsAction(u.log + [Ask(q)] + [Answer(r)], Ask(first));
    assert s'.log == u.log + [Ask(q)] + [Answer(r)] + [Ask(first)];
    AddsOn(u.log, [q], [], u.log + [Ask(q)] + [Answer(r)], [first], [], s'.log);
    var k := Known(u.cache);
    v := EntriesLead(s', k, entries, [], a[1..]);
    LeadsAfter(u, [q] + [first], true, s', EntriesTurn(k, entries, [], a[1..]), v, 3, Awaiting(u, 2, q, a));
  }

  lemma ListLeads(u: State, source: ListSource, a: seq<Reply>) returns (v: State)
    requires u.task.op == Create || u.task.op == Delete || u.task.op == List
    requires u.task.op == Create ==> u.cache.listing.None?
    requires source == match u.task.op case Create => ViaCreate case Delete => ViaDelete case _ => ViaDml
    ensures Leads(u, ListTurn(Known(u.cache), source, a), v, 3, Run(Proceed(u, 2), a, false))
  {
    v := u;
    assert Plan(u.task.op)[2] == Collect;
    var q := GetProfileList(source);
    assert Proceed(u, 2) == Asking(u, 2, q);
    if a == [] {
      WaitsLead(u, 2, q);
    } else if !a[0].ok || a[0].entries == [] {
      v := WithoutList(Back(u, 2, q, a));
      GrantedLeads(u, 2, q, a, v);
    } else {
      v := ListGoesOn(u, source, a);
    }
  }

  // ---- The ends of the operations ----

  // The last word, and the release.
  function LastWord(t: State): Option<Notice> {
    if t.task.op == Delete then Some(Deleted(t.task.input.name, t.task.input.pdpType)) else ReadyFor(t.task.input)
  }

  lemma ToldRun(t: State)
    ensures Adds(t.log, [], ToldTo(t.task.callback, LastWord(t)), Ending(Told(t)).log)
    ensures Ending(Told(t)).phase.Ended? && Ending(Told(t)).cache == t.cache
  {
    if t.task.callback {
      var n := LastWord(t).value;
      AddsAction(t.log, Notify(n));
      AddsAction(t.log + [Notify(n)], Release);
      AddsOn(t.log, [], [n], t.log + [Notify(n)], [], [], t.log + [Notify(n)] + [Release]);
    } else {
      AddsAction(t.log, Release);
    }
  }

  // A run that only has to tell and end.
  lemma TellsLead(u: State, t: State, end: State)
    requires end == Ending(Told(t)) && t.log == u.log && t.task.callback == u.task.callback
    ensures Leads(u, Over([], LastWord(t), Known(t.cache), true), u, 0, end)
  {
    ToldRun(t);
  }

  lemma CreateDefaultSet(u: State, a: seq<Reply>)
    requires u.task.op == Create && a != [] && a[0].ok
    ensures var p := u.task.input;
            var q := SetDefault(p.kind, AsByte(p.id));
            Leads(u, Over([q], ReadyFor(p), Known(u.cache).(default := p), true), u, 0, Awaiting(u, 5, q, a))
  {
    var p := u.task.input;
    var q := SetDefault(p.kind, AsByte(p.id));
    var t := Back(u, 5, q, a);
    var v := t.(cache := t.cache.(default := p));
    AwaitingMoves(u, 5, q, a, v);
    CreateEnds(v);
    ToldRun(v);
    RunEnded(Ending(Told(v)), a[1..]);
    EndsLead(u, q, a[0], v, ReadyFor(p), Ending(Told(v)));
  }

  // The set-default request of a create run.
  lemma CreateDefaultAsked(u: State, a: seq<Reply>)
    requires u.task.op == Create && u.task.input.isDefault
    ensures var p := u.task.input;
            Leads(u, MakeDefaultTurn(Known(u.cache), p, ReadyFor(p), a), u, 0,
                  Awaiting(u, 5, SetDefault(p.kind, AsByte(p.id)), a))
  {
    var p := u.task.input;
    var q := SetDefault(p.kind, AsByte(p.id));
    if a == [] {
      WaitsLead(u, 5, q);
    } else {
      var t := Back(u, 5, q, a);
      AddsNothing(t.log);
      if !a[0].ok {
        RefusedLeads(u, 5, q, a, t, None);
      } else {
        CreateDefaultSet(u, a);
      }
    }
  }

  // Making the profile of a create run the default, or not.
  lemma CreateDefaultLeads(u: State, a: seq<Reply>)
    requires u.task.op == Create
    ensures Leads(u, MakeDefaultTurn(Known(u.cache), u.task.input, ReadyFor(u.task.input), a), u, 0,
                  Run(Proceed(u, 5), a, false))
  {
    if u.task.input.isDefault {
      CreateFromAnswer(u);
      CreateDefaultAsked(u, a);
    } else {
      assert Plan(Create)[5] == MakeDefault;
      assert Proceed(u, 5) == Proceed(u, 6);
      CreateEnds(u);
      RunEnded(Proceed(u, 6), a);
      TellsLead(u, u, Proceed(u, 6));
    }
  }

  lemma CreateAsks(u: State, a: seq<Reply>)
    requires u.task.op == Create && FirstCollision(Create, Cached(u.cache), u.task.input).None?
    ensures Leads(u, CreateTurn(Known(u.cache), u.task.input, a), u, 0,
                  Awaiting(u, 4, CreateProfile(u.task.input), a))
  {
    var q := CreateProfile(u.task.input);
    if a == [] {
      WaitsLead(u, 4, q);
    } else if !a[0].ok || a[0].index.None? {
      var t := Back(u, 4, q, a);
      AddsNothing(t.log);
      AddsAction(t.log, Notify(NotReady));
      RefusedLeads(u, 4, q, a, if u.task.callback then t.(log := t.log + [Notify(NotReady)]) else t, Some(NotReady));
    } else {
      CreateGranted(u, a);
    }
  }

  lemma CreateGranted(u: State, a: seq<Reply>)
    requires u.task.op == Create && FirstCollision(Create, Cached(u.cache), u.task.input).None?
    requires a != [] && a[0].ok && a[0].index.Some?
    ensures Leads(u, CreateTurn(Known(u.cache), u.task.input, a), u, 0,
                  Awaiting(u, 4, CreateProfile(u.task.input), a))
  {
    var q, t := CreateProfile(u.task.input), Back(u, 4, CreateProfile(u.task.input), a);
    var v := t.(task := t.task.(input := t.task.input.(id := a[0].index.value, kind := a[0].kind)));
    AwaitingStep(u, 4, q, a);
    assert Deliver(Asking(u, 4, q), a[0], false) == Proceed(v, 5);
    AddsExchange(u.log, q, a[0]);
    CreateDefaultLeads(v, a[1..]);
    LeadsAfter(u, [q], true, v, MakeDefaultTurn(Known(v.cache), v.task.input, ReadyFor(v.task.input), a[1..]), v, 0,
               Awaiting(u, 4, q, a));
    assert Leads(u, CreateTurn(Known(u.cache), u.task.input, a), v, 0, Awaiting(u, 4, q, a));
  }

  lemma CreateLeads(u: State, a: seq<Reply>)
    requires u.task.op == Create && !u.task.present
    ensures Leads(u, CreateTurn(Known(u.cache), u.task.input, a), u, 0, Run(Proceed(u, 3), a, false))
  {
    CreateFromCheck(u);
    var k := Known(u.cache);
    match FirstCollision(Create, k.profiles, u.task.input)
    case Some(m) => CreateTakes(u, m, a);
    case None => CreateAsks(u, a);
  }

  lemma CreateTakes(u: State, m: nat, a: seq<Reply>)
    requires u.task.op == Create && !u.task.present
    requires FirstCollision(Create, Cached(u.cache), u.task.input) == Some(m)
    ensures Leads(u, CreateTurn(Known(u.cache), u.task.input, a), u, 0, Run(Proceed(u, 3), a, false))
  {
    var k, v := Known(u.cache), Checked(u);
    CheckedKeepsMatch(u, m);
    assert Plan(Create)[3] == Verify && Plan(Create)[4] == Add;
    assert Proceed(u, 3) == Proceed(v, 4) == Proceed(v, 5);
    CreateDefaultLeads(v, a);
    assert Known(v.cache) == k.(profiles := k.profiles[m := Taken(k, m, u.task.input)]);
    assert v.log == u.log && v.task.callback == u.task.callback;
  }

  // After a modify: set-default ends the run without a word.
  lemma ModifyDefaultSet(u: State, a: seq<Reply>)
    requires u.task.op == Modify && a != [] && a[0].ok
    ensures var p := u.task.input;
            var q := SetDefault(p.kind, AsByte(p.id));
            Leads(u, Over([q], None, Known(u.cache).(default := p), true), u, 0, Awaiting(u, 3, q, a))
  {
    var p := u.task.input;
    var q := SetDefault(p.kind, AsByte(p.id));
    var t := Back(u, 3, q, a);
    var v := t.(cache := t.cache.(default := p));
    AwaitingMoves(u, 3, q, a, v);
    AddsAction(v.log, Release);
    RunEnded(Ending(v), a[1..]);
    EndsLead(u, q, a[0], v, None, Ending(v));
  }

  lemma ModifyDefaultAsked(u: State, a: seq<Reply>)
    requires u.task.op == Modify && u.task.input.isDefault
    ensures var p := u.task.input;
            Leads(u, MakeDefaultTurn(Known(u.cache), p, None, a), u, 0, Awaiting(u, 3, SetDefault(p.kind, AsByte(p.id)), a))
  {
    var p := u.task.input;
    var q := SetDefault(p.kind, AsByte(p.id));
    if a == [] {
      WaitsLead(u, 3, q);
    } else {
      var t := Back(u, 3, q, a);
      AddsNothing(t.log);
      if !a[0].ok {
        RefusedLeads(u, 3, q, a, t, None);
      } else {
        ModifyDefaultSet(u, a);
      }
    }
  }

  lemma ModifyDefaultLeads(u: State, a: seq<Reply>)
    requires u.task.op == Modify && !u.task.present
    ensures Leads(u, MakeDefaultTurn(Known(u.cache), u.task.input, None, a), u, 0, Run(Proceed(u, 3), a, false))
  {
    ModifyFromDefault(u);
    if u.task.input.isDefault {
      ModifyDefaultAsked(u, a);
    } else {
      assert Plan(Modify)[3] == MakeDefault;
      assert Proceed(u, 3) == Proceed(u, MODIFY_ATTACH);
      RunEnded(Proceed(u, 3), a);
      TellsLead(u, u, Proceed(u, 3));
    }
  }

  lemma ModifyAsks(u: State, a: seq<Reply>)
    requires u.task.op == Modify && !u.task.present && FirstCollision(Modify, Cached(u.cache), u.task.input).None?
    ensures Leads(u, ModifyTurn(Known(u.cache), u.task.input, a), u, 0,
                  Awaiting(u, 2, ModifyProfile(AsByte(u.task.input.id), u.task.input), a))
  {
    var q := ModifyProfile(AsByte(u.task.input.id), u.task.input);
    if a == [] {
      WaitsLead(u, 2, q);
    } else {
      var t := Back(u, 2, q, a);
      AddsNothing(t.log);
      if !a[0].ok {
        RefusedLeads(u, 2, q, a, t, None);
      } else {
        AwaitingStep(u, 2, q, a);
        assert Deliver(Asking(u, 2, q), a[0], false) == Proceed(t, 3);
        AddsExchange(u.log, q, a[0]);
        ModifyDefaultLeads(t, a[1..]);
        LeadsAfter(u, [q], true, t, MakeDefaultTurn(Known(t.cache), t.task.input, None, a[1..]), t, 0,
                   Awaiting(u, 2, q, a));
      }
    }
  }

  lemma ModifyLeads(u: State, a: seq<Reply>)
    requires u.task.op == Modify && !u.task.present
    ensures Leads(u, ModifyTurn(Known(u.cache), u.task.input, a), u, 0, Run(Proceed(u, 1), a, false))
  {
    ModifyFromCheck(u);
    var k := Known(u.cache);
    match FirstCollision(Modify, k.profiles, u.task.input)
    case Some(m) =>
      var v := Checked(u);
      RunEnded(Ending(Told(v)), a);
      TellsLead(u, v, Ending(Told(v)));
      assert Known(v.cache) == k.(profiles := k.profiles[m := Taken(k, m, u.task.input)]);
    case None =>
      ModifyAsks(u, a);
  }

  lemma DeleteLeads(u: State, a: seq<Reply>) returns (v: State)
    requires u.task.op == Delete
    ensures Leads(u, DeleteTurn(Known(u.cache), u.task.input, a), v, 2, Run(Proceed(u, 1), a, false))
  {
    v := u;
    assert Plan(Delete)[1] == Remove;
    var q := DeleteProfile(AsByte(u.task.input.id));
    assert Proceed(u, 1) == Asking(u, 1, q);
    if a == [] {
      WaitsLead(u, 1, q);
    } else {
      var t := Back(u, 1, q, a);
      AddsNothing(t.log);
      if !a[0].ok {
        RefusedLeads(u, 1, q, a, t, None);
      } else {
        v := t;
        GrantedLeads(u, 1, q, a, v);
      }
    }
  }

  // ---- Whole runs ----

  lemma ListClosesRun(v: State)
    requires v.task.op == List
    ensures Proceed(v, 3) == Ending(v) && Adds(v.log, [], [], Ending(v).log)
  {
    AddsAction(v.log, Release);
  }

  lemma DeleteClosesRun(v: State)
    requires v.task.op == Delete
    ensures Proceed(v, 3) == Ending(Told(v))
    ensures Adds(v.log, [], ToldTo(v.task.callback, LastWord(v)), Ending(Told(v)).log) && Told(v).cache == v.cache
  {
    assert Plan(Delete)[3] == Tell;
    assert Proceed(v, 3) == Proceed(Told(v), 4);
    ToldRun(v);
  }

  lemma ClosesWith(u: State, turn: Turn, v: State, told: Option<Notice>, end: State)
    requires turn.On? && Leads(u, turn, v, 3, end) && end.phase.Ended? && end.cache == v.cache
    requires Adds(v.log, [], ToldTo(u.task.callback, told), end.log)
    ensures Leads(u, Closing(turn, told), v, 0, end)
  {
    AddsOn(u.log, turn.asked, [], v.log, [], ToldTo(u.task.callback, told), end.log);
    if !turn.clean { RefusalStays(v.log, end.log); }
  }

  // A list or a delete only has to say its last word.
  lemma ClosesAfterList(u: State, turn: Turn, v: State, end: State)
    requires (u.task.op == List || u.task.op == Delete) && Leads(u, turn, v, 3, end)
    ensures Leads(u, Closing(turn, if u.task.op == Delete then LastWord(u) else None), v, 0, end)
  {
    if turn.On? {
      if u.task.op == Delete { DeleteClosesRun(v); } else { ListClosesRun(v); }
      RunEnded(Proceed(v, 3), turn.rest);
      ClosesWith(u, turn, v, if u.task.op == Delete then LastWord(u) else None, end);
    }
  }

  lemma ListConverses(u: State, a: seq<Reply>) returns (v: State)
    requires u.task.op == List && !u.cache.collected
    ensures Leads(u, ListConversation(Known(u.cache), a), v, 0, Run(Proceed(u, 0), a, false))
    ensures !ListConversation(Known(u.cache), a).On?
  {
    var k, end := Known(u.cache), Run(Proceed(u, 0), a, false);
    assert k.(collected := false) == k;
    var first := ClientTurn(k, a);
    v := ClientLeads(u, a);
    if first.On? {
      var w := ListAfterClient(v, first.rest);
      LeadsAfter(u, first.asked, first.clean, v, ListTail(first.known, first.rest), w, 0, end);
      v := w;
    }
  }

  function ListTail(k: Knowledge, b: seq<Reply>): Turn {
    match DefaultTurn(k, b)
    case On(more, k2, d, good) => After(more, good, Closing(ListTurn(k2, ViaDml, d), None))
    case t => t
  }

  lemma ListAfterClient(u: State, b: seq<Reply>) returns (v: State)
    requires u.task.op == List
    ensures Leads(u, ListTail(Known(u.cache), b), v, 0, Run(Proceed(u, 1), b, false))
    ensures !ListTail(Known(u.cache), b).On?
  {
    var end := Run(Proceed(u, 1), b, false);
    var next := DefaultTurn(Known(u.cache), b);
    v := DefaultLeads(u, b);
    if next.On? {
      var w := ListLeads(v, ViaDml, next.rest);
      ClosesAfterList(v, ListTurn(next.known, ViaDml, next.rest), w, end);
      LeadsAfter(u, next.asked, next.clean, v, Closing(ListTurn(next.known, ViaDml, next.rest), None), w, 0, end);
      v := w;
    }
  }

  lemma DeleteConverses(u: State, a: seq<Reply>) returns (v: State)
    requires u.task.op == Delete
    ensures Leads(u, DeleteConversation(Known(u.cache), u.task.input, a), v, 0, Run(Proceed(u, 0), a, false))
    ensures !DeleteConversation(Known(u.cache), u.task.input, a).On?
  {
    var end := Run(Proceed(u, 0), a, false);
    var first := ClientTurn(Known(u.cache), a);
    v := ClientLeads(u, a);
    if first.On? {
      var w := DeleteAfterClient(v, first.rest);
      LeadsAfter(u, first.asked, first.clean, v, DeleteTail(first.known, u.task.input, first.rest), w, 0, end);
      v := w;
    }
  }

  function DeleteTail(k: Knowledge, wanted: Profile, b: seq<Reply>): Turn {
    match DeleteTurn(k, wanted, b)
    case On(more, k2, d, good) =>
      After(more, good, Closing(ListTurn(k2, ViaDelete, d), Some(Deleted(wanted.name, wanted.pdpType))))
    case t => t
  }

  lemma DeleteAfterClient(u: State, b: seq<Reply>) returns (v: State)
    requires u.task.op == Delete
    ensures Leads(u, DeleteTail(Known(u.cache), u.task.input, b), v, 0, Run(Proceed(u, 1), b, false))
    ensures !DeleteTail(Known(u.cache), u.task.input, b).On?
  {
    var end := Run(Proceed(u, 1), b, false);
    var next := DeleteTurn(Known(u.cache), u.task.input, b);
    v := DeleteLeads(u, b);
    if next.On? {
      var w := ListLeads(v, ViaDelete, next.rest);
      ClosesAfterList(v, ListTurn(next.known, ViaDelete, next.rest), w, end);
      LeadsAfter(u, next.asked, next.clean, v, Closing(ListTurn(next.known, ViaDelete, next.rest), LastWord(u)), w, 0, end);
      v := w;
    }
  }

  lemma ModifyConverses(u: State, a: seq<Reply>) returns (v: State)
    requires u.task.op == Modify && !u.task.present
    ensures Leads(u, ModifyConversation(Known(u.cache), u.task.input, a), v, 0, Run(Proceed(u, 0), a, false))
    ensures !ModifyConversation(Known(u.cache), u.task.input, a).On?
  {
    var end := Run(Proceed(u, 0), a, false);
    var first := ClientTurn(Known(u.cache), a);
    v := ClientLeads(u, a);
    if first.On? {
      ModifyLeads(v, first.rest);
      LeadsAfter(u, first.asked, first.clean, v, ModifyTurn(first.known, u.task.input, first.rest), v, 0, end);
    }
  }

  lemma CreateListed(u: State, next: Turn, v: State, end: State)
    requires u.task.op == Create && !u.task.present && next.On? && Leads(u, next, v, 3, end)
    ensures Leads(u, After(next.asked, next.clean, CreateTurn(next.known, u.task.input, next.rest)), v, 0, end)
  {
    CreateLeads(v, next.rest);
    LeadsAfter(u, next.asked, next.clean, v, CreateTurn(next.known, u.task.input, next.rest), v, 0, end);
  }

  lemma CreateAfterList(u: State, b: seq<Reply>) returns (v: State)
    requires u.task.op == Create && !u.task.present && u.cache.listing.None?
    ensures Leads(u, ListThenCreate(Known(u.cache), u.task.input, b), v, 0, Run(Proceed(u, 2), b, false))
    ensures !ListThenCreate(Known(u.cache), u.task.input, b).On?
  {
    var next := ListTurn(Known(u.cache), ViaCreate, b);
    v := ListLeads(u, ViaCreate, b);
    if next.On? {
      CreateListed(u, next, v, Run(Proceed(u, 2), b, false));
    }
  }

  lemma CreateAfterDefault(u: State, b: seq<Reply>) returns (v: State)
    requires u.task.op == Create && !u.task.present
    ensures Leads(u, ListThenCreate(Known(u.cache), u.task.input, b), v, 0, Run(Proceed(u, 2), b, false))
    ensures !ListThenCreate(Known(u.cache), u.task.input, b).On?
  {
    if u.cache.listing.Some? {
      v := u;
      assert Plan(Create)[2] == Collect;
      assert Proceed(u, 2) == Proceed(u, 3);
      CreateLeads(u, b);
    } else {
      v := CreateAfterList(u, b);
    }
  }

  function CreateTail(k: Knowledge, wanted: Profile, b: seq<Reply>): Turn {
    match DefaultTurn(k, b)
    case On(more, k2, d, good) => After(more, good, ListThenCreate(k2, wanted, d))
    case t => t
  }

  lemma CreateAfterClient(u: State, b: seq<Reply>) returns (v: State)
    requires u.task.op == Create && !u.task.present
    ensures Leads(u, CreateTail(Known(u.cache), u.task.input, b), v, 0, Run(Proceed(u, 1), b, false))
    ensures !CreateTail(Known(u.cache), u.task.input, b).On?
  {
    var end := Run(Proceed(u, 1), b, false);
    var next := DefaultTurn(Known(u.cache), b);
    v := DefaultLeads(u, b);
    if next.On? {
      var w := CreateAfterDefault(v, next.rest);
      LeadsAfter(u, next.asked, next.clean, v, ListThenCreate(next.known, u.task.input, next.rest), w, 0, end);
      v := w;
    }
  }

  lemma CreateConverses(u: State, a: seq<Reply>) returns (v: State)
    requires u.task.op == Create && !u.task.present
    ensures Leads(u, CreateConversation(Known(u.cache), u.task.input, a), v, 0, Run(Proceed(u, 0), a, false))
    ensures !CreateConversation(Known(u.cache), u.task.input, a).On?
  {
    var end := Run(Proceed(u, 0), a, false);
    var first := ClientTurn(Known(u.cache), a);
    v := ClientLeads(u, a);
    if first.On? {
      var w := CreateAfterClient(v, first.rest);
      LeadsAfter(u, first.asked, first.clean, v, CreateTail(first.known, u.task.input, first.rest), w, 0, end);
      v := w;
    }
  }

  /**
   Every run of every operation, under all answers, is the conversation of its operation: the same requests in the same
   order, over when it is over, and then with the same words to the caller and the same knowledge in the cache.
   */
  lemma RunConverses(c: Cache, t: Task, replies: seq<Reply>)
    ensures var s, talk := Run(Begin(c, t), replies, false), Conversation(Known(c), t, replies);
            && Requests(s.log) == talk.asked
            && !talk.On? && (talk.Over? <==> s.phase.Ended?)
            && (talk.Over? ==>
                  && Notices(s.log) == ToldTo(t.callback, talk.told) && Known(s.cache) == talk.known
                  && (AllSucceeded(s.log) ==> talk.clean))
  {
    var u := State(if t.op == List then c.(collected := false) else c, t.(present := false), Ended, []);
    assert Begin(c, t) == Proceed(u, 0);
    var v: State;
    match t.op {
      case List =>
        v := ListConverses(u, replies);
        assert ListConversation(Known(u.cache), replies) == ListConversation(Known(c), replies);
      case Create => v := CreateConverses(u, replies);
      case Delete => v := DeleteConverses(u, replies);
      case Modify => v := ModifyConverses(u, replies);
    }
    assert Requests(u.log) == [] && Notices(u.log) == [];
  }
}
