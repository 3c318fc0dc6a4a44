/**
 The one-slot mailbox between callers and the worker thread of a HAL: a command, the variables its argument travels
 in, a mutex and a condition. One worker, any number of posters; every step below is one the threads can take.
 The ModemManager HAL stores arguments under the mutex; the RNDIS HAL stores them early, before taking it.
 */
module CommandMailbox {
  import opened Wrappers

  datatype Command =
    | OpenDevice
    | CloseDevice
    | SelectDeviceSlot
    | MonitorDeviceRegistration
    | ProfileCreate
    | ProfileDelete
    | ProfileModify
    | StartNetwork
    | StopNetwork

  // A command with its argument and the variable the argument goes to.
  datatype Post = Post(command: Command, cell: nat, argument: nat)

  // How far the poster that holds the mutex has come.
  datatype Stage = Locked | Stored | Commanded | Signalled

  datatype Holder = Free | ByWorker | ByPoster(post: Post, stage: Stage)

  // Starting is the top of the loop, before and after the mutex is taken; Woken waits for the mutex again.
  datatype Worker = Starting | Waiting | Woken | Executing

  // index counts the posts so far; the argument is what the worker found in the command's variable.
  datatype Execution = Execution(index: nat, command: Command, argument: nat)

  datatype State = State(
    early: bool,
    holder: Holder,
    worker: Worker,
    cells: map<nat, nat>,
    slot: Option<Post>,
    posts: seq<Post>,
    pending: seq<Post>,
    executed: seq<Execution>)

  datatype Event =
    | WorkerLocks
    | WorkerWaits
    | WorkerWakes
    | WorkerUnlocks
    | PosterStoresEarly(post: Post)
    | PosterLocks(post: Post)
    | PosterStores
    | PosterCommands
    | PosterSignals
    | PosterUnlocks
    | Spurious

  function Fresh(early: bool): State {
    State(early, Free, Starting, map[], None, [], [], [])
  }

  function Cell(s: State, cell: nat): nat {
    if cell in s.cells then s.cells[cell] else 0
  }

  // The switch over the command; an empty slot executes nothing.
  function Execute(s: State): State {
    match s.slot
    case None => s
    case Some(p) => s.(executed := s.executed + [Execution(|s.posts|, p.command, Cell(s, p.cell))])
  }

  function Removed(posts: seq<Post>, p: Post): seq<Post> {
    if posts == [] then [] else if posts[0] == p then posts[1..] else [posts[0]] + Removed(posts[1..], p)
  }

  // One step of some thread; a step its thread is not at changes nothing.
  function Next(s: State, e: Event): State {
    match e
    case WorkerLocks =>
      if s.worker == Starting && s.holder == Free then s.(holder := ByWorker) else s
    case WorkerWaits =>
      if s.worker == Starting && s.holder == ByWorker then s.(worker := Waiting, holder := Free) else s
    case WorkerWakes =>
      if s.worker == Woken && s.holder == Free then Execute(s).(worker := Executing, holder := ByWorker) else s
    case WorkerUnlocks =>
      if s.worker == Executing then s.(worker := Starting, holder := Free) else s
    case PosterStoresEarly(p) =>
      if s.early then s.(cells := s.cells[p.cell := p.argument], pending := s.pending + [p]) else s
    case PosterLocks(p) =>
      if s.holder != Free || (s.early && p !in s.pending) then s
      else s.(holder := ByPoster(p, Locked), pending := Removed(s.pending, p))
    case PosterStores =>
      if s.holder.ByPoster? && s.holder.stage == Locked then
        s.(cells := if s.early then s.cells else s.cells[s.holder.post.cell := s.holder.post.argument],
           holder := s.holder.(stage := Stored))
      else s
    case PosterCommands =>
      if s.holder.ByPoster? && s.holder.stage == Stored then
        s.(slot := Some(s.holder.post), posts := s.posts + [s.holder.post], holder := s.holder.(stage := Commanded))
      else s
    case PosterSignals =>
      if s.holder.ByPoster? && s.holder.stage == Commanded then
        s.(worker := if s.worker == Waiting then Woken else s.worker, holder := s.holder.(stage := Signalled))
      else s
    case PosterUnlocks =>
      if s.holder.ByPoster? && s.holder.stage == Signalled then s.(holder := Free) else s
    case Spurious =>
      if s.worker == Waiting then s.(worker := Woken) else s
  }

  function Run(s: State, events: seq<Event>): State
    decreases |events|
  {
    if events == [] then s else Run(Next(s, events[0]), events[1..])
  }

  // ---- What every interleaving keeps ----

  function LastExecuted(s: State): nat {
    if s.executed == [] then 0 else s.executed[|s.executed| - 1].index
  }

  // The worker executes only with the mutex, so no post can be under way; the slot is the latest post.
  ghost predicate Exclusive(s: State) {
    && (s.worker == Executing ==> s.holder == ByWorker)
    && (s.holder == ByWorker ==> s.worker == Executing || s.worker == Starting)
    && s.slot == if s.posts == [] then None else Some(s.posts[|s.posts| - 1])
  }

  // Every execution ran the command that was the latest one when it began.
  ghost predicate RanLatest(s: State) {
    forall i :: 0 <= i < |s.executed| ==>
      1 <= s.executed[i].index <= |s.posts| && s.executed[i].command == s.posts[s.executed[i].index - 1].command
  }

  ghost predicate Ordered(s: State) {
    forall i, j :: 0 <= i < j < |s.executed| ==> s.executed[i].index <= s.executed[j].index
  }

  ghost predicate Increasing(s: State) {
    forall i, j :: 0 <= i < j < |s.executed| ==> s.executed[i].index < s.executed[j].index
  }

  // A worker that has been woken has something new to do, and so has one about to be.
  ghost predicate News(s: State) {
    && (s.worker == Woken ==> LastExecuted(s) < |s.posts|)
    && (s.holder.ByPoster? && s.holder.stage == Commanded ==> LastExecuted(s) < |s.posts|)
  }

  lemma NextExclusive(s: State, e: Event)
    requires Exclusive(s)
    ensures Exclusive(Next(s, e))
  {
  }

  lemma NextRanLatest(s: State, e: Event)
    requires Exclusive(s) && RanLatest(s) && Ordered(s)
    ensures RanLatest(Next(s, e)) && Ordered(Next(s, e))
  {
    var t := Next(s, e);
    assert s.executed <= t.executed && s.posts <= t.posts;
    if |t.executed| > |s.executed| {
      assert t.posts == s.posts && t.executed[|s.executed|].index == |s.posts|;
    }
  }

  lemma NextNews(s: State, e: Event)
    requires e != Spurious && Exclusive(s) && RanLatest(s) && News(s)
    ensures News(Next(s, e))
  {
    var t := Next(s, e);
    if e != WorkerWakes {
      assert t.executed == s.executed;
    }
  }

  lemma NextIncreasing(s: State, e: Event)
    requires RanLatest(s) && Increasing(s) && News(s)
    ensures Increasing(Next(s, e))
  {
    var t := Next(s, e);
    if e == WorkerWakes {
      assert forall i :: 0 <= i < |s.executed| ==> t.executed[i] == s.executed[i] && s.executed[i].index <= LastExecuted(s);
    } else {
      assert t.executed == s.executed;
    }
  }

  /**
   In every interleaving, spurious wakeups included, what is executed is the latest command posted, and never an
   earlier one again; and the worker and a poster are never both at it.
   */
  lemma {:induction false} ExecutesLatest(s: State, events: seq<Event>)
    requires Exclusive(s) && RanLatest(s) && Ordered(s)
    ensures var t := Run(s, events); Exclusive(t) && RanLatest(t) && Ordered(t)
    decreases |events|
  {
    if events != [] {
      NextExclusive(s, events[0]);
      NextRanLatest(s, events[0]);
      ExecutesLatest(Next(s, events[0]), events[1..]);
    }
  }

  /** Without spurious wakeups the executed posts strictly increase: no post is run twice. */
  lemma {:induction false} ExecutesOnce(s: State, events: seq<Event>)
    requires Spurious !in events
    requires Exclusive(s) && RanLatest(s) && Ordered(s) && Increasing(s) && News(s)
    ensures Increasing(Run(s, events))
    decreases |events|
  {
    if events != [] {
      NextExclusive(s, events[0]);
      NextRanLatest(s, events[0]);
      NextNews(s, events[0]);
      NextIncreasing(s, events[0]);
      ExecutesOnce(Next(s, events[0]), events[1..]);
    }
  }

  /** From the start of a HAL: executed posts are a subsequence of the posts, in order, each at most once. */
  lemma MailboxDelivers(early: bool, events: seq<Event>)
    requires Spurious !in events
    ensures var t := Run(Fresh(early), events); Exclusive(t) && RanLatest(t) && Increasing(t)
  {
    ExecutesLatest(Fresh(early), events);
    ExecutesOnce(Fresh(early), events);
  }

  // Whole turns: of the worker up to its wait, of a poster, and of the worker from its wakeup on.
  function Waited(s: State): State {
    Next(Next(s, WorkerLocks), WorkerWaits)
  }

  function Posted(s: State, p: Post): State {
    Next(Next(Next(Next(Next(s, PosterLocks(p)), PosterStores), PosterCommands), PosterSignals), PosterUnlocks)
  }

  function Worked(s: State): State {
    Next(Next(s, WorkerWakes), WorkerUnlocks)
  }

  lemma PostedTurn(s: State, p: Post)
    requires s.holder == Free && s.worker == Waiting && s.pending == if s.early then [p] else []
    ensures Posted(s, p) == s.(cells := if s.early then s.cells else s.cells[p.cell := p.argument], pending := [],
                               worker := Woken, slot := Some(p), posts := s.posts + [p])
  {
    var locked := Next(s, PosterLocks(p));
    assert locked == s.(holder := ByPoster(p, Locked), pending := []);
  }

  lemma WorkedTurn(s: State)
    requires s.holder == Free && s.worker == Woken && s.slot.Some?
    ensures Worked(s) == Execute(s).(worker := Starting)
  {
  }

  /** A spurious wakeup runs a command again, since the slot is never emptied. */
  lemma SpuriousRunsTwice(p: Post)
    ensures var once := Worked(Posted(Waited(Fresh(false)), p));
            var again := Worked(Next(Waited(once), Spurious));
            && |once.executed| == 1 && again.posts == once.posts == [p]
            && again.executed == [once.executed[0], once.executed[0]]
  {
    var posted := Posted(Waited(Fresh(false)), p);
    PostedTurn(Waited(Fresh(false)), p);
    WorkedTurn(posted);
    WorkedTurn(Next(Waited(Worked(posted)), Spurious));
  }

  // ---- Arguments ----

  // Every execution found the argument its post was made with.
  ghost predicate RanWithOwn(s: State) {
    forall i :: 0 <= i < |s.executed| ==>
      1 <= s.executed[i].index <= |s.posts| && s.executed[i].argument == s.posts[s.executed[i].index - 1].argument
  }

  // Arguments stored under the mutex: the slot's variable holds the slot's argument when the worker can look.
  ghost predicate OwnArgument(s: State) {
    && !s.early
    && (s.holder.ByPoster? && s.holder.stage == Stored ==> Cell(s, s.holder.post.cell) == s.holder.post.argument)
    && (s.holder.ByPoster? && s.holder.stage != Stored && s.holder.stage != Locked ==> s.slot == Some(s.holder.post))
    && (s.slot.Some? && !(s.holder.ByPoster? && s.holder.stage == Stored) ==>
          Cell(s, s.slot.value.cell) == s.slot.value.argument)
    && RanWithOwn(s)
  }

  lemma NextOwnArgument(s: State, e: Event)
    requires Exclusive(s) && OwnArgument(s)
    ensures OwnArgument(Next(s, e))
  {
    var t := Next(s, e);
    assert s.executed <= t.executed && s.posts <= t.posts;
    if |t.executed| > |s.executed| {
      assert t.posts == s.posts && t.executed[|s.executed|].index == |s.posts|;
    }
  }

  lemma {:induction false} KeepsOwnArgument(s: State, events: seq<Event>)
    requires Exclusive(s) && OwnArgument(s)
    ensures OwnArgument(Run(s, events))
    decreases |events|
  {
    if events != [] {
      NextExclusive(s, events[0]);
      NextOwnArgument(s, events[0]);
      KeepsOwnArgument(Next(s, events[0]), events[1..]);
    }
  }

  /** With arguments stored under the mutex every command is executed with the argument it was posted with. */
  lemma ExecutesWithOwnArgument(events: seq<Event>)
    ensures RanWithOwn(Run(Fresh(false), events))
  {
    KeepsOwnArgument(Fresh(false), events);
  }

  // ---- Arguments stored early ----

  // The callers make no posts but these.
  predicate Among(e: Event, made: iset<Post>) {
    match e
    case PosterStoresEarly(p) => p in made
    case PosterLocks(p) => p in made
    case _ => true
  }

  ghost predicate AllAmong(events: seq<Event>, made: iset<Post>) {
    forall i :: 0 <= i < |events| ==> Among(events[i], made)
  }

  // Caller-checkable: whoever stores to a variable stores the same.
  ghost predicate Agreeing(made: iset<Post>) {
    forall p, q :: p in made && q in made && p.cell == q.cell ==> p.argument == q.argument
  }

  predicate Settled(s: State, made: iset<Post>, p: Post) {
    p in made && Cell(s, p.cell) == p.argument
  }

  // Every post on its way or in the slot has its argument in its variable.
  ghost predicate AllSettled(s: State, made: iset<Post>) {
    && s.early
    && (forall i :: 0 <= i < |s.pending| ==> Settled(s, made, s.pending[i]))
    && (s.holder.ByPoster? ==> Settled(s, made, s.holder.post))
    && (s.slot.Some? ==> Settled(s, made, s.slot.value))
    && RanWithOwn(s)
  }

  lemma {:induction false} RemovedAmong(posts: seq<Post>, p: Post, i: nat)
    requires i < |Removed(posts, p)|
    ensures Removed(posts, p)[i] in posts
  {
    if posts[0] != p && i > 0 { RemovedAmong(posts[1..], p, i - 1); }
  }

  lemma StoreSettles(s: State, made: iset<Post>, p: Post, q: Post)
    requires Agreeing(made) && p in made && Settled(s, made, q)
    ensures Settled(s.(cells := s.cells[p.cell := p.argument]), made, q)
  {
  }

  lemma StoresEarlySettled(s: State, p: Post, made: iset<Post>)
    requires Agreeing(made) && p in made && AllSettled(s, made)
    ensures AllSettled(Next(s, PosterStoresEarly(p)), made)
  {
    var t := Next(s, PosterStoresEarly(p));
    forall q | Settled(s, made, q)
      ensures Settled(t, made, q)
    {
      StoreSettles(s, made, p, q);
    }
  }

  lemma LocksSettled(s: State, p: Post, made: iset<Post>)
    requires p in made && AllSettled(s, made)
    ensures AllSettled(Next(s, PosterLocks(p)), made)
  {
    var t := Next(s, PosterLocks(p));
    if t != s {
      forall i | 0 <= i < |t.pending|
        ensures Settled(t, made, t.pending[i])
      {
        RemovedAmong(s.pending, p, i);
      }
    }
  }

  lemma WakesSettled(s: State, made: iset<Post>)
    requires Exclusive(s) && AllSettled(s, made)
    ensures AllSettled(Next(s, WorkerWakes), made)
  {
    var t := Next(s, WorkerWakes);
    assert s.executed <= t.executed;
  }

  lemma NextSettled(s: State, e: Event, made: iset<Post>)
    requires Agreeing(made) && Among(e, made) && Exclusive(s) && AllSettled(s, made)
    ensures AllSettled(Next(s, e), made)
  {
    match e
    case PosterStoresEarly(p) => StoresEarlySettled(s, p, made);
    case PosterLocks(p) => LocksSettled(s, p, made);
    case WorkerWakes => WakesSettled(s, made);
    case PosterCommands => assert s.posts <= Next(s, e).posts;
    case _ =>
  }

  lemma {:induction false} KeepsSettled(s: State, events: seq<Event>, made: iset<Post>)
    requires Agreeing(made) && AllAmong(events, made) && Exclusive(s) && AllSettled(s, made)
    ensures RanWithOwn(Run(s, events))
    decreases |events|
  {
    if events != [] {
      NextExclusive(s, events[0]);
      NextSettled(s, events[0], made);
      KeepsSettled(Next(s, events[0]), events[1..], made);
    }
  }

  // States the threads can get to with these posts only.
  ghost predicate Reached(s: State, made: iset<Post>) {
    exists events :: AllAmong(events, made) && Run(Fresh(true), events) == s
  }

  lemma {:induction false} RunNext(s: State, events: seq<Event>, e: Event)
    ensures Run(s, events + [e]) == Next(Run(s, events), e)
    decreases |events|
  {
    if events != [] {
      assert (events + [e])[1..] == events[1..] + [e];
      RunNext(Next(s, events[0]), events[1..], e);
    }
  }

  lemma ReachedNext(s: State, made: iset<Post>, e: Event)
    requires Reached(s, made) && Among(e, made)
    ensures Reached(Next(s, e), made)
  {
    var events :| AllAmong(events, made) && Run(Fresh(true), events) == s;
    RunNext(Fresh(true), events, e);
    assert AllAmong(events + [e], made);
  }

  /** Stored early, the argument of a poster still waiting for the mutex is used for the command before it. */
  lemma EarlyArgumentMixesUp(p: Post, q: Post)
    requires p.cell == q.cell
    ensures var posted := Posted(Next(Waited(Fresh(true)), PosterStoresEarly(p)), p);
            var worked := Worked(Next(posted, PosterStoresEarly(q)));
            worked.posts == [p] && worked.executed == [Execution(1, p.command, q.argument)]
  {
    var stored := Next(Waited(Fresh(true)), PosterStoresEarly(p));
    assert stored.pending == [p];
    PostedTurn(stored, p);
    WorkedTurn(Next(Posted(stored, p), PosterStoresEarly(q)));
  }

  lemma MixUpReached(made: iset<Post>, p: Post, q: Post)
    requires p in made && q in made
    ensures var posted := Posted(Next(Waited(Fresh(true)), PosterStoresEarly(p)), p);
            Reached(Worked(Next(posted, PosterStoresEarly(q))), made)
  {
    var s0 := Fresh(true);
    assert Run(s0, []) == s0 && AllAmong([], made);
    var s1 := Next(s0, WorkerLocks);
    ReachedNext(s0, made, WorkerLocks);
    var s2 := Next(s1, WorkerWaits);
    ReachedNext(s1, made, WorkerWaits);
    var s3 := Next(s2, PosterStoresEarly(p));
    ReachedNext(s2, made, PosterStoresEarly(p));
    var s4 := Next(s3, PosterLocks(p));
    ReachedNext(s3, made, PosterLocks(p));
    var s5 := Next(s4, PosterStores);
    ReachedNext(s4, made, PosterStores);
    var s6 := Next(s5, PosterCommands);
    ReachedNext(s5, made, PosterCommands);
    var s7 := Next(s6, PosterSignals);
    ReachedNext(s6, made, PosterSignals);
    var s8 := Next(s7, PosterUnlocks);
    ReachedNext(s7, made, PosterUnlocks);
    var s9 := Next(s8, PosterStoresEarly(q));
    ReachedNext(s8, made, PosterStoresEarly(q));
    var s10 := Next(s9, WorkerWakes);
    ReachedNext(s9, made, WorkerWakes);
    ReachedNext(s10, made, WorkerUnlocks);
  }

  /**
   With arguments stored early, commands are executed with their own arguments in every interleaving of the posts the
   callers make, if and only if any two of those that share a variable carry the same argument.
   */
  lemma EarlyArgumentsExactly(made: iset<Post>)
    ensures (forall events | AllAmong(events, made) :: RanWithOwn(Run(Fresh(true), events))) <==> Agreeing(made)
  {
    if Agreeing(made) {
      forall events | AllAmong(events, made)
        ensures RanWithOwn(Run(Fresh(true), events))
      {
        KeepsSettled(Fresh(true), events, made);
      }
    } else {
      var p, q :| p in made && q in made && p.cell == q.cell && p.argument != q.argument;
      EarlyArgumentMixesUp(p, q);
      MixUpReached(made, p, q);
      var mixed := Worked(Next(Posted(Next(Waited(Fresh(true)), PosterStoresEarly(p)), p), PosterStoresEarly(q)));
      assert !RanWithOwn(mixed) by { assert mixed.executed[0].index == 1; }
    }
  }
}
