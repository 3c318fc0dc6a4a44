/**
 What each of the four profile operations is for, written as a straight line of stages.
 The state machine of module ProfileMachine runs all four through one fall-through switch
 and is proved to do exactly this.
 */
module ProfileProtocol {
  import opened Wrappers
  import opened CText
  import opened FormatText
  import opened Profiles

  datatype ListSource = ViaCreate | ViaDelete | ViaDml

  datatype Request =
    | AllocateClient
    | GetDefaultNumber
    | GetDefaultSettings(index: Byte)
    | GetProfileList(source: ListSource)
    | GetEntrySettings(index: Byte)
    | CreateProfile(profile: Profile)
    | ModifyProfile(index: Byte, profile: Profile)
    | DeleteProfile(index: Byte)
    | SetDefault(kind: int, index: Byte)

  // One profile of a list reply. The cell is what malloc left where the profile will be kept, and stray is what the name
  // prints where it asks for arguments.
  datatype ListEntry = ListEntry(kind: int, index: Byte, name: string, cell: Profile, stray: string)

  // A completed request: either it failed, or the parts its callback asks for are there.
  datatype Reply = Reply(
    ok: bool,
    kind: int,
    index: Option<Byte>,
    settings: Settings,
    entries: seq<ListEntry>,
    stray: Stray)

  datatype Notice = NotReady | Ready(name: string, pdpType: PdpType) | Deleted(name: string, pdpType: PdpType)

  // Everything the outside can see of a run.
  datatype Action = Ask(request: Request) | Answer(reply: Reply) | Notify(notice: Notice) | Release

  // The part of the WDS context the profile operations share.
  datatype Cache = Cache(
    clientValid: bool,
    defaultCached: bool,
    default: Profile,
    listing: Option<seq<Profile>>,
    count: nat,
    collected: bool)

  datatype Task = Task(op: Operation, input: Profile, present: bool, callback: bool)

  // Who holds the task: a request of some stage, the walk over a list reply, or nobody.
  datatype Phase =
    | Waiting(stage: nat, request: Request)
    | Collecting(stage: nat, entries: seq<ListEntry>, cursor: nat)
    | Ended

  datatype State = State(cache: Cache, task: Task, phase: Phase, log: seq<Action>)

  datatype Stage =
    | Allocate | ReadDefault | Remove | Collect | Verify | Add | Change | MakeDefault | Attach | Tell

  function Plan(op: Operation): seq<Stage> {
    match op
    case Create => [Allocate, ReadDefault, Collect, Verify, Add, MakeDefault, Attach, Tell]
    case Delete => [Allocate, Remove, Collect, Tell]
    case Modify => [Allocate, Verify, Change, MakeDefault, Attach, Tell]
    case List => [Allocate, ReadDefault, Collect]
  }

  // The stage that sends a request.
  function StageOf(q: Request): Stage {
    match q
    case AllocateClient => Allocate
    case GetDefaultNumber => ReadDefault
    case GetDefaultSettings(_) => ReadDefault
    case GetProfileList(_) => Collect
    case GetEntrySettings(_) => Collect
    case CreateProfile(_) => Add
    case ModifyProfile(_, _) => Change
    case DeleteProfile(_) => Remove
    case SetDefault(_, _) => MakeDefault
  }

  function SourceOf(op: Operation): ListSource {
    match op
    case Create => ViaCreate
    case Delete => ViaDelete
    case Modify => ViaDml
    case List => ViaDml
  }

  function AsByte(x: int): Byte { x % 256 }

  // The entries of the list that count: after a failed collection there are none.
  function Cached(c: Cache): seq<Profile> {
    if c.listing.None? then [] else if c.count <= |c.listing.value| then c.listing.value[..c.count] else c.listing.value
  }

  // A suspended task is at a stage of its own line.
  predicate WellPlaced(s: State) {
    s.phase.Ended? || s.phase.stage < |Plan(s.task.op)|
  }

  // Sending a request; asking for the list also takes the collection flag down.
  function Asking(s: State, stage: nat, q: Request): State {
    State(s.cache.(collected := s.cache.collected && !q.GetProfileList?), s.task, Waiting(stage, q), s.log + [Ask(q)])
  }

  function Ending(s: State): State {
    s.(phase := Ended, log := s.log + [Release])
  }

  // Verify: a colliding entry is taken over as the profile of the run.
  function Checked(s: State): State {
    if s.cache.listing.None? then s
    else
      match FirstCollision(s.task.op, Cached(s.cache), s.task.input)
      case None => s.(task := s.task.(present := false))
      case Some(m) =>
        var entry := Cached(s.cache)[m].(isDefault := s.task.input.isDefault || Cached(s.cache)[m].isDefault);
        s.(cache := s.cache.(listing := Some(s.cache.listing.value[m := entry])),
           task := s.task.(present := true, input := entry))
  }

  function Told(s: State): State {
    if !s.task.callback then s
    else
      var p := s.task.input;
      s.(log := s.log + [Notify(if s.task.op == Delete then Deleted(p.name, p.pdpType) else Ready(p.name, p.pdpType))])
  }

  // The request a stage sends, if it does not find its work done already.
  function Wanted(c: Cache, t: Task, stage: Stage): Option<Request> {
    match stage
    case Allocate => if c.clientValid then None else Some(AllocateClient)
    case ReadDefault => if c.defaultCached then None else Some(GetDefaultNumber)
    case Remove => Some(DeleteProfile(AsByte(t.input.id)))
    case Collect => if t.op == Create && c.listing.Some? then None else Some(GetProfileList(SourceOf(t.op)))
    case Add => if t.present then None else Some(CreateProfile(t.input))
    case Change => if t.present then None else Some(ModifyProfile(AsByte(t.input.id), t.input))
    case MakeDefault =>
      if t.input.isDefault && (t.op == Create || !t.present) then Some(SetDefault(t.input.kind, AsByte(t.input.id)))
      else None
    case Verify => None
    case Attach => None
    case Tell => None
  }

  // The local work of a stage that sends nothing.
  function Passed(s: State, stage: Stage): State {
    match stage
    case Verify => Checked(s)
    case Tell => Told(s)
    case _ => s
  }

  // The straight line from a stage on, up to the first request or the release of the task.
  function Proceed(s: State, stage: nat): (r: State)
    requires stage <= |Plan(s.task.op)|
    ensures WellPlaced(r) && r.task.op == s.task.op
    decreases |Plan(s.task.op)| - stage
  {
    if stage == |Plan(s.task.op)| then Ending(s)
    else
      match Wanted(s.cache, s.task, Plan(s.task.op)[stage])
      case Some(q) => Asking(s, stage, q)
      case None => Proceed(Passed(s, Plan(s.task.op)[stage]), stage + 1)
  }

  const MODIFY_ATTACH: nat := 4

  /**
   What a completion that moves on leads to. The switch names no label for the attach stage of a
   modify request, so as the code is written a task resumed there just ends; with the label it
   would go on. Both readings are kept, to say exactly when they differ.
   */
  function Resume(s: State, stage: nat, labelled: bool): (r: State)
    requires stage <= |Plan(s.task.op)|
    ensures WellPlaced(r) && r.task.op == s.task.op
  {
    if !labelled && s.task.op == Modify && stage == MODIFY_ATTACH then Ending(s) else Proceed(s, stage)
  }

  // Fresh memory for a list.
  function CellsOf(entries: seq<ListEntry>): seq<Profile> {
    seq(|entries|, i requires 0 <= i < |entries| => entries[i].cell)
  }

  function Headed(cell: Profile, entry: ListEntry, default: Profile): Profile {
    cell.(id := entry.index, isDefault := default.id == entry.index,
          name := Printed(entry.name, entry.stray, NAME_SIZE), kind := KIND_3GPP)
  }

  // Writes the head of the entry under the cursor and asks for its settings, or ends the walk.
  function NextEntry(s: State, stage: nat, entries: seq<ListEntry>, cursor: nat, labelled: bool): (r: State)
    requires stage < |Plan(s.task.op)|
    ensures WellPlaced(r) && r.task.op == s.task.op
  {
    if cursor < |entries| && s.cache.listing.Some? && cursor < |s.cache.listing.value| then
      var cells := s.cache.listing.value;
      State(
        s.cache.(listing := Some(cells[cursor := Headed(cells[cursor], entries[cursor], s.cache.default)])),
        s.task,
        Collecting(stage, entries, cursor),
        s.log + [Ask(GetEntrySettings(entries[cursor].index))])
    else
      Resume(s.(cache := s.cache.(collected := true)), stage + 1, labelled)
  }

  // What a completion means for the task.
  datatype Verdict =
    | Stop(after: State)
    | MoveOn(after: State)
    | AskAgain(after: State, request: Request)
    | Walk(after: State, entries: seq<ListEntry>, cursor: nat)

  // The list could not be read: no entries, and the operation goes on all the same.
  function WithoutList(s: State): State {
    s.(cache := s.cache.(count := 0, collected := true))
  }

  // The request as its callback judges it, on the task already taken back.
  function Judged(s: State, q: Request, r: Reply): Verdict {
    match q
    case AllocateClient =>
      if !r.ok then Stop(s) else MoveOn(s.(cache := s.cache.(clientValid := true)))
    case GetDefaultNumber =>
      var forgotten := s.(cache := s.cache.(default := BLANK, defaultCached := false));
      if !r.ok || r.index.None? then Stop(forgotten)
      else AskAgain(forgotten.(cache := forgotten.cache.(default := BLANK.(id := r.index.value))),
                    GetDefaultSettings(r.index.value))
    case GetDefaultSettings(_) =>
      if !r.ok then Stop(s)
      else MoveOn(s.(cache := s.cache.(default := WithDefaultSettings(s.cache.default, r.settings), defaultCached := true)))
    case GetProfileList(_) =>
      if !r.ok || r.entries == [] then MoveOn(WithoutList(s))
      else Walk(s.(cache := s.cache.(count := |r.entries|, listing := Some(CellsOf(r.entries)))), r.entries, 0)
    case GetEntrySettings(_) =>
      MoveOn(WithoutList(s))
    case CreateProfile(_) =>
      if !r.ok || r.index.None? then Stop(if s.task.callback then s.(log := s.log + [Notify(NotReady)]) else s)
      else MoveOn(s.(task := s.task.(input := s.task.input.(id := r.index.value, kind := r.kind))))
    case DeleteProfile(_) =>
      if !r.ok then Stop(s) else MoveOn(s)
    case ModifyProfile(_, _) =>
      if !r.ok then Stop(s) else MoveOn(s)
    case SetDefault(_, _) =>
      if !r.ok then Stop(s) else MoveOn(s.(cache := s.cache.(default := s.task.input)))
  }

  // The same for the settings of the list entry under the cursor.
  function JudgedEntry(s: State, entries: seq<ListEntry>, cursor: nat, r: Reply): Verdict {
    if !r.ok || s.cache.listing.None? || cursor >= |s.cache.listing.value| then MoveOn(WithoutList(s))
    else
      var cells := s.cache.listing.value;
      Walk(s.(cache := s.cache.(listing := Some(cells[cursor := WithEntrySettings(cells[cursor], r.settings, r.stray)]))),
           entries, cursor + 1)
  }

  function Begin(c: Cache, t: Task): (s: State)
    ensures WellPlaced(s) && s.task.op == t.op
  {
    Proceed(State(if t.op == List then c.(collected := false) else c, t.(present := false), Ended, []), 0)
  }

  // The task as it comes back with the reply of its request.
  function Reclaimed(s: State, r: Reply): State {
    s.(phase := Ended, log := s.log + [Answer(r)])
  }

  function VerdictOn(s: State, r: Reply): Verdict
    requires !s.phase.Ended?
  {
    match s.phase
    case Waiting(_, q) => Judged(Reclaimed(s, r), q, r)
    case Collecting(_, entries, cursor) => JudgedEntry(Reclaimed(s, r), entries, cursor, r)
  }

  // The completion of the request that holds the task.
  function Deliver(s: State, r: Reply, labelled: bool): (s': State)
    requires WellPlaced(s)
    ensures WellPlaced(s') && s'.task.op == s.task.op
  {
    if s.phase.Ended? then s
    else
      match VerdictOn(s, r)
      case Stop(t) => Ending(t)
      case MoveOn(t) => Resume(t, s.phase.stage + 1, labelled)
      case AskAgain(t, q) => Asking(t, s.phase.stage, q)
      case Walk(t, entries, cursor) => NextEntry(t, s.phase.stage, entries, cursor, labelled)
  }

  // The replies in the order they arrive; whatever comes after the task was released is not for it.
  function Run(s: State, replies: seq<Reply>, labelled: bool): (r: State)
    requires WellPlaced(s)
    ensures WellPlaced(r) && r.task.op == s.task.op
    decreases |replies|
  {
    if replies == [] || s.phase.Ended? then s
    else
      Run(Deliver(s, replies[0], labelled), replies[1..], labelled)
  }
}
