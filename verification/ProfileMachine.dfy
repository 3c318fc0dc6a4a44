/**
 The profile operation machine: one switch whose cases fall through, shared by create, delete,
 modify and list, and the callbacks that resume it. Every method is proved against the
 straight-line protocol of its own operation.
 */
module ProfileMachine {
  import opened Wrappers
  import opened CText
  import opened FormatText
  import opened Profiles
  import opened ProfileProtocol

  const CREATE_BEGIN: nat := 1
  const CREATE_ALLOCATE_CLIENT: nat := 2
  const CREATE_READ_DEFAULT: nat := 3
  const CREATE_READ_LIST: nat := 4
  const CREATE_VERIFY: nat := 5
  const CREATE_CREATE: nat := 6
  const CREATE_SET_DEFAULT: nat := 7
  const CREATE_ATTACH: nat := 8
  const CREATE_NOTIFY: nat := 9
  const CREATE_END: nat := 10
  const DELETE_BEGIN: nat := 11
  const DELETE_ALLOCATE_CLIENT: nat := 12
  const DELETE_DELETE: nat := 13
  const DELETE_RESYNC_LIST: nat := 14
  const DELETE_NOTIFY: nat := 15
  const DELETE_END: nat := 16
  const MODIFY_BEGIN: nat := 17
  const MODIFY_ALLOCATE_CLIENT: nat := 18
  const MODIFY_VERIFY: nat := 19
  const MODIFY_MODIFY: nat := 20
  const MODIFY_SET_DEFAULT: nat := 21
  const MODIFY_NOTIFY: nat := 23
  const MODIFY_END: nat := 24
  const GETLIST_BEGIN: nat := 25
  const GETLIST_ALLOCATE_CLIENT: nat := 26
  const GETLIST_READ_DEFAULT: nat := 27
  const GETLIST_GETLIST: nat := 28
  const GETLIST_END: nat := 29

  function First(op: Operation): nat {
    match op
    case Create => CREATE_BEGIN
    case Delete => DELETE_BEGIN
    case Modify => MODIFY_BEGIN
    case List => GETLIST_BEGIN
  }

  function Last(op: Operation): nat {
    match op
    case Create => CREATE_END
    case Delete => DELETE_END
    case Modify => MODIFY_END
    case List => GETLIST_END
  }

  // The blocks of the switch in the order they fall through, found by their case labels.
  const BEGIN_BLOCK: nat := 0
  const ALLOCATE_BLOCK: nat := 1
  const READ_DEFAULT_BLOCK: nat := 2
  const DELETE_BLOCK: nat := 3
  const LIST_BLOCK: nat := 4
  const VERIFY_BLOCK: nat := 5
  const CREATE_BLOCK: nat := 6
  const MODIFY_BLOCK: nat := 7
  const SET_DEFAULT_BLOCK: nat := 8
  const ATTACH_BLOCK: nat := 9
  const NOTIFY_BLOCK: nat := 10
  const DEFAULT_BLOCK: nat := 11

  function Labelled(step: nat): nat {
    if step == CREATE_BEGIN || step == DELETE_BEGIN || step == MODIFY_BEGIN || step == GETLIST_BEGIN then BEGIN_BLOCK
    else if step == CREATE_ALLOCATE_CLIENT || step == DELETE_ALLOCATE_CLIENT || step == MODIFY_ALLOCATE_CLIENT
            || step == GETLIST_ALLOCATE_CLIENT then ALLOCATE_BLOCK
    else if step == CREATE_READ_DEFAULT || step == GETLIST_READ_DEFAULT then READ_DEFAULT_BLOCK
    else if step == DELETE_DELETE then DELETE_BLOCK
    else if step == CREATE_READ_LIST || step == GETLIST_GETLIST || step == DELETE_RESYNC_LIST then LIST_BLOCK
    else if step == CREATE_VERIFY || step == MODIFY_VERIFY then VERIFY_BLOCK
    else if step == CREATE_CREATE then CREATE_BLOCK
    else if step == MODIFY_MODIFY then MODIFY_BLOCK
    else if step == CREATE_SET_DEFAULT || step == MODIFY_SET_DEFAULT then SET_DEFAULT_BLOCK
    else if step == CREATE_ATTACH then ATTACH_BLOCK
    else if step == CREATE_NOTIFY || step == DELETE_NOTIFY || step == MODIFY_NOTIFY then NOTIFY_BLOCK
    else DEFAULT_BLOCK
  }

  // How many stages of an operation's own line lie in front of a block.
  ghost function Position(op: Operation, block: nat): nat {
    match op
    case Create =>
      if block <= ALLOCATE_BLOCK then 0
      else if block <= READ_DEFAULT_BLOCK then 1
      else if block <= LIST_BLOCK then 2
      else if block <= VERIFY_BLOCK then 3
      else if block <= CREATE_BLOCK then 4
      else if block <= SET_DEFAULT_BLOCK then 5
      else if block <= ATTACH_BLOCK then 6
      else 7
    case Delete =>
      if block <= ALLOCATE_BLOCK then 0
      else if block <= DELETE_BLOCK then 1
      else if block <= LIST_BLOCK then 2
      else 3
    case Modify =>
      if block <= ALLOCATE_BLOCK then 0
      else if block <= VERIFY_BLOCK then 1
      else if block <= MODIFY_BLOCK then 2
      else if block <= SET_DEFAULT_BLOCK then 3
      else if block <= ATTACH_BLOCK then 4
      else 5
    case List =>
      if block <= ALLOCATE_BLOCK then 0
      else if block <= READ_DEFAULT_BLOCK then 1
      else if block <= LIST_BLOCK then 2
      else 3
  }

  // What one invocation of the switch stands for: the operation's own line, from its own stage.
  ghost function Dispatched(s: State, step: nat): State
    requires First(s.task.op) <= step <= Last(s.task.op)
  {
    if step == First(s.task.op) then Proceed(s, 0) else Resume(s, step - First(s.task.op) - 1, false)
  }

  class WdsContext {
    var clientValid: bool
    var defaultCached: bool
    var defaultFromModem: Profile
    var profileCount: nat
    var profileList: array?<Profile>
    var collectionDone: bool

    constructor ()
      ensures profileList == null && profileCount == 0
      ensures View() == Cache(false, false, BLANK, None, 0, false)
    {
      clientValid, defaultCached, defaultFromModem := false, false, BLANK;
      profileCount, profileList, collectionDone := 0, null, false;
    }

    ghost predicate Valid()
      reads this
    {
      if profileList == null then profileCount == 0 else profileCount <= profileList.Length
    }

    ghost function View(): Cache
      reads this, profileList
    {
      Cache(clientValid, defaultCached, defaultFromModem,
            if profileList == null then None else Some(profileList[..]), profileCount, collectionDone)
    }
  }

  class ProfileTask {
    const wds: WdsContext
    const op: Operation
    const callback: bool
    const lastStep: nat
    var currentStep: nat
    var input: Profile
    var present: bool
    // the list walk: the reply kept alive and the cursor into it
    var entries: seq<ListEntry>
    var iteration: nat
    // who holds the task: the request in flight, and the reference the machine still owns
    var pending: Option<Request>
    var references: nat
    var log: seq<Action>

    constructor (wds: WdsContext, op: Operation, input: Profile, callback: bool)
      ensures this.wds == wds && this.op == op && this.callback == callback && Running()
      ensures currentStep == First(op) && log == []
      ensures this.input == input && !present
    {
      this.wds, this.op, this.callback, this.lastStep := wds, op, callback, Last(op);
      this.currentStep, this.input, this.present := First(op), input, false;
      this.entries, this.iteration := [], 0;
      this.pending, this.references, this.log := None, 1, [];
    }

    ghost function StageIndex(): nat
      reads this
    {
      if currentStep > First(op) then currentStep - First(op) - 1 else 0
    }

    ghost function PhaseView(): Phase
      reads this
    {
      match pending
      case None => Ended
      case Some(GetEntrySettings(_)) => Collecting(StageIndex(), entries, iteration)
      case Some(q) => Waiting(StageIndex(), q)
    }

    ghost function View(): State
      reads this, wds, wds.profileList
    {
      State(wds.View(), Task(op, input, present, callback), PhaseView(), log)
    }

    // The step counter names the stage the task is at.
    ghost predicate InStep(at: nat)
      reads this
    {
      at < |Plan(op)| && currentStep == First(op) + 1 + at
    }

    // The machine holds the task itself.
    ghost predicate Running()
      reads this
    {
      lastStep == Last(op) && pending.None? && references == 1
    }

    // A request holds the task: its callback will resume the stage the counter names.
    ghost predicate Suspended()
      reads this, wds
    {
      && lastStep == Last(op)
      && references == 1
      && pending.Some?
      && InStep(StageIndex())
      && Plan(op)[StageIndex()] == StageOf(pending.value)
      && (pending.value.GetEntrySettings? ==>
            && wds.profileList != null
            && wds.profileList.Length == |entries| == wds.profileCount
            && iteration < |entries|)
    }

    ghost predicate Finished()
      reads this
    {
      lastStep == Last(op) && references == 0 && pending.None?
    }

    ghost predicate Valid()
      reads this, wds
    {
      wds.Valid() && (Suspended() || Finished())
    }

    /**
     The machine has come to a block of the switch, by its label or by falling into it, and the
     operation's own line has come to the stage `at`.
     */
    ghost predicate Line(block: nat, at: nat)
      reads this, wds
    {
      && Running()
      && wds.Valid()
      && at == Position(op, block)
      && (currentStep == First(op) + 1 + at || block > SET_DEFAULT_BLOCK || (op == Modify && present && block > MODIFY_BLOCK))
    }

    method AllocateBlock(ghost at: nat)
      requires Line(ALLOCATE_BLOCK, at)
      modifies this, wds`collectionDone, wds.profileList
      ensures Valid() && View() == Proceed(old(View()), at)
      ensures currentStep >= old(currentStep) && (Finished() ==> currentStep > old(currentStep))
    {
      if !wds.clientValid {
        pending, log := Some(AllocateClient), log + [Ask(AllocateClient)];
        return;
      }
      currentStep := currentStep + 1;
      ReadDefaultBlock(at + 1);
    }

    method ReadDefaultBlock(ghost at: nat)
      requires Line(READ_DEFAULT_BLOCK, at)
      modifies this, wds`collectionDone, wds.profileList
      ensures Valid() && View() == Proceed(old(View()), at)
      ensures currentStep >= old(currentStep) && (Finished() ==> currentStep > old(currentStep))
    {
      ghost var next := at;
      if op == Create || op == List {
        if !wds.defaultCached {
          pending, log := Some(GetDefaultNumber), log + [Ask(GetDefaultNumber)];
          return;
        }
        currentStep := currentStep + 1;
        next := at + 1;
      }
      DeleteBlock(next);
    }

    method DeleteBlock(ghost at: nat)
      requires Line(DELETE_BLOCK, at)
      modifies this, wds`collectionDone, wds.profileList
      ensures Valid() && View() == Proceed(old(View()), at)
      ensures currentStep >= old(currentStep) && (Finished() ==> currentStep > old(currentStep))
    {
      if op == Delete {
        var q := DeleteProfile(AsByte(input.id));
        pending, log := Some(q), log + [Ask(q)];
        return;
      }
      ListBlock(at);
    }

    method ListBlock(ghost at: nat)
      requires Line(LIST_BLOCK, at)
      modifies this, wds`collectionDone, wds.profileList
      ensures Valid() && View() == Proceed(old(View()), at)
      ensures currentStep >= old(currentStep) && (Finished() ==> currentStep > old(currentStep))
    {
      ghost var next := at;
      if op == Create || op == Delete || op == List {
        if wds.profileList == null || op == List || op == Delete {
          wds.collectionDone := false;
          var source := if op == Create then ViaCreate else if op == Delete then ViaDelete else ViaDml;
          pending, log := Some(GetProfileList(source)), log + [Ask(GetProfileList(source))];
          return;
        }
        currentStep := currentStep + 1;
        next := at + 1;
      }
      VerifyBlock(next);
    }

    method VerifyBlock(ghost at: nat)
      requires Line(VERIFY_BLOCK, at)
      modifies this, wds`collectionDone, wds.profileList
      ensures Valid() && View() == Proceed(old(View()), at)
      ensures currentStep >= old(currentStep) && (Finished() ==> currentStep > old(currentStep))
    {
      ghost var next := at;
      if op == Create || op == Modify {
        CheckCachedProfiles();
        currentStep := currentStep + 1;
        next := at + 1;
      }
      CreateBlock(next);
    }

    // The search of the verify block: the first colliding entry becomes the profile of the run.
    method CheckCachedProfiles()
      requires Running() && wds.Valid()
      modifies this`input, this`present, wds.profileList
      ensures wds.Valid() && View() == Checked(old(View()))
    {
      if wds.profileList != null {
        ghost var cells := wds.profileList[..];
        ghost var cached := Cached(wds.View());
        ghost var wanted := input;
        present := false;
        var i := 0;
        while i < wds.profileCount
          invariant 0 <= i <= wds.profileCount <= wds.profileList.Length
          invariant !present && input == wanted
          invariant wds.profileList[..] == cells
          invariant forall j :: 0 <= j < i ==> !Collides(op, cached[j], wanted)
        {
          if !(op == Modify && input.id == wds.profileList[i].id) && Matches(wds.profileList[i], input) {
            assert wds.profileList[i] == cells[i] == cached[i];
            FirstCollisionUnique(op, cached, wanted, i);
            present := true;
            if input.isDefault {
              wds.profileList[i] := wds.profileList[i].(isDefault := true);
            }
            input := wds.profileList[i];
            assert wds.profileList[..] == cells[i := input];
            return;
          }
          i := i + 1;
        }
      }
    }

    method CreateBlock(ghost at: nat)
      requires Line(CREATE_BLOCK, at)
      modifies this, wds`collectionDone, wds.profileList
      ensures Valid() && View() == Proceed(old(View()), at)
      ensures currentStep >= old(currentStep) && (Finished() ==> currentStep > old(currentStep))
    {
      ghost var next := at;
      if op == Create {
        if !present {
          pending, log := Some(CreateProfile(input)), log + [Ask(CreateProfile(input))];
          return;
        }
        currentStep := currentStep + 1;
        next := at + 1;
      }
      ModifyBlock(next);
    }

    // The counter stays behind when a modify request is not needed.
    method ModifyBlock(ghost at: nat)
      requires Line(MODIFY_BLOCK, at)
      modifies this, wds`collectionDone, wds.profileList
      ensures Valid() && View() == Proceed(old(View()), at)
      ensures currentStep >= old(currentStep) && (Finished() ==> currentStep > old(currentStep))
    {
      ghost var next := at;
      if op == Modify {
        if !present {
          var q := ModifyProfile(AsByte(input.id), input);
          pending, log := Some(q), log + [Ask(q)];
          return;
        }
        next := at + 1;
      }
      SetDefaultBlock(next);
    }

    method SetDefaultBlock(ghost at: nat)
      requires Line(SET_DEFAULT_BLOCK, at)
      modifies this, wds`collectionDone, wds.profileList
      ensures Valid() && View() == Proceed(old(View()), at)
      ensures currentStep >= old(currentStep) && (Finished() ==> currentStep > old(currentStep))
    {
      ghost var next := at;
      if op == Create || op == Modify {
        if input.isDefault {
          if op == Create || (op == Modify && !present) {
            var q := SetDefault(input.kind, AsByte(input.id));
            pending, log := Some(q), log + [Ask(q)];
            return;
          }
        }
        next := at + 1;
      }
      AttachBlock(next);
    }

    // The attach requests are compiled out.
    method AttachBlock(ghost at: nat)
      requires Line(ATTACH_BLOCK, at)
      modifies this, wds`collectionDone, wds.profileList
      ensures Valid() && View() == Proceed(old(View()), at)
      ensures currentStep >= old(currentStep) && (Finished() ==> currentStep > old(currentStep))
    {
      NotifyBlock(if op == Create || op == Modify then at + 1 else at);
    }

    method NotifyBlock(ghost at: nat)
      requires Line(NOTIFY_BLOCK, at)
      modifies this, wds`collectionDone, wds.profileList
      ensures Valid() && View() == Proceed(old(View()), at)
      ensures currentStep >= old(currentStep) && (Finished() ==> currentStep > old(currentStep))
    {
      if op == Create || op == Delete || op == Modify {
        if callback {
          if op == Delete {
            log := log + [Notify(Deleted(input.name, input.pdpType))];
          } else {
            log := log + [Notify(Ready(input.name, input.pdpType))];
          }
        }
        currentStep := currentStep + 1;
      }
      EndBlock();
    }

    method EndBlock()
      requires Running() && wds.Valid()
      modifies this
      ensures Valid() && Finished() && View() == Ending(old(View()))
      ensures currentStep > old(currentStep)
    {
      currentStep := currentStep + 1;
      references, log := references - 1, log + [Release];
    }

    /** The switch: a jump to the labelled block, from where control falls through. */
    method Step()
      requires Running() && wds.Valid() && First(op) <= currentStep <= Last(op)
      modifies this, wds`collectionDone, wds.profileList
      ensures Valid() && View() == Dispatched(old(View()), old(currentStep))
      ensures currentStep >= old(currentStep) && (Finished() ==> currentStep > old(currentStep))
    {
      ghost var at := StageIndex();
      var block := Labelled(currentStep);
      if block == BEGIN_BLOCK {
        currentStep := currentStep + 1;
        AllocateBlock(0);
      } else if block == ALLOCATE_BLOCK {
        AllocateBlock(at);
      } else if block == READ_DEFAULT_BLOCK {
        ReadDefaultBlock(at);
      } else if block == DELETE_BLOCK {
        DeleteBlock(at);
      } else if block == LIST_BLOCK {
        ListBlock(at);
      } else if block == VERIFY_BLOCK {
        VerifyBlock(at);
      } else if block == CREATE_BLOCK {
        CreateBlock(at);
      } else if block == MODIFY_BLOCK {
        ModifyBlock(at);
      } else if block == SET_DEFAULT_BLOCK {
        SetDefaultBlock(at);
      } else if block == ATTACH_BLOCK {
        AttachBlock(at);
      } else if block == NOTIFY_BLOCK {
        NotifyBlock(at);
      } else {
        EndBlock();
      }
    }

    // The request holding the task has completed: its callback goes on, or jumps to the last step.
    method Advance(ghost stage: nat)
      requires Running() && wds.Valid() && InStep(stage)
      modifies this, wds`collectionDone, wds.profileList
      ensures Valid() && View() == Resume(old(View()), stage + 1, false)
      ensures currentStep > old(currentStep)
    {
      currentStep := currentStep + 1;
      Step();
    }

    method JumpToLast(ghost stage: nat)
      requires Running() && wds.Valid() && InStep(stage)
      modifies this, wds`collectionDone, wds.profileList
      ensures Valid() && View() == Ending(old(View()))
      ensures currentStep > old(currentStep)
    {
      currentStep := lastStep;
      Step();
    }

    // Takes the task back from the request in flight.
    method Reclaim(r: Reply) returns (request: Request)
      requires Valid() && pending.Some?
      modifies this`pending, this`log
      ensures Running() && wds.Valid() && InStep(StageIndex())
      ensures request == old(pending.value) && View() == old(View()).(phase := Ended, log := old(log) + [Answer(r)])
    {
      request := pending.value;
      pending, log := None, log + [Answer(r)];
    }

    method OnClientAllocated(r: Reply)
      requires Valid() && pending == Some(AllocateClient)
      modifies this, wds, wds.profileList
      ensures Valid() && View() == Deliver(old(View()), r, false)
      ensures currentStep > old(currentStep) && wds.profileList == old(wds.profileList)
    {
      var _ := Reclaim(r);
      if !r.ok {
        JumpToLast(StageIndex());
        return;
      }
      wds.clientValid := true;
      Advance(StageIndex());
    }

    method OnDefaultNumber(r: Reply)
      requires Valid() && pending == Some(GetDefaultNumber)
      modifies this, wds, wds.profileList
      ensures Valid() && View() == Deliver(old(View()), r, false)
      ensures currentStep > old(currentStep) || (Suspended() && pending.value.GetDefaultSettings?)
      ensures wds.profileList == old(wds.profileList)
    {
      var _ := Reclaim(r);
      wds.defaultFromModem := BLANK;
      wds.defaultCached := false;
      assert !r.ok || r.index.None? ==> VerdictOn(old(View()), r) == Stop(View());
      if !r.ok {
        JumpToLast(StageIndex());
        return;
      }
      if r.index.Some? {
        wds.defaultFromModem := wds.defaultFromModem.(id := r.index.value);
        var q := GetDefaultSettings(r.index.value);
        pending, log := Some(q), log + [Ask(q)];
      } else {
        JumpToLast(StageIndex());
      }
    }

    method OnDefaultSettings(r: Reply)
      requires Valid() && pending.Some? && pending.value.GetDefaultSettings?
      modifies this, wds, wds.profileList
      ensures Valid() && View() == Deliver(old(View()), r, false)
      ensures currentStep > old(currentStep) && wds.profileList == old(wds.profileList)
    {
      var _ := Reclaim(r);
      if !r.ok {
        JumpToLast(StageIndex());
        return;
      }
      wds.defaultFromModem := WithDefaultSettings(wds.defaultFromModem, r.settings);
      wds.defaultCached := true;
      Advance(StageIndex());
    }

    method OnProfileList(r: Reply)
      requires Valid() && pending.Some? && pending.value.GetProfileList?
      modifies this, wds, wds.profileList
      ensures Valid() && View() == Deliver(old(View()), r, false)
      ensures currentStep > old(currentStep) || (Suspended() && pending.value.GetEntrySettings?)
      ensures wds.profileList == old(wds.profileList) || fresh(wds.profileList)
    {
      var _ := Reclaim(r);
      if !r.ok || r.entries == [] {
        assert VerdictOn(old(View()), r) == MoveOn(WithoutList(View()));
        GiveUpList(StageIndex());
        return;
      }
      AdoptList(r.entries);
      assert VerdictOn(old(View()), r) == Walk(View(), entries, iteration);
      NextProfileSettings(StageIndex());
    }

    // The previous list is freed and room made for the new one.
    method AdoptList(list: seq<ListEntry>)
      requires Running() && wds.Valid()
      modifies this`entries, this`iteration, wds`profileCount, wds`profileList
      ensures wds.Valid() && entries == list && iteration == 0
      ensures fresh(wds.profileList) && wds.profileList.Length == |list| == wds.profileCount
      ensures View() == old(View()).(cache := old(View()).cache.(count := |list|, listing := Some(CellsOf(list))))
    {
      wds.profileCount := |list|;
      wds.profileList := new Profile[|list|](i requires 0 <= i < |list| => list[i].cell);
      entries, iteration := list, 0;
      assert wds.profileList[..] == CellsOf(list);
    }

    method OnEntrySettings(r: Reply)
      requires Valid() && pending.Some? && pending.value.GetEntrySettings?
      modifies this, wds, wds.profileList
      ensures Valid() && View() == Deliver(old(View()), r, false)
      ensures currentStep > old(currentStep)
              || (Suspended() && pending.value.GetEntrySettings? && iteration == old(iteration) + 1 && entries == old(entries))
      ensures wds.profileList == old(wds.profileList)
    {
      var _ := Reclaim(r);
      if !r.ok {
        assert VerdictOn(old(View()), r) == MoveOn(WithoutList(View()));
        GiveUpList(StageIndex());
        return;
      }
      StoreSettings(r.settings, r.stray);
      iteration := iteration + 1;
      assert VerdictOn(old(View()), r) == Walk(View(), entries, iteration);
      NextProfileSettings(StageIndex());
    }

    method StoreSettings(settings: Settings, stray: Stray)
      requires Running() && wds.Valid() && wds.profileList != null && iteration < wds.profileList.Length
      modifies wds.profileList
      ensures wds.Valid()
      ensures var cells := old(wds.profileList[..]);
              wds.View() == old(wds.View()).(
                listing := Some(cells[iteration := WithEntrySettings(cells[iteration], settings, stray)]))
    {
      ghost var cells := wds.profileList[..];
      wds.profileList[iteration] := WithEntrySettings(wds.profileList[iteration], settings, stray);
      assert wds.profileList[..] == cells[iteration := WithEntrySettings(cells[iteration], settings, stray)];
    }

    method NextProfileSettings(ghost stage: nat)
      requires Running() && wds.Valid() && InStep(stage) && Plan(op)[stage] == Collect
      requires wds.profileList != null && wds.profileList.Length == |entries| == wds.profileCount && iteration <= |entries|
      modifies this, wds`collectionDone, wds.profileList
      ensures Valid() && View() == NextEntry(old(View()), stage, old(entries), old(iteration), false)
      ensures currentStep > old(currentStep)
              || (Suspended() && pending.value.GetEntrySettings? && iteration == old(iteration) && entries == old(entries))
    {
      if iteration >= |entries| {
        wds.collectionDone := true;
        Advance(stage);
        return;
      }
      WriteHead(entries[iteration]);
      var q := GetEntrySettings(entries[iteration].index);
      pending, log := Some(q), log + [Ask(q)];
    }

    method WriteHead(entry: ListEntry)
      requires Running() && wds.Valid() && wds.profileList != null && iteration < wds.profileList.Length
      modifies wds.profileList
      ensures wds.Valid()
      ensures var cells := old(wds.profileList[..]);
              wds.View() == old(wds.View()).(
                listing := Some(cells[iteration := Headed(cells[iteration], entry, wds.defaultFromModem)]))
    {
      ghost var cells := wds.profileList[..];
      wds.profileList[iteration] := wds.profileList[iteration].(id := entry.index);
      if wds.defaultFromModem.id == wds.profileList[iteration].id {
        wds.profileList[iteration] := wds.profileList[iteration].(isDefault := true);
      } else {
        wds.profileList[iteration] := wds.profileList[iteration].(isDefault := false);
      }
      wds.profileList[iteration] := wds.profileList[iteration].(name := Printed(entry.name, entry.stray, NAME_SIZE), kind := KIND_3GPP);
      assert wds.profileList[..] == cells[iteration := Headed(cells[iteration], entry, wds.defaultFromModem)];
    }

    method GiveUpList(ghost stage: nat)
      requires Running() && wds.Valid() && InStep(stage)
      modifies this, wds, wds.profileList
      ensures Valid() && View() == Resume(WithoutList(old(View())), stage + 1, false)
      ensures currentStep > old(currentStep) && wds.profileList == old(wds.profileList)
    {
      wds.profileCount := 0;
      wds.collectionDone := true;
      Advance(stage);
    }

    method OnCreated(r: Reply)
      requires Valid() && pending.Some? && pending.value.CreateProfile?
      modifies this, wds, wds.profileList
      ensures Valid() && View() == Deliver(old(View()), r, false)
      ensures currentStep > old(currentStep) && wds.profileList == old(wds.profileList)
    {
      var _ := Reclaim(r);
      if r.ok && r.index.Some? {
        input := input.(id := r.index.value, kind := r.kind);
        Advance(StageIndex());
        return;
      }
      if callback {
        log := log + [Notify(NotReady)];
      }
      JumpToLast(StageIndex());
    }

    method OnDeleted(r: Reply)
      requires Valid() && pending.Some? && pending.value.DeleteProfile?
      modifies this, wds, wds.profileList
      ensures Valid() && View() == Deliver(old(View()), r, false)
      ensures currentStep > old(currentStep) && wds.profileList == old(wds.profileList)
    {
      var _ := Reclaim(r);
      if !r.ok {
        JumpToLast(StageIndex());
        return;
      }
      Advance(StageIndex());
    }

    method OnModified(r: Reply)
      requires Valid() && pending.Some? && pending.value.ModifyProfile?
      modifies this, wds, wds.profileList
      ensures Valid() && View() == Deliver(old(View()), r, false)
      ensures currentStep > old(currentStep) && wds.profileList == old(wds.profileList)
    {
      var _ := Reclaim(r);
      if !r.ok {
        JumpToLast(StageIndex());
        return;
      }
      Advance(StageIndex());
    }

    method OnDefaultSet(r: Reply)
      requires Valid() && pending.Some? && pending.value.SetDefault?
      modifies this, wds, wds.profileList
      ensures Valid() && View() == Deliver(old(View()), r, false)
      ensures currentStep > old(currentStep) && wds.profileList == old(wds.profileList)
    {
      var _ := Reclaim(r);
      if !r.ok {
        JumpToLast(StageIndex());
        return;
      }
      wds.defaultFromModem := input;
      Advance(StageIndex());
    }

    /**
     The completion of whatever request holds the task, by the callback it was sent with. The step
     counter is strictly larger whenever the switch was entered again.
     */
    method Complete(r: Reply)
      requires Valid() && pending.Some?
      modifies this, wds, wds.profileList
      ensures Valid() && View() == Deliver(old(View()), r, false)
      ensures currentStep > old(currentStep)
              || (Suspended() && currentStep == old(currentStep)
                  && (pending.value.GetDefaultSettings? || pending.value.GetEntrySettings?))
      ensures wds.profileList == old(wds.profileList) || fresh(wds.profileList)
    {
      match pending.value {
        case AllocateClient => OnClientAllocated(r);
        case GetDefaultNumber => OnDefaultNumber(r);
        case GetDefaultSettings(_) => OnDefaultSettings(r);
        case GetProfileList(_) => OnProfileList(r);
        case GetEntrySettings(_) => OnEntrySettings(r);
        case CreateProfile(_) => OnCreated(r);
        case ModifyProfile(_, _) => OnModified(r);
        case DeleteProfile(_) => OnDeleted(r);
        case SetDefault(_, _) => OnDefaultSet(r);
      }
    }

    /** The task from its creation to the point where the modem has answered all it will answer. */
    method Run(replies: seq<Reply>)
      requires Running() && wds.Valid() && currentStep == First(op) && log == [] && !present
      modifies this, wds, wds.profileList
      ensures Valid()
      ensures View() == ProfileProtocol.Run(Begin(old(wds.View()), Task(op, old(input), false, callback)), replies, false)
    {
      if op == List {
        wds.collectionDone := false;
      }
      Step();
      Drive(replies);
    }

    method Drive(replies: seq<Reply>)
      requires Valid()
      modifies this, wds, wds.profileList
      ensures Valid() && View() == ProfileProtocol.Run(old(View()), replies, false)
      ensures wds.profileList == old(wds.profileList) || fresh(wds.profileList)
    {
      var k := 0;
      while k < |replies| && pending.Some?
        invariant 0 <= k <= |replies| && Valid()
        invariant wds.profileList == old(wds.profileList) || fresh(wds.profileList)
        invariant ProfileProtocol.Run(View(), replies[k..], false) == ProfileProtocol.Run(old(View()), replies, false)
      {
        assert replies[k..][1..] == replies[k + 1..];
        Complete(replies[k]);
        k := k + 1;
      }
    }
  }
}
