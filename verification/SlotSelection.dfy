/** Which SIM slot is in use: what one slot-status pass does, and what its consumer hears over many. */
module SlotSelection {
  import opened CText
  import opened Wrappers
  import Bcd

  const UNKNOWN := -1

  datatype CardState = CardUnknown | Absent | Present

  datatype SlotStatus = SlotStatus(active: bool, card: CardState, iccid: seq<Byte>)

  datatype SlotInfo = SlotInfo(
    active: bool,
    cardPresent: bool,
    cardEnabled: bool,
    iccid: string,
    euicc: bool,
    eid: string)

  const ZEROED := SlotInfo(false, false, false, "", false, "")

  datatype Notice = Ready(slot: int) | NotReady

  predicate Usable(status: SlotStatus) {
    status.active && status.card == Present && status.iccid != []
  }

  predicate InRange(selected: int, slots: nat) {
    selected == UNKNOWN || 1 <= selected <= slots
  }

  // The number of the first usable slot whose index is at least from.
  function FirstUsable(statuses: seq<SlotStatus>, from: nat): (slot: int)
    requires from <= |statuses|
    ensures slot == UNKNOWN || (from < slot <= |statuses| && Usable(statuses[slot - 1]))
    ensures forall i :: from <= i < (if slot == UNKNOWN then |statuses| else slot - 1) ==> !Usable(statuses[i])
    decreases |statuses| - from
  {
    if from == |statuses| then UNKNOWN
    else if Usable(statuses[from]) then from + 1
    else FirstUsable(statuses, from + 1)
  }

  // The slot in use after a pass. With a callback a lost slot is given up first, and another one found by a later pass; a
  // slot the pass says nothing about stays.
  function Chosen(statuses: seq<SlotStatus>, selected: int, callback: bool): int
    requires selected == UNKNOWN || selected >= 1
  {
    if selected == UNKNOWN then FirstUsable(statuses, 0)
    else if selected > |statuses| then selected
    else if Usable(statuses[selected - 1]) then selected
    else if callback then UNKNOWN
    else FirstUsable(statuses, selected)
  }

  function Notices(before: int, after: int, callback: bool): seq<Notice> {
    if !callback then []
    else if before == UNKNOWN && after != UNKNOWN then [Ready(after)]
    else if before != UNKNOWN && after == UNKNOWN then [NotReady]
    else []
  }

  // A list from the modem that does not go with the slots is as good as none.
  function Matching<T>(list: Option<seq<T>>, slots: nat): (r: Option<seq<T>>)
    ensures r.Some? ==> |r.value| == slots
  {
    if list.Some? && |list.value| == slots then list else None
  }

  function EidText(eid: seq<Byte>): string {
    CString(Bcd.Decoded(Bcd.Swapped(eid)))
  }

  // What a pass makes of the record of one slot; without a card the old texts stay.
  function Refreshed(was: SlotInfo, status: SlotStatus, euicc: Option<bool>, eid: Option<seq<Byte>>): SlotInfo {
    var present := status.card == Present;
    var info := was.(active := status.active, cardPresent := present, cardEnabled := present);
    if !present then info
    else
      var named := info.(iccid := CString(Bcd.Decoded(status.iccid)));
      if euicc.None? then named
      else
        var typed := named.(euicc := euicc.value);
        if !euicc.value || eid.None? then typed else typed.(eid := EidText(eid.value))
  }

  function At<T>(list: Option<seq<T>>, i: nat): Option<T>
    requires list.Some? ==> i < |list.value|
  {
    if list.Some? then Some(list.value[i]) else None
  }

  // An EID is read only from an eUICC that is there; the decoder must then know its length.
  predicate EidReadable(status: SlotStatus, euicc: Option<bool>, eid: Option<seq<Byte>>) {
    status.card == Present && euicc == Some(true) && eid.Some? ==> |eid.value| in {0, Bcd.EID_LENGTH}
  }

  ghost predicate EidsReadable(statuses: seq<SlotStatus>, ext: Option<seq<bool>>, eids: Option<seq<seq<Byte>>>)
    requires ext.Some? ==> |ext.value| == |statuses|
    requires eids.Some? ==> |eids.value| == |statuses|
  {
    forall i :: 0 <= i < |statuses| ==> EidReadable(statuses[i], At(ext, i), At(eids, i))
  }

  // One turn of the loop over the slots, on the record it points at.
  method Refresh(was: SlotInfo, status: SlotStatus, euicc: Option<bool>, eid: Option<seq<Byte>>) returns (info: SlotInfo)
    requires EidReadable(status, euicc, eid)
    ensures info == Refreshed(was, status, euicc, eid)
  {
    info := was.(active := false);
    if status.active {
      info := info.(active := true);
    }
    if status.card != Present {
      info := info.(cardPresent := false, cardEnabled := false);
      return;
    }
    info := info.(cardPresent := true, cardEnabled := true);
    info := info.(iccid := "");
    if status.iccid != [] {
      var iccid := Bcd.DecodeIccid(Some(status.iccid));
      info := info.(iccid := CString(iccid.value));
    }
    if euicc.None? {
      return;
    }
    info := info.(euicc := false);
    if euicc.value {
      info := info.(euicc := true);
    }
    if !euicc.value || eid.None? {
      return;
    }
    info := info.(eid := "");
    if eid.value != [] {
      var text := Bcd.DecodeEid(eid);
      info := info.(eid := CString(text.value));
    }
  }

  // The loop over the slots, in place.
  method Fill(slots: array<SlotInfo>, statuses: seq<SlotStatus>, ext: Option<seq<bool>>, eids: Option<seq<seq<Byte>>>)
    requires slots.Length >= |statuses|
    requires ext.Some? ==> |ext.value| == |statuses|
    requires eids.Some? ==> |eids.value| == |statuses|
    requires EidsReadable(statuses, ext, eids)
    modifies slots
    ensures forall i :: |statuses| <= i < slots.Length ==> slots[i] == old(slots[i])
    ensures forall i :: 0 <= i < |statuses| ==> slots[i] == Refreshed(old(slots[i]), statuses[i], At(ext, i), At(eids, i))
  {
    var i := 0;
    while i < |statuses|
      invariant 0 <= i <= |statuses|
      invariant forall k :: 0 <= k < i ==> slots[k] == Refreshed(old(slots[k]), statuses[k], At(ext, k), At(eids, k))
      invariant forall k :: i <= k < slots.Length ==> slots[k] == old(slots[k])
    {
      var info := Refresh(slots[i], statuses[i], At(ext, i), At(eids, i));
      slots[i] := info;
      i := i + 1;
    }
  }

  class UimContext {
    var slots: array?<SlotInfo>
    var selected: int
    var notices: seq<Notice>

    constructor ()
      ensures Valid() && slots == null && selected == UNKNOWN && notices == []
    {
      slots, selected, notices := null, UNKNOWN, [];
    }

    ghost predicate Valid()
      reads this
    {
      if slots == null then selected == UNKNOWN else InRange(selected, slots.Length)
    }

    // The choice of the slot, with the early exits the callback brings.
    method Select(statuses: seq<SlotStatus>, callback: bool)
      requires selected == UNKNOWN || selected >= 1
      modifies this`selected, this`notices
      ensures selected == Chosen(statuses, old(selected), callback)
      ensures notices == old(notices) + Notices(old(selected), selected, callback)
    {
      var i := 0;
      while i < |statuses|
        invariant 0 <= i <= |statuses|
        invariant (selected == UNKNOWN || selected >= 1) && notices == old(notices)
        invariant selected == UNKNOWN ==>
                    FirstUsable(statuses, i) == Chosen(statuses, old(selected), callback)
        invariant selected == UNKNOWN && callback ==> old(selected) == UNKNOWN
        invariant selected != UNKNOWN && i < selected ==> selected == old(selected)
        invariant selected != UNKNOWN && selected <= i ==> selected == Chosen(statuses, old(selected), callback)
        invariant selected != UNKNOWN && callback ==> selected == old(selected)
      {
        var status := statuses[i];
        if selected == UNKNOWN {
          if status.active && status.card == Present && status.iccid != [] {
            selected := i + 1;
            if callback {
              notices := notices + [Ready(selected)];
              break;
            }
          }
        } else {
          if selected == i + 1 {
            if !status.active || status.card != Present || status.iccid == [] {
              selected := UNKNOWN;
              if callback {
                notices := notices + [NotReady];
                break;
              }
            }
          }
        }
        i := i + 1;
      }
    }

    /** One slot-status pass, over no more slots than the first one had. */
    method Pass(statuses: seq<SlotStatus>, information: Option<seq<bool>>, eids: Option<seq<seq<Byte>>>, callback: bool)
      requires Valid() && (slots != null ==> slots.Length >= |statuses|)
      requires EidsReadable(statuses, Matching(information, |statuses|), Matching(eids, |statuses|))
      modifies this, if slots == null then {} else {slots}
      ensures Valid() && slots != null
      ensures if old(slots) == null then fresh(slots) && slots.Length == |statuses| else slots == old(slots)
      ensures var ext, ids := Matching(information, |statuses|), Matching(eids, |statuses|);
              forall i :: 0 <= i < |statuses| ==>
                slots[i] == Refreshed(if old(slots) == null then ZEROED else old(slots[..])[i],
                                      statuses[i], At(ext, i), At(ids, i))
      ensures old(slots) != null ==> forall i :: |statuses| <= i < slots.Length ==> slots[i] == old(slots[..])[i]
      ensures selected == Chosen(statuses, old(selected), callback)
      ensures notices == old(notices) + Notices(old(selected), selected, callback)
    {
      var ext, ids := information, eids;
      if ext.Some? && |statuses| != |ext.value| {
        ext := None;
      }
      if ids.Some? && |statuses| != |ids.value| {
        ids := None;
      }
      if slots == null {
        slots := new SlotInfo[|statuses|](_ => ZEROED);
      }
      Fill(slots, statuses, ext, ids);
      Select(statuses, callback);
    }

    /** What other calls read through the selection: never outside the slots. */
    method CardStatus() returns (valid: bool)
      requires Valid()
      ensures valid <==> selected != UNKNOWN && slots != null && slots[selected - 1].cardEnabled
    {
      valid := false;
      if selected != UNKNOWN {
        valid := slots[selected - 1].cardEnabled;
      }
    }
  }

  // ---- What one pass does ----

  // The state of a run: the selection, and all that was told.
  datatype Selection = Selection(selected: int, told: seq<Notice>)

  function After(s: Selection, statuses: seq<SlotStatus>, callback: bool): Selection
    requires s.selected == UNKNOWN || s.selected >= 1
  {
    var now := Chosen(statuses, s.selected, callback);
    Selection(now, s.told + Notices(s.selected, now, callback))
  }

  lemma FirstUsableFrom(statuses: seq<SlotStatus>, from: nat, slot: int)
    requires from <= |statuses|
    ensures FirstUsable(statuses, from) == slot
            <==>
            if slot == UNKNOWN then forall i :: from <= i < |statuses| ==> !Usable(statuses[i])
            else from < slot <= |statuses| && Usable(statuses[slot - 1]) && forall i :: from <= i < slot - 1 ==> !Usable(statuses[i])
  {
    var first := FirstUsable(statuses, from);
    if first != slot && slot != UNKNOWN && first != UNKNOWN && from < slot <= |statuses| {
      if slot < first { assert !Usable(statuses[slot - 1]); } else { assert Usable(statuses[first - 1]); }
    }
  }

  /**
   A pass that finds no slot selected takes the first that is active and has a card and an ICCID, and leaves none selected
   exactly if there is none; a callback hears of the slot taken, and of nothing else.
   */
  lemma UnknownPassExactly(statuses: seq<SlotStatus>, callback: bool, told: seq<Notice>)
    ensures var s := After(Selection(UNKNOWN, told), statuses, callback);
            && (s.selected == UNKNOWN
                <==> forall i :: 0 <= i < |statuses| ==>
                       !(statuses[i].active && statuses[i].card == Present && statuses[i].iccid != []))
            && (forall k :: 0 <= k < |statuses| ==>
                  (s.selected == k + 1
                   <==>
                   && statuses[k].active && statuses[k].card == Present && statuses[k].iccid != []
                   && forall i :: 0 <= i < k ==>
                        !(statuses[i].active && statuses[i].card == Present && statuses[i].iccid != [])))
            && (s.selected == UNKNOWN || 1 <= s.selected <= |statuses|)
            && s.told == if callback && s.selected != UNKNOWN then told + [Ready(s.selected)] else told
  {
    FirstUsableFrom(statuses, 0, UNKNOWN);
    forall k | 0 <= k < |statuses|
      ensures FirstUsable(statuses, 0) == k + 1
              <==> Usable(statuses[k]) && forall i :: 0 <= i < k ==> !Usable(statuses[i])
    {
      FirstUsableFrom(statuses, 0, k + 1);
    }
  }

  /**
   A pass that finds a slot selected keeps it, and says nothing, exactly if it is still active with a card and an ICCID;
   with a callback it otherwise gives it up and says NOT_READY, no more. A slot the pass does not report stays.
   */
  lemma SelectedPassExactly(statuses: seq<SlotStatus>, selected: int, callback: bool, told: seq<Notice>)
    requires selected >= 1
    ensures var s := After(Selection(selected, told), statuses, callback);
            if selected > |statuses| then s == Selection(selected, told)
            else
              var status := statuses[selected - 1];
              && (s == Selection(selected, told) <==> status.active && status.card == Present && status.iccid != [])
              && (callback ==>
                    (s == Selection(UNKNOWN, told + [NotReady])
                     <==> !(status.active && status.card == Present && status.iccid != [])))
              && (!callback ==> s.told == told)
  {
    var s := After(Selection(selected, told), statuses, callback);
    if selected <= |statuses| && !Usable(statuses[selected - 1]) {
      assert s.selected != selected;
    }
    assert told + [NotReady] != told;
  }

  /**
   Without a callback a slot lost in a pass is replaced in the same pass by the first usable one behind it, and by none
   exactly if there is none behind it.
   */
  lemma LostSlotExactly(statuses: seq<SlotStatus>, selected: int, told: seq<Notice>)
    requires 1 <= selected <= |statuses|
    requires !(statuses[selected - 1].active && statuses[selected - 1].card == Present && statuses[selected - 1].iccid != [])
    ensures var s := After(Selection(selected, told), statuses, false);
            && (s.selected == UNKNOWN
                <==> forall i :: selected <= i < |statuses| ==>
                       !(statuses[i].active && statuses[i].card == Present && statuses[i].iccid != []))
            && (forall k :: 0 <= k < |statuses| ==>
                  (s.selected == k + 1
                   <==>
                   && selected <= k && statuses[k].active && statuses[k].card == Present && statuses[k].iccid != []
                   && forall i :: selected <= i < k ==>
                        !(statuses[i].active && statuses[i].card == Present && statuses[i].iccid != [])))
  {
    FirstUsableFrom(statuses, selected, UNKNOWN);
    forall k | 0 <= k < |statuses|
      ensures FirstUsable(statuses, selected) == k + 1
              <==> selected <= k && Usable(statuses[k]) && forall i :: selected <= i < k ==> !Usable(statuses[i])
    {
      FirstUsableFrom(statuses, selected, k + 1);
    }
  }

  /** The record of a slot after a pass, field by field. */
  lemma RefreshedExactly(was: SlotInfo, status: SlotStatus, euicc: Option<bool>, eid: Option<seq<Byte>>)
    ensures var info, present := Refreshed(was, status, euicc, eid), status.card == Present;
            && info.active == status.active && info.cardPresent == present && info.cardEnabled == present
            && info.iccid == (if present then CString(Bcd.Decoded(status.iccid)) else was.iccid)
            && info.euicc == (if present && euicc.Some? then euicc.value else was.euicc)
            && info.eid == if present && euicc == Some(true) && eid.Some? then CString(Bcd.Decoded(Bcd.Swapped(eid.value)))
                           else was.eid
  {
  }

  // ---- Over a run of passes ----

  /**
   After every pass the selection is unknown or, unless the pass said nothing about it, one of its slots, active, with a
   card and an ICCID; and its refreshed record says so.
   */
  lemma ChosenIsUsable(statuses: seq<SlotStatus>, selected: int, callback: bool, was: SlotInfo,
                       euicc: Option<bool>, eid: Option<seq<Byte>>)
    requires selected == UNKNOWN || selected >= 1
    ensures var now := Chosen(statuses, selected, callback);
            && (now > |statuses| ==> now == selected)
            && (now == UNKNOWN || now >= 1)
            && (1 <= now <= |statuses| ==>
                  var info := Refreshed(was, statuses[now - 1], euicc, eid);
                  && Usable(statuses[now - 1])
                  && info.active && info.cardPresent && info.cardEnabled
                  && info.iccid == CString(Bcd.Decoded(statuses[now - 1].iccid)))
  {
  }

  // Passes over no more slots than there are.
  predicate Passes(passes: seq<seq<SlotStatus>>, slots: nat) {
    forall i :: 0 <= i < |passes| ==> |passes[i]| <= slots
  }

  function Run(s: Selection, passes: seq<seq<SlotStatus>>, slots: nat, callback: bool): (r: Selection)
    requires InRange(s.selected, slots) && Passes(passes, slots)
    ensures InRange(r.selected, slots)
    decreases |passes|
  {
    if passes == [] then s else Run(After(s, passes[0], callback), passes[1..], slots, callback)
  }

  // READY and NOT_READY in turn, and the last one heard names the slot in use.
  predicate Alternating(s: Selection) {
    && (forall i :: 0 <= i < |s.told| ==> s.told[i].Ready? == (i % 2 == 0))
    && (if s.told == [] || s.told[|s.told| - 1].NotReady? then s.selected == UNKNOWN
        else s.told[|s.told| - 1] == Ready(s.selected) && s.selected != UNKNOWN)
  }

  lemma {:induction false} PassesAlternate(s: Selection, passes: seq<seq<SlotStatus>>, slots: nat)
    requires InRange(s.selected, slots) && Passes(passes, slots) && Alternating(s)
    ensures Alternating(Run(s, passes, slots, true))
    decreases |passes|
  {
    if passes != [] {
      var next := After(s, passes[0], true);
      assert |next.told| <= |s.told| + 1;
      PassesAlternate(next, passes[1..], slots);
    }
  }

  /**
   With a callback the notifications of any run of passes alternate, starting with READY, and at its end the last one
   tells the slot in use: a selection never moves to another slot without a NOT_READY in between.
   */
  lemma NoticesAlternate(passes: seq<seq<SlotStatus>>, slots: nat)
    requires Passes(passes, slots)
    ensures Alternating(Run(Selection(UNKNOWN, []), passes, slots, true))
  {
    PassesAlternate(Selection(UNKNOWN, []), passes, slots);
  }

  // Passes over all the slots.
  predicate FullPasses(passes: seq<seq<SlotStatus>>, slots: nat) {
    forall i :: 0 <= i < |passes| ==> |passes[i]| == slots
  }

  /** While the slot count stays, the selection at the end of a run of passes is unknown or usable by its last pass. */
  lemma {:induction false} RunIsUsable(s: Selection, passes: seq<seq<SlotStatus>>, slots: nat, callback: bool)
    requires InRange(s.selected, slots) && FullPasses(passes, slots) && passes != []
    ensures var now := Run(s, passes, slots, callback).selected;
            now == UNKNOWN || Usable(passes[|passes| - 1][now - 1])
    decreases |passes|
  {
    var next := After(s, passes[0], callback);
    if |passes| > 1 {
      RunIsUsable(next, passes[1..], slots, callback);
    } else {
      assert Run(next, passes[1..], slots, callback) == next;
    }
  }

  /** Without a callback nothing is told, and a lost slot is replaced by a later one in the pass that loses it. */
  lemma SilentMove(statuses: seq<SlotStatus>, selected: int, other: nat)
    requires 1 <= selected < other <= |statuses|
    requires !Usable(statuses[selected - 1]) && Usable(statuses[other - 1])
    ensures var s := After(Selection(selected, []), statuses, false);
            s.told == [] && selected < s.selected <= other && Usable(statuses[s.selected - 1])
  {
  }
}
