/** Proposer duties: the housekeeper writes the registered duties of two epochs to Redis, the
    API copies them to memory, each on its own refresh schedule. Epochs are those of the
    Ethereum consensus specification (phase 0 beacon chain, compute_epoch_at_slot). */
module ProposerDuties {
  import opened RelayTypes

  const SlotsPerEpoch := 32
  const Uint64 := 0x1_0000_0000_0000_0000

  datatype Message = Message(feeRecipient: Hash, gasLimit: nat)
  datatype BeaconDuty = BeaconDuty(slot: nat, pubkey: Pubkey)
  datatype DutyEntry = DutyEntry(slot: nat, message: Message)

  // The proposer of every slot, and the registrations in the database at some moment.
  type Proposers = nat -> Pubkey
  type Registered = map<Pubkey, Message>

  function EpochOf(slot: nat): nat { slot / SlotsPerEpoch }

  // A beacon node's answer for one epoch.
  function DutiesOfEpoch(proposer: Proposers, epoch: nat): (ds: seq<BeaconDuty>)
    ensures |ds| == SlotsPerEpoch
    ensures forall i :: 0 <= i < SlotsPerEpoch ==> ds[i] == BeaconDuty(epoch * SlotsPerEpoch + i, proposer(epoch * SlotsPerEpoch + i))
  {
    seq(SlotsPerEpoch, i requires 0 <= i < SlotsPerEpoch =>
      BeaconDuty(epoch * SlotsPerEpoch + i, proposer(epoch * SlotsPerEpoch + i)))
  }

  // Unsigned 64-bit difference, as both services compute it.
  function Lag(head: nat, last: nat): nat { (head - last) % Uint64 }

  predicate HousekeeperSkips(head: nat, last: nat) {
    head % (SlotsPerEpoch / 2) != 0 && Lag(head, last) < SlotsPerEpoch / 2
  }

  predicate ApiSkips(head: nat, last: nat) { head % 8 != 0 && Lag(head, last) < 8 }

  // Entries for exactly those slots from `first` up to `end` whose proposer is registered.
  ghost predicate ListsSlots(entries: seq<DutyEntry>, proposer: Proposers, regs: Registered, first: nat, end: nat) {
    && (forall i :: 0 <= i < |entries| ==>
         var slot := entries[i].slot;
         first <= slot < end && proposer(slot) in regs && entries[i].message == regs[proposer(slot)])
    && (forall slot :: first <= slot < end && proposer(slot) in regs ==>
         exists i :: 0 <= i < |entries| && entries[i].slot == slot)
  }

  // The list of an epoch and the next.
  ghost predicate IsDutyList(entries: seq<DutyEntry>, proposer: Proposers, regs: Registered, epoch: nat) {
    ListsSlots(entries, proposer, regs, epoch * SlotsPerEpoch, (epoch + 2) * SlotsPerEpoch)
  }

  // What the calls of a refresh bring: whether each epoch's duties could be had from a beacon
  // node, the registrations, and whether the list could be stored.
  datatype Calls = Calls(current: bool, next: bool, regs: Option<Registered>, stored: bool)

  class Housekeeper {
    var proposerDutiesSlot: nat
    var redisDuties: seq<DutyEntry>      // the duties key in Redis

    // Duties of the next epoch may be missing; every other failing call leaves things as they
    // are, to be tried again with the next head.
    method UpdateProposerDuties(head: nat, proposer: Proposers, calls: Calls) returns (wrote: bool)
      modifies this
      ensures wrote <==>
        && (head % 16 == 0 || (head - old(proposerDutiesSlot)) % 0x1_0000_0000_0000_0000 >= 16)
        && calls.current && calls.regs.Some? && calls.stored
      ensures wrote ==> proposerDutiesSlot == head && ListsSlots(redisDuties, proposer, calls.regs.value,
        head / 32 * 32, head / 32 * 32 + if calls.next then 64 else 32)
      ensures !wrote ==> proposerDutiesSlot == old(proposerDutiesSlot) && redisDuties == old(redisDuties)
    {
      if head % (SlotsPerEpoch / 2) != 0 && Lag(head, proposerDutiesSlot) < SlotsPerEpoch / 2 {
        return false;
      }
      var epoch := EpochOf(head);
      if !calls.current {
        return false;
      }
      var entries := DutiesOfEpoch(proposer, epoch);
      if calls.next {
        entries := entries + DutiesOfEpoch(proposer, epoch + 1);
      }
      if calls.regs.None? {
        return false;
      }
      assert forall i :: 0 <= i < |entries| ==>
        entries[i] == BeaconDuty(epoch * SlotsPerEpoch + i, proposer(epoch * SlotsPerEpoch + i));
      var duties := RegisteredDuties(entries, proposer, calls.regs.value, epoch * SlotsPerEpoch);
      if !calls.stored {
        return false;
      }
      redisDuties := duties;
      proposerDutiesSlot := head;
      return true;
    }
  }

  // The duties of consecutive slots whose proposer is registered, in order.
  method RegisteredDuties(entries: seq<BeaconDuty>, proposer: Proposers, regs: Registered, first: nat)
    returns (duties: seq<DutyEntry>)
    requires forall i :: 0 <= i < |entries| ==> entries[i] == BeaconDuty(first + i, proposer(first + i))
    ensures ListsSlots(duties, proposer, regs, first, first + |entries|)
  {
    duties := [];
    for i := 0 to |entries|
      invariant ListsSlots(duties, proposer, regs, first, first + i)
    {
      var duty := entries[i];
      if duty.pubkey in regs {
        OneMoreDuty(duties, proposer, regs, first, first + i);
        duties := duties + [DutyEntry(duty.slot, regs[duty.pubkey])];
      }
    }
  }

  lemma OneMoreDuty(duties: seq<DutyEntry>, proposer: Proposers, regs: Registered, first: nat, slot: nat)
    requires ListsSlots(duties, proposer, regs, first, slot) && first <= slot && proposer(slot) in regs
    ensures ListsSlots(duties + [DutyEntry(slot, regs[proposer(slot)])], proposer, regs, first, slot + 1)
  {
    var more := duties + [DutyEntry(slot, regs[proposer(slot)])];
    forall x | first <= x < slot + 1 && proposer(x) in regs ensures exists i :: 0 <= i < |more| && more[i].slot == x {
      if x == slot {
        assert more[|duties|].slot == slot;
      } else {
        var i :| 0 <= i < |duties| && duties[i].slot == x;
        assert more[i].slot == x;
      }
    }
  }

  // The map of a duty list: later entries of a slot overwrite earlier ones.
  function DutyMap(entries: seq<DutyEntry>): map<nat, Message> {
    if entries == [] then map[]
    else DutyMap(entries[..|entries| - 1])[entries[|entries| - 1].slot := entries[|entries| - 1].message]
  }

  class ApiDuties {
    var proposerDutiesSlot: nat
    var proposerDutiesMap: map<nat, Message>

    // A list that cannot be read leaves the duties as they are.
    method UpdateProposerDuties(head: nat, stored: Option<seq<DutyEntry>>) returns (read: bool)
      modifies this
      ensures read <==>
        && (head % 8 == 0 || (head - old(proposerDutiesSlot)) % 0x1_0000_0000_0000_0000 >= 8)
        && stored.Some?
      ensures read ==> proposerDutiesSlot == head && proposerDutiesMap == DutyMap(stored.value)
      ensures !read ==> proposerDutiesSlot == old(proposerDutiesSlot) && proposerDutiesMap == old(proposerDutiesMap)
    {
      if head % 8 != 0 && Lag(head, proposerDutiesSlot) < 8 {
        return false;
      }
      if stored.None? {
        return false;
      }
      var redisDuties := stored.value;
      var dutiesMap: map<nat, Message> := map[];
      for i := 0 to |redisDuties|
        invariant dutiesMap == DutyMap(redisDuties[..i])
      {
        dutiesMap := dutiesMap[redisDuties[i].slot := redisDuties[i].message];
        assert redisDuties[..i + 1][..i] == redisDuties[..i];
      }
      assert redisDuties[..|redisDuties|] == redisDuties;
      proposerDutiesMap := dutiesMap;
      proposerDutiesSlot := head;
      return true;
    }
  }

  // The map of a duty list holds exactly the registered slots of its two epochs.
  lemma {:induction false} DutyMapKeys(entries: seq<DutyEntry>, slot: nat)
    ensures slot in DutyMap(entries) <==> exists i :: 0 <= i < |entries| && entries[i].slot == slot
    ensures slot in DutyMap(entries) ==> exists i :: 0 <= i < |entries| && entries[i] == DutyEntry(slot, DutyMap(entries)[slot])
  {
    if entries != [] {
      var before, last := entries[..|entries| - 1], entries[|entries| - 1];
      DutyMapKeys(before, slot);
      if i :| 0 <= i < |before| && before[i].slot == slot {
        assert entries[i].slot == slot;
      }
      if slot in DutyMap(entries) {
        if last.slot == slot {
          assert entries[|entries| - 1] == DutyEntry(slot, DutyMap(entries)[slot]);
        } else {
          var i :| 0 <= i < |before| && before[i] == DutyEntry(slot, DutyMap(before)[slot]);
          assert entries[i] == DutyEntry(slot, DutyMap(entries)[slot]);
        }
      }
    }
  }

  lemma DutyMapOfList(entries: seq<DutyEntry>, proposer: Proposers, regs: Registered, epoch: nat, slot: nat)
    requires IsDutyList(entries, proposer, regs, epoch) && EpochOf(slot) in {epoch, epoch + 1}
    ensures slot in DutyMap(entries) <==> proposer(slot) in regs
    ensures slot in DutyMap(entries) ==> DutyMap(entries)[slot] == regs[proposer(slot)]
  {
    DutyMapKeys(entries, slot);
  }

  // ----- both services over a sequence of heads -----

  // `written` is the head of the write Redis holds and `regs` the registrations it used;
  // `seen` are the registrations behind the list the API copied. Before any write: None.
  datatype Services = Services(
    hkSlot: nat, redis: seq<DutyEntry>, written: Option<(nat, Registered)>,
    apiSlot: nat, api: map<nat, Message>, seen: Option<(nat, Registered)>)

  // Heads with the registrations in the database when the housekeeper handles them.
  datatype HeadEvent = HeadEvent(slot: nat, regs: Registered)

  // The housekeeper handles the head, then the API does; beacon node and stores answer.
  ghost predicate Handles(s: Services, h: HeadEvent, proposer: Proposers, s': Services) {
    && (if HousekeeperSkips(h.slot, s.hkSlot) then
          s'.hkSlot == s.hkSlot && s'.redis == s.redis && s'.written == s.written
        else
          s'.hkSlot == h.slot && s'.written == Some((h.slot, h.regs)) && IsDutyList(s'.redis, proposer, h.regs, EpochOf(h.slot)))
    && (if ApiSkips(h.slot, s.apiSlot) then
          s'.apiSlot == s.apiSlot && s'.api == s.api && s'.seen == s.seen
        else
          s'.apiSlot == h.slot && s'.api == DutyMap(s'.redis) && s'.seen == s'.written)
  }

  ghost predicate IsRun(ss: seq<Services>, hs: seq<HeadEvent>, proposer: Proposers) {
    && |ss| == |hs| + 1
    && ss[0] == Services(0, [], None, 0, map[], None)
    && (forall i :: 0 <= i < |hs| ==> 0 < hs[i].slot < Uint64 && Handles(ss[i], hs[i], proposer, ss[i + 1]))
    && (forall i, j :: 0 <= i < j < |hs| ==> hs[i].slot < hs[j].slot)
  }

  // What both schedules guarantee once a head has been handled: the housekeeper's last write
  // is less than 16 slots old, the API's copy less than 8, and the copy's source less than 16
  // slots older than the copy. Heads below 16 write nothing.
  ghost predicate Timely(s: Services, head: nat) {
    && s.hkSlot <= head < s.hkSlot + 16 && s.apiSlot <= head < s.apiSlot + 8
    && (s.written.Some? <==> s.hkSlot > 0) && (s.hkSlot > 0 <==> head >= 16)
    && (s.written.Some? ==> s.written.value.0 == s.hkSlot)
    && (s.written.None? ==> s.redis == [])
    && (s.seen.Some? <==> s.apiSlot >= 16)
    && (s.seen.Some? ==> s.seen.value.0 <= s.apiSlot < s.seen.value.0 + 16)
  }

  ghost predicate Copied(s: Services, proposer: Proposers) {
    && (s.written.Some? ==> IsDutyList(s.redis, proposer, s.written.value.1, EpochOf(s.written.value.0)))
    && match s.seen
       case None => s.api == map[]
       case Some(w) => forall slot :: EpochOf(slot) in {EpochOf(w.0), EpochOf(w.0) + 1} ==>
         && (slot in s.api <==> proposer(slot) in w.1)
         && (slot in s.api ==> s.api[slot] == w.1[proposer(slot)])
  }

  lemma HandleKeepsTimely(s: Services, h: HeadEvent, proposer: Proposers, s': Services)
    requires Handles(s, h, proposer, s') && 0 < h.slot < Uint64
    requires s == Services(0, [], None, 0, map[], None) || exists head: nat :: head < h.slot && Timely(s, head)
    ensures Timely(s', h.slot)
  {
    assert Lag(h.slot, s.hkSlot) == h.slot - s.hkSlot && Lag(h.slot, s.apiSlot) == h.slot - s.apiSlot;
  }

  lemma HandleKeepsCopied(s: Services, h: HeadEvent, proposer: Proposers, s': Services)
    requires Handles(s, h, proposer, s') && Copied(s, proposer)
    requires s'.written.None? ==> s'.redis == []
    ensures Copied(s', proposer)
  {
    if !ApiSkips(h.slot, s.apiSlot) && s'.written.Some? {
      var w := s'.written.value;
      forall slot | EpochOf(slot) in {EpochOf(w.0), EpochOf(w.0) + 1}
        ensures slot in s'.api <==> proposer(slot) in w.1
        ensures slot in s'.api ==> s'.api[slot] == w.1[proposer(slot)]
      {
        DutyMapOfList(s'.redis, proposer, w.1, EpochOf(w.0), slot);
      }
    }
  }

  lemma {:induction false} RunIsTimely(ss: seq<Services>, hs: seq<HeadEvent>, proposer: Proposers, n: nat)
    requires IsRun(ss, hs, proposer) && 0 < n <= |hs|
    ensures Timely(ss[n], hs[n - 1].slot) && Copied(ss[n], proposer)
    ensures ss[n].apiSlot >= ss[n - 1].apiSlot
  {
    assert Handles(ss[n - 1], hs[n - 1], proposer, ss[n]);
    if n > 1 {
      RunIsTimely(ss, hs, proposer, n - 1);
    }
    HandleKeepsTimely(ss[n - 1], hs[n - 1], proposer, ss[n]);
    HandleKeepsCopied(ss[n - 1], hs[n - 1], proposer, ss[n]);
  }

  // Which heads refresh: every multiple of 16 and every head 16 or more past the last write,
  // for the copy every multiple of 8 and every head 8 or more past the last copy, and no other.
  lemma RefreshesIff(ss: seq<Services>, hs: seq<HeadEvent>, proposer: Proposers, n: nat)
    requires IsRun(ss, hs, proposer) && 0 < n <= |hs|
    ensures
      var head, s, s' := hs[n - 1].slot, ss[n - 1], ss[n];
      && s'.hkSlot == (if head % 16 == 0 || head >= s.hkSlot + 16 then head else s.hkSlot)
      && s'.apiSlot == (if head % 8 == 0 || head >= s.apiSlot + 8 then head else s.apiSlot)
  {
    assert Handles(ss[n - 1], hs[n - 1], proposer, ss[n]);
    RunIsTimely(ss, hs, proposer, n);
    if n > 1 {
      RunIsTimely(ss, hs, proposer, n - 1);
      assert hs[n - 2].slot < hs[n - 1].slot;
    }
  }

  // The bound of the window: a copy that is less than 8 slots old, of a write less than 16
  // slots older, spans the head and the ten slots after it.
  lemma WindowInsideEpochs(head: nat, copied: nat, written: nat, slot: nat)
    requires written <= copied <= head && copied < written + 16 && head < copied + 8
    requires head <= slot <= head + 10
    ensures EpochOf(slot) in {EpochOf(written), EpochOf(written) + 1}
  {
  }

  // For any missed slots: once the API has copied a housekeeper write, its duties at head H
  // hold exactly those slots of H..H+10 whose proposer was registered at that write, with the
  // registration of that moment. Before, they are empty; the copy exists iff it was made at a
  // head of at least 16.
  lemma DutiesWindow(ss: seq<Services>, hs: seq<HeadEvent>, proposer: Proposers, n: nat, slot: nat)
    requires IsRun(ss, hs, proposer) && 0 < n <= |hs|
    requires hs[n - 1].slot <= slot <= hs[n - 1].slot + 10
    ensures ss[n].seen.Some? <==> ss[n].apiSlot >= 16
    ensures ss[n].seen.Some? ==>
      && (slot in ss[n].api <==> proposer(slot) in ss[n].seen.value.1)
      && (slot in ss[n].api ==> ss[n].api[slot] == ss[n].seen.value.1[proposer(slot)])
    ensures ss[n].seen.None? ==> ss[n].api == map[]
  {
    RunIsTimely(ss, hs, proposer, n);
    if ss[n].seen.Some? {
      WindowInsideEpochs(hs[n - 1].slot, ss[n].apiSlot, ss[n].seen.value.0, slot);
    }
  }

  // If the first head is at least 16, the API has a copy from then on.
  lemma {:induction false} CopyFromTheStart(ss: seq<Services>, hs: seq<HeadEvent>, proposer: Proposers, n: nat)
    requires IsRun(ss, hs, proposer) && 0 < n <= |hs|
    ensures hs[0].slot >= 16 ==> ss[n].seen.Some?
    ensures n == 1 ==> (ss[n].seen.Some? <==> hs[0].slot >= 16)
  {
    RunIsTimely(ss, hs, proposer, n);
    if n > 1 {
      CopyFromTheStart(ss, hs, proposer, n - 1);
      RunIsTimely(ss, hs, proposer, n - 1);
    } else {
      assert Handles(ss[0], hs[0], proposer, ss[1]);
    }
  }

  lemma {:induction false} DutyListExists(proposer: Proposers, regs: Registered, first: nat, end: nat) returns (duties: seq<DutyEntry>)
    requires first <= end
    ensures ListsSlots(duties, proposer, regs, first, end)
    decreases end
  {
    duties := [];
    if first < end {
      duties := DutyListExists(proposer, regs, first, end - 1);
      if proposer(end - 1) in regs {
        OneMoreDuty(duties, proposer, regs, first, end - 1);
        duties := duties + [DutyEntry(end - 1, regs[proposer(end - 1)])];
      }
    }
  }

  // The services before and after the heads 31, 46 and 53.
  function TightStates(regs: Registered, first: seq<DutyEntry>, second: seq<DutyEntry>): (ss: seq<Services>)
    ensures |ss| == 4
  {
    var s1 := Services(31, first, Some((31, regs)), 31, DutyMap(first), Some((31, regs)));
    var s2 := s1.(apiSlot := 46);
    [Services(0, [], None, 0, map[], None), s1, s2, s2.(hkSlot := 53, redis := second, written := Some((53, regs)))]
  }

  lemma TightSteps(proposer: Proposers, regs: Registered, first: seq<DutyEntry>, second: seq<DutyEntry>)
    requires IsDutyList(first, proposer, regs, 0) && IsDutyList(second, proposer, regs, 1)
    ensures
      var ss := TightStates(regs, first, second);
      && Handles(ss[0], HeadEvent(31, regs), proposer, ss[1])
      && Handles(ss[1], HeadEvent(46, regs), proposer, ss[2])
      && Handles(ss[2], HeadEvent(53, regs), proposer, ss[3])
  {
  }

  // Ten is the best bound: whoever proposes and whoever is registered all along, there is a
  // run over the heads 31, 46 and 53 in which the API ends up without a duty for slot 64,
  // eleven after the head, although that slot's proposer is registered.
  lemma WindowIsTight(proposer: Proposers, regs: Registered) returns (ss: seq<Services>, hs: seq<HeadEvent>)
    requires proposer(53 + 11) in regs
    ensures IsRun(ss, hs, proposer) && |hs| == 3 && hs[2].slot == 53 && forall i :: 0 <= i < 3 ==> hs[i].regs == regs
    ensures ss[3].seen.Some? && proposer(53 + 11) in ss[3].seen.value.1 && 53 + 11 !in ss[3].api
  {
    var first := DutyListExists(proposer, regs, 0, 2 * SlotsPerEpoch);
    var second := DutyListExists(proposer, regs, SlotsPerEpoch, 3 * SlotsPerEpoch);
    ss := TightStates(regs, first, second);
    hs := [HeadEvent(31, regs), HeadEvent(46, regs), HeadEvent(53, regs)];
    TightSteps(proposer, regs, first, second);
    DutyMapKeys(first, 64);
  }
}
