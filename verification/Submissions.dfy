/** submitNewBlock up to the point where the block is dispatched: the checks of a decoded
    submission, in order, and the choice between optimistic and synchronous simulation. */
module Submissions {
  import opened RelayTypes

  const SecondsPerSlot := 12

  datatype CacheEntry = CacheEntry(status: BuilderStatus, collateral: nat)
  datatype Duty = Duty(feeRecipient: Hash, gasLimit: nat)
  datatype ExpectedRandao = ExpectedRandao(slot: nat, prevRandao: string)

  // The fields of the API object that submitNewBlock consults.
  datatype ApiView = ApiView(
    genesisTime: nat, disableLowPrio: bool,
    headSlot: nat, optimisticSlot: nat,
    cache: map<Pubkey, CacheEntry>, duties: map<nat, Duty>, randao: ExpectedRandao)

  datatype Refusal =
    | AlreadyDelivered | WrongTimestamp | NoSlotDuty | WrongFeeRecipient | PastSlot
    | BlockHashMismatch | ParentHashMismatch | RandaoUnknown | WrongRandao | BadSignature

  datatype Verdict =
    | Refused(why: Refusal)     // answered with an error
    | Dropped                   // answered with OK but not processed
    | Optimistic                // enters the auction now, simulated in the background
    | Synchronous               // simulated first

  // 64-bit arithmetic, wrapping around.
  function ExpectedTimestamp(genesisTime: nat, slot: nat): nat {
    (genesisTime + slot * SecondsPerSlot) % 0x1_0000_0000_0000_0000
  }

  // A builder missing from the cache has low priority and no collateral.
  function EntryOf(cache: map<Pubkey, CacheEntry>, pk: Pubkey): CacheEntry {
    if pk in cache then cache[pk] else CacheEntry(BuilderStatus(false, false, false), 0)
  }

  function Judge(v: ApiView, lastDelivered: Option<nat>, sub: Submission): Verdict {
    var m, p := sub.message, sub.payload;
    var entry := EntryOf(v.cache, m.builder);
    if lastDelivered.Some? && m.slot <= lastDelivered.value then Refused(AlreadyDelivered)
    else if p.timestamp != ExpectedTimestamp(v.genesisTime, m.slot) then Refused(WrongTimestamp)
    else if m.slot !in v.duties then Refused(NoSlotDuty)
    else if v.duties[m.slot].feeRecipient != m.feeRecipient then Refused(WrongFeeRecipient)
    else if entry.status.isBlacklisted then Dropped
    else if v.disableLowPrio && !entry.status.isHighPrio then Dropped
    else if m.slot <= v.headSlot then Refused(PastSlot)
    else if m.value == 0 || p.transactions == [] then Dropped
    else if m.blockHash != p.blockHash then Refused(BlockHashMismatch)
    else if m.parentHash != p.parentHash then Refused(ParentHashMismatch)
    else if v.randao.slot != m.slot then Refused(RandaoUnknown)
    else if v.randao.prevRandao != p.random then Refused(WrongRandao)
    else if !sub.signatureOk then Refused(BadSignature)
    else if entry.collateral > m.value && !entry.status.isDemoted && m.slot == v.optimisticSlot then Optimistic
    else Synchronous
  }

  // ----- the checks, said one by one -----

  const NumChecks := 13

  // The submission satisfies check n, counted in the order in which they are made.
  ghost predicate Passes(v: ApiView, lastDelivered: Option<nat>, sub: Submission, n: nat)
    requires n < NumChecks
  {
    var m, p := sub.message, sub.payload;
    match n
    case 0 => lastDelivered.Some? ==> lastDelivered.value < m.slot
    case 1 => p.timestamp == (v.genesisTime + 12 * m.slot) % 0x1_0000_0000_0000_0000
    case 2 => m.slot in v.duties
    case 3 => m.slot in v.duties && m.feeRecipient == v.duties[m.slot].feeRecipient
    case 4 => !(m.builder in v.cache && v.cache[m.builder].status.isBlacklisted)
    case 5 => v.disableLowPrio ==> m.builder in v.cache && v.cache[m.builder].status.isHighPrio
    case 6 => v.headSlot < m.slot
    case 7 => m.value > 0 && |p.transactions| > 0
    case 8 => m.blockHash == p.blockHash
    case 9 => m.parentHash == p.parentHash
    case 10 => v.randao.slot == m.slot
    case 11 => v.randao.prevRandao == p.random
    case 12 => sub.signatureOk
  }

  ghost predicate PassesFirst(v: ApiView, lastDelivered: Option<nat>, sub: Submission, n: nat)
    requires n <= NumChecks
  {
    forall i: nat :: i < n ==> Passes(v, lastDelivered, sub, i)
  }

  // Check n is the first the submission fails.
  ghost predicate FailsAt(v: ApiView, lastDelivered: Option<nat>, sub: Submission, n: nat)
    requires n < NumChecks
  {
    PassesFirst(v, lastDelivered, sub, n) && !Passes(v, lastDelivered, sub, n)
  }

  // The answer to a submission: the first failing check decides it, and one that fails none
  // goes to simulation, in the background exactly if its value is covered by the cached collateral
  // of an undemoted builder and its slot is the optimistic one.
  ghost predicate IsVerdict(v: ApiView, lastDelivered: Option<nat>, sub: Submission, verdict: Verdict) {
    && (verdict == Refused(AlreadyDelivered) <==> FailsAt(v, lastDelivered, sub, 0))
    && (verdict == Refused(WrongTimestamp) <==> FailsAt(v, lastDelivered, sub, 1))
    && (verdict == Refused(NoSlotDuty) <==> FailsAt(v, lastDelivered, sub, 2))
    && (verdict == Refused(WrongFeeRecipient) <==> FailsAt(v, lastDelivered, sub, 3))
    && (verdict == Refused(PastSlot) <==> FailsAt(v, lastDelivered, sub, 6))
    && (verdict == Refused(BlockHashMismatch) <==> FailsAt(v, lastDelivered, sub, 8))
    && (verdict == Refused(ParentHashMismatch) <==> FailsAt(v, lastDelivered, sub, 9))
    && (verdict == Refused(RandaoUnknown) <==> FailsAt(v, lastDelivered, sub, 10))
    && (verdict == Refused(WrongRandao) <==> FailsAt(v, lastDelivered, sub, 11))
    && (verdict == Refused(BadSignature) <==> FailsAt(v, lastDelivered, sub, 12))
    && (verdict == Dropped <==>
         FailsAt(v, lastDelivered, sub, 4) || FailsAt(v, lastDelivered, sub, 5) || FailsAt(v, lastDelivered, sub, 7))
    && (verdict in {Optimistic, Synchronous} <==> PassesFirst(v, lastDelivered, sub, NumChecks))
    && (verdict == Optimistic <==>
         && PassesFirst(v, lastDelivered, sub, NumChecks)
         && sub.message.builder in v.cache
         && v.cache[sub.message.builder].collateral > sub.message.value
         && !v.cache[sub.message.builder].status.isDemoted
         && sub.message.slot == v.optimisticSlot)
  }

  // There is one first failing check, or none at all.
  lemma FirstFailure(v: ApiView, lastDelivered: Option<nat>, sub: Submission) returns (n: nat)
    ensures n <= NumChecks && PassesFirst(v, lastDelivered, sub, n)
    ensures forall i: nat :: i < NumChecks ==> (FailsAt(v, lastDelivered, sub, i) <==> i == n)
    ensures PassesFirst(v, lastDelivered, sub, NumChecks) <==> n == NumChecks
  {
    n := 0;
    while n < NumChecks && Passes(v, lastDelivered, sub, n)
      invariant n <= NumChecks && PassesFirst(v, lastDelivered, sub, n)
    {
      n := n + 1;
    }
  }

  // Judge finds that check.
  lemma JudgeStopsAtFirstFailure(v: ApiView, lastDelivered: Option<nat>, sub: Submission, n: nat)
    requires n <= NumChecks && PassesFirst(v, lastDelivered, sub, n)
    requires n < NumChecks ==> !Passes(v, lastDelivered, sub, n)
    ensures
      var j := Judge(v, lastDelivered, sub);
      if n < NumChecks then j == AnswerTo(n)
      else j == if Covered(v, sub) then Optimistic else Synchronous
  {
    AllBefore(v, lastDelivered, sub, n);
  }

  function AnswerTo(n: nat): Verdict
    requires n < NumChecks
  {
    match n
    case 0 => Refused(AlreadyDelivered)
    case 1 => Refused(WrongTimestamp)
    case 2 => Refused(NoSlotDuty)
    case 3 => Refused(WrongFeeRecipient)
    case 6 => Refused(PastSlot)
    case 8 => Refused(BlockHashMismatch)
    case 9 => Refused(ParentHashMismatch)
    case 10 => Refused(RandaoUnknown)
    case 11 => Refused(WrongRandao)
    case 12 => Refused(BadSignature)
    case _ => Dropped
  }

  lemma AllBefore(v: ApiView, lastDelivered: Option<nat>, sub: Submission, n: nat)
    requires n <= NumChecks && PassesFirst(v, lastDelivered, sub, n)
    ensures n > 0 ==> Passes(v, lastDelivered, sub, 0)
    ensures n > 1 ==> Passes(v, lastDelivered, sub, 1)
    ensures n > 2 ==> Passes(v, lastDelivered, sub, 2)
    ensures n > 3 ==> Passes(v, lastDelivered, sub, 3)
    ensures n > 4 ==> Passes(v, lastDelivered, sub, 4)
    ensures n > 5 ==> Passes(v, lastDelivered, sub, 5)
    ensures n > 6 ==> Passes(v, lastDelivered, sub, 6)
    ensures n > 7 ==> Passes(v, lastDelivered, sub, 7)
    ensures n > 8 ==> Passes(v, lastDelivered, sub, 8)
    ensures n > 9 ==> Passes(v, lastDelivered, sub, 9)
    ensures n > 10 ==> Passes(v, lastDelivered, sub, 10)
    ensures n > 11 ==> Passes(v, lastDelivered, sub, 11)
    ensures n > 12 ==> Passes(v, lastDelivered, sub, 12)
  {
  }

  // Judge answers as described, and nothing else fits the description.
  lemma JudgeIsVerdict(v: ApiView, lastDelivered: Option<nat>, sub: Submission, verdict: Verdict)
    ensures verdict == Judge(v, lastDelivered, sub) <==> IsVerdict(v, lastDelivered, sub, verdict)
  {
    var n := FirstFailure(v, lastDelivered, sub);
    assert n < NumChecks ==> FailsAt(v, lastDelivered, sub, n);
    JudgeStopsAtFirstFailure(v, lastDelivered, sub, n);
  }

  // What a submission past the checks is known to satisfy.
  predicate Sound(sub: Submission) {
    && sub.message.value > 0
    && sub.message.blockHash == sub.payload.blockHash
    && sub.message.parentHash == sub.payload.parentHash
  }

  // The conditions under which the relay vouches for a block with the builder's collateral.
  predicate Covered(v: ApiView, sub: Submission) {
    && sub.message.builder in v.cache
    && v.cache[sub.message.builder].collateral > sub.message.value
    && !v.cache[sub.message.builder].status.isDemoted
    && sub.message.slot == v.optimisticSlot
  }

  // A block is dispatched optimistically exactly when it would reach simulation and is covered.
  lemma OptimisticIff(v: ApiView, lastDelivered: Option<nat>, sub: Submission)
    ensures var j := Judge(v, lastDelivered, sub);
      && (j == Optimistic <==> (j == Optimistic || j == Synchronous) && Covered(v, sub))
      && (j == Optimistic || j == Synchronous ==>
           && Sound(sub)
           && v.randao == ExpectedRandao(sub.message.slot, sub.payload.random)
           && sub.message.slot > v.headSlot
           && (lastDelivered.Some? ==> sub.message.slot > lastDelivered.value))
  {
  }

  // The delivered slot guards exactly its past: whatever the view, a submission is judged as
  // if nothing had been delivered exactly when the delivered slot lies before its own.
  lemma DeliveredSlotGuardsIff(v: ApiView, sub: Submission, d: nat)
    ensures Judge(v, Some(d), sub) == Judge(v, None, sub) <==> d < sub.message.slot
    ensures Judge(v, None, sub) == Optimistic ==> (Judge(v, Some(d), sub) == Optimistic <==> d < sub.message.slot)
  {
  }

  // How the simulator answered; an error text equal to "block already known" is no failure.
  datatype SimReply = BlockValid | AlreadyKnown | SimulationFailed | RequestClosed | TransportError

  predicate SimSucceeds(reply: SimReply) { reply == BlockValid || reply == AlreadyKnown }
}
