/** Runs at the edge of the guarantees about failed blocks: what happens when a delivered slot
    opens again, and when a refresh cannot read the builder table. */
module Limits {
  import opened RelayTypes
  import opened RedisStore
  import opened Builders
  import opened Submissions
  import opened RelayMachine
  import Refunds
  import CollateralSafety

  lemma Step(r: Run, s: State, e: Event, s': State)
    requires IsRun(r) && Last(r) == s && Enabled(s, e) && Apply(s, e) == s'
    ensures IsRun(Extend(r, e)) && Last(Extend(r, e)) == s'
  {
  }

  // ----- a service with two stored blocks -----

  function PayloadOf(t: BidTrace): ExecutionPayload {
    ExecutionPayload(t.parentHash, t.blockHash, ExpectedTimestamp(0, t.slot), "", ["tx"])
  }

  function SignedOf(t: BidTrace): SignedBlindedBlock { SignedBlindedBlock(t.slot, 0, t.blockHash, "") }

  function JobOf(t: BidTrace, stage: Stage): Job {
    Job(PayloadKeyOf(t), SignedBlock(SignedOf(t), PayloadOf(t)), stage)
  }

  function SubmissionOf(t: BidTrace): Submission { Submission(t, PayloadOf(t), 0, true) }

  // The payloads of two blocks are stored; the builder of the first has collateral.
  function Before(t: BidTrace, u: BidTrace): State {
    State(
      ApiView(0, false, 0, 0, map[], map[t.slot := Duty(t.feeRecipient, 0)], ExpectedRandao(t.slot, "")),
      {}, map[],
      Database(map[t.builder := BuilderRow(BuilderStatus(false, false, false), "", Some(t.value + 1), 0, 0, 0)], []),
      Redis(None,
        map[PayloadKeyOf(u) := u, PayloadKeyOf(t) := t],
        map[PayloadKeyOf(u) := PayloadOf(u), PayloadKeyOf(t) := PayloadOf(t)],
        map[], map[], map[], map[]),
      map[], map[])
  }

  function CacheFor(t: BidTrace): map<Pubkey, CacheEntry> {
    map[t.builder := CacheEntry(BuilderStatus(false, false, false), t.value + 1)]
  }

  // The view once the slot of t is open for optimistic blocks.
  function OpenView(t: BidTrace, u: BidTrace): ApiView
    requires t.slot > 0
  {
    Before(t, u).view.(headSlot := t.slot - 1, optimisticSlot := t.slot, cache := CacheFor(t))
  }

  ghost predicate Biddable(t: BidTrace) { t.slot > 1 && t.value > 0 }

  lemma OpenSlot(t: BidTrace, u: BidTrace) returns (r: Run, s: State)
    requires Biddable(t)
    ensures IsRun(r) && Last(r) == s && s == Before(t, u).(view := OpenView(t, u))
  {
    var s0 := Before(t, u);
    r := Start(s0);
    var s1 := s0.(view := s0.view.(headSlot := t.slot - 1), pendingHeads := {t.slot - 1});
    Step(r, s0, NewHead(t.slot - 1), s1);
    r := Extend(r, NewHead(t.slot - 1));
    s := Apply(s1, Refresh(t.slot - 1, true));
    assert s.view.cache == CacheFor(t) && s.pendingHeads == {};
    Step(r, s1, Refresh(t.slot - 1, true), s);
    r := Extend(r, Refresh(t.slot - 1, true));
  }

  // A stored payload is delivered, and the delivery marked if the mark gets through.
  lemma DeliverAndMark(r0: Run, s0: State, j: nat, t: BidTrace, marked: bool) returns (r: Run, s: State)
    requires IsRun(r0) && Last(r0) == s0 && j !in s0.jobs
    requires PayloadKeyOf(t) in s0.redis.payloads && s0.redis.payloads[PayloadKeyOf(t)] == PayloadOf(t)
    ensures IsRun(r) && Last(r) == s
    ensures s == s0.(redis := if marked then SetLastDelivered(s0.redis, t.slot) else s0.redis, jobs := s0.jobs[j := JobOf(t, Marked)])
  {
    var deliver := GetPayload(j, PayloadKeyOf(t), SignedOf(t));
    var s1 := s0.(jobs := s0.jobs[j := JobOf(t, Responded)]);
    Step(r0, s0, deliver, s1);
    var r1 := Extend(r0, deliver);
    s := s0.(redis := if marked then SetLastDelivered(s0.redis, t.slot) else s0.redis, jobs := s0.jobs[j := JobOf(t, Marked)]);
    assert s.jobs == s1.jobs[j := s1.jobs[j].(stage := Marked)];
    var mark := if marked then JobStep(j, None) else MarkFails(j);
    Step(r1, s1, mark, s);
    r := Extend(r1, mark);
  }

  // With nothing in flight and no demotion, the bookkeeping of a marked delivery settles.
  lemma Settle(r0: Run, s0: State, j: nat, t: BidTrace) returns (r: Run, s: State)
    requires IsRun(r0) && Last(r0) == s0 && j in s0.jobs && s0.jobs[j] == JobOf(t, Marked)
    requires PayloadKeyOf(t) in s0.redis.traces && s0.redis.traces[PayloadKeyOf(t)] == t
    requires s0.inFlight == map[] && s0.db.demotions == []
    ensures IsRun(r) && Last(r) == s && s == s0.(jobs := s0.jobs[j := JobOf(t, Settled(t, None))])
  {
    var s1 := s0.(jobs := s0.jobs[j := JobOf(t, Traced(t))]);
    Step(r0, s0, JobStep(j, None), s1);
    var r1 := Extend(r0, JobStep(j, None));
    var s2 := s0.(jobs := s0.jobs[j := JobOf(t, Drained(t))]);
    assert s2.jobs == s1.jobs[j := s1.jobs[j].(stage := Drained(t))];
    Step(r1, s1, JobStep(j, None), s2);
    var r2 := Extend(r1, JobStep(j, None));
    s := s0.(jobs := s0.jobs[j := JobOf(t, Settled(t, None))]);
    assert s.jobs == s2.jobs[j := s2.jobs[j].(stage := Settled(t, None))];
    Step(r2, s2, JobStep(j, None), s);
    r := Extend(r2, JobStep(j, None));
  }

  // The first block is delivered and its bookkeeping settles.
  lemma DeliverFirst(t: BidTrace, u: BidTrace, marked: bool) returns (r: Run, s: State)
    requires Biddable(t) && PayloadKeyOf(t) != PayloadKeyOf(u)
    ensures IsRun(r) && Last(r) == s
    ensures s.redis == if marked then SetLastDelivered(Before(t, u).redis, t.slot) else Before(t, u).redis
    ensures s.view == OpenView(t, u) && s.inFlight == map[] && s.requests == map[] && s.db.demotions == []
    ensures s.jobs == map[1 := JobOf(t, Settled(t, None))]
  {
    var r1, s1 := OpenSlot(t, u);
    var r2, s2 := DeliverAndMark(r1, s1, 1, t, marked);
    assert s2.redis.traces[PayloadKeyOf(t)] == t;
    r, s := Settle(r2, s2, 1, t);
  }

  // ----- a delivered slot opens again -----

  lemma OpenedSlotAccepts(t: BidTrace, u: BidTrace)
    requires Biddable(t)
    ensures Judge(OpenView(t, u), None, SubmissionOf(t)) == Optimistic
  {
  }

  // The settled block t has a demotion row without the signed block.
  ghost predicate EvidenceLost(r: Run, t: BidTrace)
    requires IsRun(r)
  {
    var s := Last(r);
    && 1 in s.jobs && s.jobs[1].stage == Settled(t, None)
    && HasRow(s.db.demotions, KeyOfTrace(t)) && !Refunds.RefundRecorded(s.jobs, s.db.demotions, KeyOfTrace(t))
    && !Refunds.StaysClosed(r, 1)
  }

  lemma ReopenFirst(r0: Run, t: BidTrace, u: BidTrace, slotRead: bool) returns (r: Run)
    requires Biddable(t) && IsRun(r0) && Last(r0).view == OpenView(t, u)
    requires Last(r0).inFlight == map[] && Last(r0).requests == map[] && Last(r0).db.demotions == []
    requires 1 in Last(r0).jobs && Last(r0).jobs[1].stage == Settled(t, None)
    requires !Refunds.FindsSlotClosed(Last(r0), SubmissionOf(t), slotRead)
    ensures IsRun(r) && EvidenceLost(r, t)
  {
    OpenedSlotAccepts(t, u);
    var d := DeliveredSlotSeen(Last(r0), slotRead);
    if d.Some? { DeliveredSlotGuardsIff(OpenView(t, u), SubmissionOf(t), d.value); }
    r := Refunds.ReopenedBlockLosesEvidence(r0, 1, 7, SubmissionOf(t), slotRead);
  }

  // For every pair of blocks with increasing slots: the later one is delivered and settled,
  // then a getPayload for the earlier one moves the delivered slot back; the later block is
  // accepted once more, fails, and its row stays without the signed block.
  lemma RegressionReopensSlot(t: BidTrace, u: BidTrace) returns (r: Run)
    requires Biddable(t) && u.slot < t.slot
    ensures IsRun(r) && EvidenceLost(r, t)
  {
    var r1, s1 := DeliverFirst(t, u, true);
    var r2, s2 := DeliverAndMark(r1, s1, 2, u, true);
    r := ReopenFirst(r2, t, u, true);
  }

  // The same when the delivered slot stands but cannot be read, ...
  lemma UnreadSlotReopens(t: BidTrace, u: BidTrace) returns (r: Run)
    requires Biddable(t) && u.slot < t.slot
    ensures IsRun(r) && EvidenceLost(r, t) && Last(r).redis.lastDelivered == Some(t.slot)
  {
    var r1, s1 := DeliverFirst(t, u, true);
    OpenedSlotAccepts(t, u);
    r := Refunds.ReopenedBlockLosesEvidence(r1, 1, 7, SubmissionOf(t), false);
  }

  // ... and when it could not be written.
  lemma FailedMarkReopensSlot(t: BidTrace, u: BidTrace) returns (r: Run)
    requires Biddable(t) && u.slot < t.slot
    ensures IsRun(r) && EvidenceLost(r, t)
  {
    var r1, s1 := DeliverFirst(t, u, false);
    r := ReopenFirst(r1, t, u, true);
  }

  // ----- a refresh does not read the table -----

  // Two blocks of one builder for consecutive slots, both within its collateral.
  ghost predicate Successive(t: BidTrace, u: BidTrace) {
    && Biddable(t) && u.slot == t.slot + 1 && 0 < u.value <= t.value
    && u.builder == t.builder && u.feeRecipient == t.feeRecipient
  }

  // The slot moves on to u's while the cache keeps t's builder undemoted.
  lemma MoveOnBlindly(r0: Run, s0: State, t: BidTrace, u: BidTrace) returns (r: Run, s: State)
    requires Successive(t, u) && IsRun(r0) && Last(r0) == s0 && s0.view == OpenView(t, u) && s0.inFlight == map[]
    ensures IsRun(r) && Last(r) == s && Prefix(r0, r) && s.inFlight == map[] && s.db == s0.db
    ensures s.redis == s0.redis && s.requests == s0.requests
    ensures s.view == OpenView(t, u).(headSlot := t.slot, optimisticSlot := u.slot,
      duties := map[u.slot := Duty(u.feeRecipient, 0)], randao := ExpectedRandao(u.slot, ""))
  {
    var s1 := Apply(s0, NewHead(t.slot));
    Step(r0, s0, NewHead(t.slot), s1);
    var r1 := Extend(r0, NewHead(t.slot));
    var env := Environment(map[u.slot := Duty(u.feeRecipient, 0)], ExpectedRandao(u.slot, ""));
    var s2 := Apply(s1, env);
    Step(r1, s1, env, s2);
    var r2 := Extend(r1, env);
    s := Apply(s2, Refresh(t.slot, false));
    Step(r2, s2, Refresh(t.slot, false), s);
    r := Extend(r2, Refresh(t.slot, false));
    assert Prefix(r0, r1) && Prefix(r0, r2);
  }

  lemma MovedSlotAccepts(v: ApiView, t: BidTrace, u: BidTrace)
    requires Successive(t, u)
    requires v == OpenView(t, u).(headSlot := t.slot, optimisticSlot := u.slot,
      duties := map[u.slot := Duty(u.feeRecipient, 0)], randao := ExpectedRandao(u.slot, ""))
    ensures Judge(v, None, SubmissionOf(u)) == Optimistic
  {
  }

  // For every two such blocks: the first fails, a refresh moves the slot without reading the
  // table, and the second is accepted optimistically and fails too.
  lemma {:induction false} StaleRefreshSpreadsFailure(t: BidTrace, u: BidTrace) returns (r: Run)
    requires Successive(t, u)
    ensures IsRun(r) && t in FailedBlocks(r) && u in FailedBlocks(r) && CollateralSafety.SameGroup(r, t, u) && t.slot != u.slot
    ensures !CollateralSafety.NeverStale(r, GroupOf(Last(r).db.builders, t.builder))
  {
    var r1, s1 := OpenSlot(t, u);
    OpenedSlotAccepts(t, u);
    var r2 := Refunds.AcceptedMayFail(r1, 7, SubmissionOf(t), true);
    var r3, s3 := MoveOnBlindly(r2, Last(r2), t, u);
    MovedSlotAccepts(s3.view, t, u);
    r := Refunds.AcceptedMayFail(r3, 8, SubmissionOf(u), true);
    Refunds.FailuresGrow(r2, r3);
    Refunds.PrefixIsTransitive(r3, Extend(r3, Submit(8, SubmissionOf(u), true)), r);
    Refunds.FailuresGrow(r3, r);
    if CollateralSafety.NeverStale(r, GroupOf(Last(r).db.builders, t.builder)) {
      CollateralSafety.FailuresConfinedToOneSlot(r, t, u);
    }
  }
}
