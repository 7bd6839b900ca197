/** Where the content of the auction tables comes from, over whole runs: every trace, payload,
    bid and top bid is, field by field, that of a submission that was admitted and wrote it. */
module Provenance {
  import opened RelayTypes
  import opened RedisStore
  import opened Submissions
  import opened RelayMachine
  import opened AuctionSafety
  import Builders

  // ----- submissions by what they have written -----

  function WriterAt(s: State, e: Event, pc: Pc): set<Submission> {
    if e.Advance? && e.id in s.requests && s.requests[e.id].pc == pc then {s.requests[e.id].sub} else {}
  }

  // Submissions whose trace has been written in the run.
  function TraceWriters(r: Run): set<Submission>
    requires IsRun(r)
  {
    match r
    case Start(_) => {}
    case Extend(p, e) => TraceWriters(p) + WriterAt(Last(p), e, SaveTrace)
  }

  // And those whose payload has.
  function PayloadWriters(r: Run): set<Submission>
    requires IsRun(r)
  {
    match r
    case Start(_) => {}
    case Extend(p, e) => PayloadWriters(p) + WriterAt(Last(p), e, SavePayload)
  }

  // ----- what it means to come from a submission -----

  // The key under which the submission's trace and payload are looked up.
  ghost predicate BlockKey(k: PayloadKey, sub: Submission) {
    k.slot == sub.message.slot && k.proposer == sub.message.proposer && k.blockHash == sub.message.blockHash
  }

  ghost predicate InAuction(a: AuctionKey, sub: Submission) {
    a.slot == sub.message.slot && a.parentHash == sub.message.parentHash && a.proposer == sub.message.proposer
  }

  ghost predicate IsHeaderOf(h: PayloadHeader, p: ExecutionPayload) {
    h.parentHash == p.parentHash && h.blockHash == p.blockHash && h.timestamp == p.timestamp && h.random == p.random
  }

  // The bid offers the submission's block for the submission's value.
  ghost predicate BidFrom(bid: Bid, sub: Submission) {
    IsHeaderOf(bid.header, sub.payload) && bid.value == sub.message.value
  }

  // One of the submissions placed this bid for this builder.
  ghost predicate PlacedBy(subs: set<Submission>, k: BidKey, bid: Bid) {
    exists sub :: sub in subs && InAuction(k.auction, sub) && k.builder == sub.message.builder && BidFrom(bid, sub)
  }

  ghost predicate OfferedBy(subs: set<Submission>, a: AuctionKey, bid: Bid) {
    exists sub :: sub in subs && InAuction(a, sub) && BidFrom(bid, sub)
  }

  ghost predicate TraceFrom(subs: set<Submission>, k: PayloadKey, t: BidTrace) {
    exists sub :: sub in subs && BlockKey(k, sub) && t == sub.message
  }

  ghost predicate PayloadFrom(subs: set<Submission>, k: PayloadKey, p: ExecutionPayload) {
    exists sub :: sub in subs && BlockKey(k, sub) && p == sub.payload
  }

  // ----- the tables -----

  ghost predicate TracesExplained(initial: Redis, subs: set<Submission>, r: Redis) {
    forall k :: k in r.traces ==>
      (k in initial.traces && r.traces[k] == initial.traces[k]) || TraceFrom(subs, k, r.traces[k])
  }

  ghost predicate PayloadsExplained(initial: Redis, subs: set<Submission>, r: Redis) {
    forall k :: k in r.payloads ==>
      (k in initial.payloads && r.payloads[k] == initial.payloads[k]) || PayloadFrom(subs, k, r.payloads[k])
  }

  ghost predicate BidsPlaced(subs: set<Submission>, r: Redis) {
    forall k :: k in r.bids ==> PlacedBy(subs, k, r.bids[k])
  }

  ghost predicate TopsOffered(subs: set<Submission>, r: Redis) {
    forall a :: a in r.topBids ==> OfferedBy(subs, a, r.topBids[a])
  }

  // Requests that have got so far have written what comes before.
  ghost predicate WritersKnown(traced: set<Submission>, saved: set<Submission>, requests: map<nat, Request>) {
    forall id :: id in requests ==>
      && (requests[id].pc.SavePayload? || PayloadSaved(requests[id].pc) ==> requests[id].sub in traced)
      && (PayloadSaved(requests[id].pc) ==> requests[id].sub in saved)
  }

  ghost predicate TopsInHandOffered(subs: set<Submission>, requests: map<nat, Request>) {
    forall id :: id in requests && requests[id].pc.WriteTop? ==>
      OfferedBy(subs, AuctionOf(requests[id].sub), requests[id].pc.bid)
  }

  ghost predicate BidsExplained(subs: set<Submission>, c: Auctions) {
    BidsPlaced(subs, c.redis) && TopsOffered(subs, c.redis) && TopsInHandOffered(subs, c.requests)
  }

  // ----- single operations -----

  lemma AdvanceKeepsTraces(initial: Redis, subs: set<Submission>, r: Redis, sub: Submission, pc: Pc)
    requires TracesExplained(initial, subs, r) && (pc.SaveTrace? ==> sub in subs)
    ensures TracesExplained(initial, subs, AdvanceRedis(r, sub, pc))
  {
    AdvanceTouches(r, sub, pc);
  }

  lemma AdvanceKeepsPayloads(initial: Redis, subs: set<Submission>, r: Redis, sub: Submission, pc: Pc)
    requires PayloadsExplained(initial, subs, r) && (pc.SavePayload? ==> sub in subs)
    ensures PayloadsExplained(initial, subs, AdvanceRedis(r, sub, pc))
  {
    AdvanceTouches(r, sub, pc);
  }

  lemma BidIsOffered(subs: set<Submission>, r: Redis, a: AuctionKey, b: Pubkey)
    requires BidsPlaced(subs, r) && BidKey(a, b) in r.bids
    ensures OfferedBy(subs, a, r.bids[BidKey(a, b)])
  {
  }

  lemma OwnBidIsPlaced(subs: set<Submission>, sub: Submission)
    requires sub in subs
    ensures PlacedBy(subs, BidKeyOf(sub), BidOf(sub))
  {
  }

  lemma AdvanceKeepsBids(subs: set<Submission>, r: Redis, sub: Submission, pc: Pc)
    requires BidsPlaced(subs, r) && TopsOffered(subs, r) && (PayloadSaved(pc) ==> sub in subs)
    requires pc.WriteTop? ==> OfferedBy(subs, AuctionOf(sub), pc.bid)
    ensures BidsPlaced(subs, AdvanceRedis(r, sub, pc)) && TopsOffered(subs, AdvanceRedis(r, sub, pc))
    ensures AdvancePc(r, sub, pc).WriteTop? ==> OfferedBy(subs, AuctionOf(sub), AdvancePc(r, sub, pc).bid)
  {
    AdvanceTouches(r, sub, pc);
    if pc.SaveBid? { OwnBidIsPlaced(subs, sub); }
    if pc.ReadBid? && BidKey(AuctionOf(sub), pc.winner) in r.bids { BidIsOffered(subs, r, AuctionOf(sub), pc.winner); }
  }

  // ----- single moves -----

  lemma MoveKeepsBlocks(initial: Redis, traced: set<Submission>, saved: set<Submission>, c: Auctions, e: Event, c': Auctions)
    requires TracesExplained(initial, traced, c.redis) && PayloadsExplained(initial, saved, c.redis) && AuctionMoves(c, e, c')
    requires e.Advance? && c.requests[e.id].pc == SaveTrace ==> c.requests[e.id].sub in traced
    requires e.Advance? && c.requests[e.id].pc == SavePayload ==> c.requests[e.id].sub in saved
    ensures TracesExplained(initial, traced, c'.redis) && PayloadsExplained(initial, saved, c'.redis)
  {
    if e.Advance? {
      var q := c.requests[e.id];
      AdvanceKeepsTraces(initial, traced, c.redis, q.sub, q.pc);
      AdvanceKeepsPayloads(initial, saved, c.redis, q.sub, q.pc);
    }
  }

  lemma MoveKeepsWriters(traced: set<Submission>, saved: set<Submission>, c: Auctions, e: Event, c': Auctions)
    requires WritersKnown(traced, saved, c.requests) && AuctionMoves(c, e, c')
    requires e.Advance? && c.requests[e.id].pc == SaveTrace ==> c.requests[e.id].sub in traced
    requires e.Advance? && c.requests[e.id].pc == SavePayload ==> c.requests[e.id].sub in saved
    ensures WritersKnown(traced, saved, c'.requests)
  {
  }

  lemma MoveKeepsBids(traced: set<Submission>, saved: set<Submission>, c: Auctions, e: Event, c': Auctions)
    requires BidsExplained(saved, c) && WritersKnown(traced, saved, c.requests) && AuctionMoves(c, e, c')
    ensures BidsExplained(saved, c')
  {
    match e
    case Advance(id) => AdvanceKeepsBids(saved, c.redis, c.requests[id].sub, c.requests[id].pc);
    case UpdateTop(id, w) =>
      var a := AuctionOf(c.requests[id].sub);
      if w.Some? && BidKey(a, w.value) in c.redis.bids { BidIsOffered(saved, c.redis, a, w.value); }
    case _ =>
  }

  // ----- more submissions explain no less -----

  lemma FromMore(subs: set<Submission>, more: set<Submission>)
    requires subs <= more
    ensures forall k, t :: TraceFrom(subs, k, t) ==> TraceFrom(more, k, t)
    ensures forall k, p :: PayloadFrom(subs, k, p) ==> PayloadFrom(more, k, p)
    ensures forall k, bid :: PlacedBy(subs, k, bid) ==> PlacedBy(more, k, bid)
    ensures forall a, bid :: OfferedBy(subs, a, bid) ==> OfferedBy(more, a, bid)
  {
  }

  // ----- runs -----

  ghost predicate Explained(r: Run)
    requires IsRun(r)
  {
    && TracesExplained(First(r).redis, TraceWriters(r), Last(r).redis)
    && PayloadsExplained(First(r).redis, PayloadWriters(r), Last(r).redis)
    && WritersKnown(TraceWriters(r), PayloadWriters(r), Last(r).requests)
    && BidsExplained(PayloadWriters(r), AuctionsOf(Last(r)))
  }

  lemma {:induction false} RunIsExplained(r: Run)
    requires IsRun(r)
    ensures Explained(r)
  {
    if r.Extend? {
      RunIsExplained(r.prev);
      StepMovesAuction(Last(r.prev), r.event);
      StepKeepsExplained(r.prev, r.event, TraceWriters(r), PayloadWriters(r), AuctionsOf(Last(r)));
    }
  }

  lemma StepKeepsExplained(p: Run, e: Event, traced: set<Submission>, saved: set<Submission>, c': Auctions)
    requires IsRun(p) && Explained(p) && AuctionMoves(AuctionsOf(Last(p)), e, c')
    requires traced == TraceWriters(p) + WriterAt(Last(p), e, SaveTrace)
    requires saved == PayloadWriters(p) + WriterAt(Last(p), e, SavePayload)
    ensures TracesExplained(First(p).redis, traced, c'.redis) && PayloadsExplained(First(p).redis, saved, c'.redis)
    ensures WritersKnown(traced, saved, c'.requests) && BidsExplained(saved, c')
  {
    var c := AuctionsOf(Last(p));
    FromMore(TraceWriters(p), traced);
    FromMore(PayloadWriters(p), saved);
    MoveKeepsBlocks(First(p).redis, traced, saved, c, e, c');
    MoveKeepsWriters(traced, saved, c, e, c');
    MoveKeepsBids(traced, saved, c, e, c');
  }

  // ----- admission -----

  ghost predicate RequestsAdmitted(subs: set<Submission>, requests: map<nat, Request>) {
    forall id :: id in requests && Saving(requests[id].pc) ==> requests[id].sub in subs
  }

  // A submission starts saving only when it is admitted.
  lemma SavingMeansAdmitted(s: State, e: Event, subs: set<Submission>)
    requires Enabled(s, e) && RequestsAdmitted(subs, s.requests)
    ensures RequestsAdmitted(subs + AdmittedBy(s, e), Apply(s, e).requests)
  {
    if e.Submit? { OptimisticIff(s.view, DeliveredSlotSeen(s, e.slotRead), e.sub); }
  }

  // A payload is written after the trace, and both by admitted submissions.
  lemma {:induction false} WritersAreAdmitted(r: Run)
    requires IsRun(r)
    ensures PayloadWriters(r) <= TraceWriters(r) <= Admitted(r) && RequestsAdmitted(Admitted(r), Last(r).requests)
  {
    if r.Extend? {
      WritersAreAdmitted(r.prev);
      RunIsExplained(r.prev);
      SavingMeansAdmitted(Last(r.prev), r.event, Admitted(r.prev));
    }
  }

  lemma {:induction false} WritersGrow(q: Run, r: Run)
    requires IsRun(r) && Prefix(q, r) && IsRun(q)
    ensures TraceWriters(q) <= TraceWriters(r) && PayloadWriters(q) <= PayloadWriters(r)
    decreases r
  {
    if q != r { WritersGrow(q, r.prev); }
  }

  // At q the run's next event e admitted the submission: either the simulator answered with
  // success, or the cached builder was undemoted, its collateral above the value, and the slot
  // the optimistic one.
  ghost predicate AdmissionPoint(r: Run, q: Run, e: Event, sub: Submission) {
    && Prefix(Extend(q, e), r) && IsRun(q)
    && var s := Last(q);
       match e
       case SyncReply(id, reply) =>
         id in s.requests && s.requests[id].sub == sub && reply in {BlockValid, AlreadyKnown}
       case Submit(_, submitted, _) =>
         && submitted == sub && sub.message.builder in s.view.cache
         && s.view.cache[sub.message.builder].collateral > sub.message.value
         && !s.view.cache[sub.message.builder].status.isDemoted
         && sub.message.slot == s.view.optimisticSlot
       case _ => false
  }

  lemma {:induction false} FindAdmission(r: Run, sub: Submission) returns (q: Run, e: Event)
    requires IsRun(r) && sub in Admitted(r)
    ensures AdmissionPoint(r, q, e, sub)
  {
    var Extend(p, last) := r;
    if sub in Admitted(p) {
      q, e := FindAdmission(p, sub);
    } else {
      q, e := p, last;
    }
  }

  // At q the run's next event e is the submission's call, and it passes every check.
  ghost predicate AcceptancePoint(r: Run, q: Run, e: Event, sub: Submission) {
    && Prefix(Extend(q, e), r) && IsRun(q) && e.Submit? && e.sub == sub
    && PassesFirst(Last(q).view, if e.slotRead then Last(q).redis.lastDelivered else None, sub, NumChecks)
  }

  ghost predicate WasAccepted(r: Run, sub: Submission) { exists q, e :: AcceptancePoint(r, q, e, sub) }

  lemma AcceptanceStays(p: Run, e: Event, sub: Submission)
    requires WasAccepted(p, sub)
    ensures WasAccepted(Extend(p, e), sub)
  {
    var q, at :| AcceptancePoint(p, q, at, sub);
    assert AcceptancePoint(Extend(p, e), q, at, sub);
  }

  // A request in progress has passed every check.
  lemma {:induction false} RequestsWereAccepted(r: Run, id: nat)
    requires IsRun(r) && id in Last(r).requests
    ensures WasAccepted(r, Last(r).requests[id].sub)
  {
    var Extend(p, e) := r;
    StepMovesAuction(Last(p), e);
    if id in Last(p).requests {
      RequestsWereAccepted(p, id);
      AcceptanceStays(p, e, Last(p).requests[id].sub);
    } else {
      var d := DeliveredSlotSeen(Last(p), e.slotRead);
      JudgeIsVerdict(Last(p).view, d, e.sub, Judge(Last(p).view, d, e.sub));
      assert AcceptancePoint(r, p, e, e.sub);
    }
  }

  lemma {:induction false} WritersWereAccepted(r: Run, sub: Submission)
    requires IsRun(r) && sub in TraceWriters(r)
    ensures WasAccepted(r, sub) && sub.signatureOk
  {
    var Extend(p, e) := r;
    if sub in TraceWriters(p) {
      WritersWereAccepted(p, sub);
    } else {
      RequestsWereAccepted(p, e.id);
    }
    AcceptanceStays(p, e, sub);
    var q, at :| AcceptancePoint(r, q, at, sub);
    assert Passes(Last(q).view, if at.slotRead then Last(q).redis.lastDelivered else None, sub, 12);
  }

  // ----- the results -----

  // Every stored bid and top bid offers, field by field, the block of a submission that wrote
  // its payload. That submission passed every check, its signature included, and was admitted
  // in the run: its simulation succeeded, or it was covered by collateral.
  lemma {:induction false} BidProvenance(r: Run)
    requires IsRun(r)
    ensures forall k :: k in Last(r).redis.bids ==> PlacedBy(PayloadWriters(r), k, Last(r).redis.bids[k])
    ensures forall a :: a in Last(r).redis.topBids ==> OfferedBy(PayloadWriters(r), a, Last(r).redis.topBids[a])
    ensures forall sub :: sub in PayloadWriters(r) ==>
      sub.signatureOk && WasAccepted(r, sub) && exists q, e :: AdmissionPoint(r, q, e, sub)
  {
    RunIsExplained(r);
    forall sub | sub in PayloadWriters(r)
      ensures sub.signatureOk && WasAccepted(r, sub) && exists q, e :: AdmissionPoint(r, q, e, sub)
    {
      WritersAreAdmitted(r);
      WritersWereAccepted(r, sub);
      var q, e := FindAdmission(r, sub);
    }
  }

  // Every stored trace that was not there from the start is the whole message of an admitted
  // submission that wrote it, under the slot, proposer and block hash of that message; and
  // every such payload the submission's whole payload.
  lemma {:induction false} BlockProvenance(r: Run, k: PayloadKey)
    requires IsRun(r)
    ensures k in Last(r).redis.traces ==>
      || (k in First(r).redis.traces && Last(r).redis.traces[k] == First(r).redis.traces[k])
      || exists sub :: sub in TraceWriters(r) && BlockKey(k, sub) && Last(r).redis.traces[k] == sub.message
    ensures k in Last(r).redis.payloads ==>
      || (k in First(r).redis.payloads && Last(r).redis.payloads[k] == First(r).redis.payloads[k])
      || exists sub :: sub in PayloadWriters(r) && BlockKey(k, sub) && Last(r).redis.payloads[k] == sub.payload
    ensures TraceWriters(r) <= Admitted(r) && PayloadWriters(r) <= TraceWriters(r)
  {
    RunIsExplained(r);
    WritersAreAdmitted(r);
  }

  // Nobody else wrote another trace, or another payload, under the submission's key.
  ghost predicate SoleTrace(r: Run, sub: Submission)
    requires IsRun(r)
  {
    && (forall k :: BlockKey(k, sub) ==> k !in First(r).redis.traces)
    && forall other, k :: other in TraceWriters(r) && BlockKey(k, other) && BlockKey(k, sub) ==> other.message == sub.message
  }

  ghost predicate SolePayload(r: Run, sub: Submission)
    requires IsRun(r)
  {
    && (forall k :: BlockKey(k, sub) ==> k !in First(r).redis.payloads)
    && forall other, k :: other in PayloadWriters(r) && BlockKey(k, other) && BlockKey(k, sub) ==> other.payload == sub.payload
  }

  // The delivered blocks of a run are messages of its admitted submissions, or traces that
  // were stored before the run.
  lemma {:induction false} DeliveredBlocksAreSubmitted(r: Run, t: BidTrace)
    requires IsRun(r) && t in DeliveredBlocks(r)
    ensures t in First(r).redis.traces.Values || exists sub :: sub in Admitted(r) && sub.message == t
  {
    var Extend(p, e) := r;
    WritersAreAdmitted(p);
    if t in DeliveredBlocks(p) {
      DeliveredBlocksAreSubmitted(p, t);
    } else {
      BlockProvenance(p, Last(p).jobs[e.job].key);
    }
  }

  // A proposer that signs a header it was given by getHeader, now or earlier in the run, is
  // never refused its payload and gets the stored one whole. It is the payload the header was
  // made from, if no other payload was ever stored under the header's slot, proposer and hash.
  lemma GetHeaderThenGetPayload(q: Run, r: Run, a: AuctionKey, job: nat, signed: Builders.SignedBlindedBlock)
    requires IsRun(r) && Prefix(q, r) && IsRun(q) && a in Last(q).redis.topBids
    requires signed.slot == a.slot && signed.blockHash == Last(q).redis.topBids[a].header.blockHash
    requires job !in Last(r).jobs
    ensures
      var key := PayloadKey(a.slot, a.proposer, signed.blockHash);
      && Enabled(Last(r), GetPayload(job, key, signed)) && key in Last(r).redis.payloads
      && Apply(Last(r), GetPayload(job, key, signed)).jobs[job].block ==
           Builders.SignedBlock(signed, Last(r).redis.payloads[key])
      && ((forall sub :: sub in PayloadWriters(r) && BlockKey(key, sub) ==> SolePayload(r, sub)) ==>
           IsHeaderOf(Last(q).redis.topBids[a].header, Last(r).redis.payloads[key]))
  {
    EveryHeaderIsDeliverable(q, r, a);
    RunKeepsStore(q);
    var key := PayloadKey(a.slot, a.proposer, signed.blockHash);
    if forall sub :: sub in PayloadWriters(r) && BlockKey(key, sub) ==> SolePayload(r, sub) {
      HeaderMatchesPayload(q, r, a, key);
    }
  }

  lemma HeaderMatchesPayload(q: Run, r: Run, a: AuctionKey, key: PayloadKey)
    requires IsRun(r) && Prefix(q, r) && IsRun(q) && a in Last(q).redis.topBids && key in Last(r).redis.payloads
    requires key.slot == a.slot && key.proposer == a.proposer && key.blockHash == Last(q).redis.topBids[a].header.blockHash
    requires forall sub :: sub in PayloadWriters(r) && BlockKey(key, sub) ==> SolePayload(r, sub)
    ensures IsHeaderOf(Last(q).redis.topBids[a].header, Last(r).redis.payloads[key])
  {
    BidProvenance(q);
    WritersGrow(q, r);
    var sub :| sub in PayloadWriters(q) && InAuction(a, sub) && BidFrom(Last(q).redis.topBids[a], sub);
    WritersAreSound(q);
    assert BlockKey(key, sub) && SolePayload(r, sub);
    BlockProvenance(r, key);
  }

  // Who has written a payload has passed the sanity checks.
  lemma {:induction false} WritersAreSound(r: Run)
    requires IsRun(r)
    ensures forall sub :: sub in PayloadWriters(r) ==> sub.message.blockHash == sub.payload.blockHash
  {
    if r.Extend? {
      WritersAreSound(r.prev);
      RunKeepsStore(r.prev);
      var s, e := Last(r.prev), r.event;
      assert e.Advance? ==> Progress(s.redis, s.requests[e.id].sub, s.requests[e.id].pc);
    }
  }
}
