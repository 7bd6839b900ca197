/** Safety of the auction tables under every interleaving of single Redis operations: every
    published header is deliverable, every bid has a legitimate origin, and recomputing the
    top bid never comes up empty. */
module AuctionSafety {
  import opened RelayTypes
  import opened RedisStore
  import opened Submissions
  import opened RelayMachine

  // The part of the state the auction lives in.
  datatype Auctions = Auctions(redis: Redis, requests: map<nat, Request>)

  function AuctionsOf(s: State): Auctions { Auctions(s.redis, s.requests) }

  ghost predicate PcMoves(c: Auctions, id: nat, pc: Pc, c': Auctions) {
    id in c.requests && c'.requests == c.requests[id := c.requests[id].(pc := pc)]
  }

  // How each event moves the auction; all others leave it alone.
  ghost predicate AuctionMoves(c: Auctions, e: Event, c': Auctions) {
    match e
    case Submit(id, sub, _) =>
      c' == c || (id !in c.requests && Sound(sub) && c'.redis == c.redis
                  && exists pc: Pc :: (pc.Simulate? || pc.CheckLatest?) && c'.requests == c.requests[id := Request(sub, pc)])
    case SyncReply(id, reply) =>
      && id in c.requests && c.requests[id].pc == Simulate && c'.redis == c.redis
      && PcMoves(c, id, if SimSucceeds(reply) then CheckLatest else Finishing(true), c')
    case Advance(id) =>
      && id in c.requests && Saving(c.requests[id].pc) && c.requests[id].pc != ReadValues
      && var q := c.requests[id];
         c'.redis == AdvanceRedis(c.redis, q.sub, q.pc) && PcMoves(c, id, AdvancePc(c.redis, q.sub, q.pc), c')
    case ChooseTop(id, w) =>
      && id in c.requests && c.requests[id].pc == ReadValues && c'.redis == c.redis
      && MayChoose(c.redis, AuctionOf(c.requests[id].sub), w) && PcMoves(c, id, PcAfterScan(w), c')
    case UpdateTop(id, w) =>
      && id in c.requests && c.requests[id].pc == ReadValues
      && MayChoose(c.redis, AuctionOf(c.requests[id].sub), w)
      && c'.redis == TopAfter(c.redis, AuctionOf(c.requests[id].sub), w) && PcMoves(c, id, Finishing(false), c')
    case RedisError(id) =>
      && id in c.requests && Saving(c.requests[id].pc)
      && c'.redis == c.redis && PcMoves(c, id, PcAfterError(c.requests[id].pc), c')
    case Finish(id) => c'.redis == c.redis && c'.requests == c.requests - {id}
    case JobStep(_, _) =>
      c'.requests == c.requests && exists d :: c'.redis == c.redis.(lastDelivered := d)
    case _ => c' == c
  }

  // The events that take a request one step further.
  predicate MovesRequest(e: Event) {
    e.SyncReply? || e.Advance? || e.ChooseTop? || e.UpdateTop? || e.RedisError? || e.Finish?
  }

  lemma RequestStepMovesAuction(s: State, e: Event)
    requires Enabled(s, e) && MovesRequest(e)
    ensures AuctionMoves(AuctionsOf(s), e, AuctionsOf(Apply(s, e)))
  {
  }

  lemma StepMovesAuction(s: State, e: Event)
    requires Enabled(s, e)
    ensures AuctionMoves(AuctionsOf(s), e, AuctionsOf(Apply(s, e)))
  {
    if MovesRequest(e) {
      RequestStepMovesAuction(s, e);
    } else if e.Submit? {
      OptimisticIff(s.view, DeliveredSlotSeen(s, e.slotRead), e.sub);
    } else if e.JobStep? {
      var r := Apply(s, e).redis;
      assert r == s.redis.(lastDelivered := r.lastDelivered);
    }
  }

  // ----- deliverability -----

  // The bid is worth something, a getPayload call for its header finds the payload, and the
  // bookkeeping finds the bid trace.
  ghost predicate Deliverable(r: Redis, a: AuctionKey, bid: Bid) {
    var k := PayloadKey(a.slot, a.proposer, bid.header.blockHash);
    && k in r.traces && k in r.payloads
    && PayloadKeyOf(r.traces[k]) == k && r.payloads[k].blockHash == bid.header.blockHash
    && bid.value > 0
  }

  ghost predicate BidsOk(r: Redis) {
    forall k :: k in r.bids ==> Deliverable(r, k.auction, r.bids[k])
  }

  ghost predicate ValuesOk(r: Redis) {
    forall k :: k in r.values ==> k in r.bids && ValueAt(r, k) > 0
  }

  ghost predicate TopBidsOk(r: Redis) {
    forall a :: a in r.topBids ==> Deliverable(r, a, r.topBids[a])
  }

  ghost predicate StoreOk(r: Redis) {
    CoherentStore(r) && BidsOk(r) && ValuesOk(r) && TopBidsOk(r)
  }

  predicate PayloadSaved(pc: Pc) {
    pc.SaveBid? || pc.SaveTime? || pc.SaveValue? || pc.ReadValues? || pc.ReadBid? || pc.WriteTop?
  }

  // What a submission has written so far, by the step it takes next.
  ghost predicate Progress(r: Redis, sub: Submission, pc: Pc) {
    && Sound(sub)
    && (pc.SavePayload? || PayloadSaved(pc) ==> PayloadKeyOf(sub.message) in r.traces)
    && (PayloadSaved(pc) ==> PayloadKeyOf(sub.message) in r.payloads)
    && (pc.SaveTime? || pc.SaveValue? || pc.ReadValues? ==> BidKeyOf(sub) in r.bids)
    && (pc.ReadValues? ==> BidKeyOf(sub) in r.values)
    && (pc.ReadBid? ==> BidKey(AuctionOf(sub), pc.winner) in r.bids)
    && (pc.WriteTop? ==> Deliverable(r, AuctionOf(sub), pc.bid))
  }

  ghost predicate AllProgress(c: Auctions) {
    forall id :: id in c.requests ==> Progress(c.redis, c.requests[id].sub, c.requests[id].pc)
  }

  // Nothing is ever deleted, and keys stay coherent.
  ghost predicate StoreGrows(r: Redis, r': Redis) {
    && r.traces.Keys <= r'.traces.Keys && r.payloads.Keys <= r'.payloads.Keys
    && r.bids.Keys <= r'.bids.Keys && r.values.Keys <= r'.values.Keys
    && CoherentStore(r')
  }

  lemma DeliverableStays(r: Redis, r': Redis, a: AuctionKey, bid: Bid)
    requires StoreGrows(r, r') && Deliverable(r, a, bid)
    ensures Deliverable(r', a, bid)
  {
  }

  lemma BidValueIsPositive(r: Redis, k: BidKey, value: nat)
    ensures ValueAt(PutValue(r, k, value), k) == value
  {
    Decimal.ParseIntOfText(value);
  }

  lemma AdvanceKeepsCoherence(r: Redis, sub: Submission, pc: Pc)
    requires CoherentStore(r) && Sound(sub) && (pc.SavePayload? ==> PayloadKeyOf(sub.message) in r.traces)
    ensures CoherentStore(AdvanceRedis(r, sub, pc))
  {
  }

  lemma AdvanceKeepsKeys(r: Redis, sub: Submission, pc: Pc)
    ensures
      var r' := AdvanceRedis(r, sub, pc);
      && r.traces.Keys <= r'.traces.Keys && r.payloads.Keys <= r'.payloads.Keys
      && r.bids.Keys <= r'.bids.Keys && r.values.Keys <= r'.values.Keys
  {
    AdvanceTouches(r, sub, pc);
  }

  lemma AdvanceGrowsStore(r: Redis, sub: Submission, pc: Pc)
    requires CoherentStore(r) && Progress(r, sub, pc)
    ensures StoreGrows(r, AdvanceRedis(r, sub, pc))
  {
    AdvanceKeepsKeys(r, sub, pc);
    AdvanceKeepsCoherence(r, sub, pc);
  }

  lemma BidsStay(r: Redis, r': Redis)
    requires BidsOk(r) && r'.bids == r.bids && StoreGrows(r, r')
    ensures BidsOk(r')
  {
  }

  lemma TopBidsStay(r: Redis, r': Redis)
    requires TopBidsOk(r) && r'.topBids == r.topBids && StoreGrows(r, r')
    ensures TopBidsOk(r')
  {
  }

  lemma ValuesStay(r: Redis, r': Redis)
    requires ValuesOk(r) && r'.values == r.values && r.bids.Keys <= r'.bids.Keys
    ensures ValuesOk(r')
  {
  }

  lemma SetTopKeepsTops(r: Redis, a: AuctionKey, bid: Bid)
    requires TopBidsOk(r) && Deliverable(r, a, bid)
    ensures TopBidsOk(SetTopBid(r, a, bid))
  {
  }

  lemma PutValueKeepsValues(r: Redis, k: BidKey, value: nat)
    requires ValuesOk(r) && k in r.bids && value > 0
    ensures ValuesOk(PutValue(r, k, value))
  {
    BidValueIsPositive(r, k, value);
    assert forall q :: q in r.values && q != k ==> ValueAt(PutValue(r, k, value), q) == ValueAt(r, q);
  }

  // Each table is written by one operation only.
  ghost predicate Touches(r: Redis, sub: Submission, pc: Pc, r': Redis) {
    && (if pc.SaveBid? then r' == PutBid(r, BidKeyOf(sub), BidOf(sub)) else r'.bids == r.bids)
    && (if pc.SaveValue? then r' == PutValue(r, BidKeyOf(sub), BidOf(sub).value) else r'.values == r.values)
    && (if pc.WriteTop? then r' == SetTopBid(r, AuctionOf(sub), pc.bid) else r'.topBids == r.topBids)
    && (if pc.SaveTrace? then r' == SaveBidTrace(r, sub.message) else r'.traces == r.traces)
    && (if pc.SavePayload? then r' == SaveExecutionPayload(r, PayloadKeyOf(sub.message), sub.payload)
        else r'.payloads == r.payloads)
  }

  lemma AdvanceTouches(r: Redis, sub: Submission, pc: Pc)
    ensures Touches(r, sub, pc, AdvanceRedis(r, sub, pc))
  {
  }

  lemma TouchKeepsBids(r: Redis, sub: Submission, pc: Pc, r': Redis)
    requires CoherentStore(r) && BidsOk(r) && Progress(r, sub, pc) && Touches(r, sub, pc, r') && StoreGrows(r, r')
    ensures BidsOk(r')
  {
  }

  lemma TouchKeepsValues(r: Redis, sub: Submission, pc: Pc, r': Redis)
    requires ValuesOk(r) && Progress(r, sub, pc) && Touches(r, sub, pc, r') && StoreGrows(r, r')
    ensures ValuesOk(r')
  {
    if pc.SaveValue? {
      PutValueKeepsValues(r, BidKeyOf(sub), BidOf(sub).value);
    } else {
      ValuesStay(r, r');
    }
  }

  lemma TouchKeepsTopBids(r: Redis, sub: Submission, pc: Pc, r': Redis)
    requires TopBidsOk(r) && Progress(r, sub, pc) && Touches(r, sub, pc, r') && StoreGrows(r, r')
    ensures TopBidsOk(r')
  {
  }

  lemma AdvanceMakesProgress(r: Redis, sub: Submission, pc: Pc)
    requires StoreOk(r) && Progress(r, sub, pc) && Saving(pc) && pc != ReadValues
    ensures Progress(AdvanceRedis(r, sub, pc), sub, AdvancePc(r, sub, pc))
  {
  }

  lemma UpdateKeepsStore(r: Redis, a: AuctionKey, w: Option<Pubkey>)
    requires StoreOk(r)
    ensures StoreOk(TopAfter(r, a, w)) && StoreGrows(r, TopAfter(r, a, w))
  {
    if w.Some? && BidKey(a, w.value) in r.bids {
      var r' := SetTopBid(r, a, r.bids[BidKey(a, w.value)]);
      assert Deliverable(r, BidKey(a, w.value).auction, r.bids[BidKey(a, w.value)]);
      SetTopKeepsTops(r, a, r.bids[BidKey(a, w.value)]);
      BidsStay(r, r');
      ValuesStay(r, r');
    }
  }

  lemma DeliveredSlotIsNoMatter(r: Redis, r': Redis)
    requires StoreOk(r) && r' == r.(lastDelivered := r'.lastDelivered)
    ensures StoreOk(r') && StoreGrows(r, r')
  {
    BidsStay(r, r');
    ValuesStay(r, r');
    TopBidsStay(r, r');
  }

  lemma {:induction false} MoveKeepsStore(c: Auctions, e: Event, c': Auctions)
    requires StoreOk(c.redis) && AllProgress(c) && AuctionMoves(c, e, c')
    ensures StoreOk(c'.redis) && StoreGrows(c.redis, c'.redis)
  {
    match e
    case Advance(id) =>
      var q := c.requests[id];
      assert Progress(c.redis, q.sub, q.pc);
      AdvanceGrowsStore(c.redis, q.sub, q.pc);
      AdvanceTouches(c.redis, q.sub, q.pc);
      TouchKeepsBids(c.redis, q.sub, q.pc, c'.redis);
      TouchKeepsValues(c.redis, q.sub, q.pc, c'.redis);
      TouchKeepsTopBids(c.redis, q.sub, q.pc, c'.redis);
    case UpdateTop(id, w) => UpdateKeepsStore(c.redis, AuctionOf(c.requests[id].sub), w);
    case JobStep(_, _) => DeliveredSlotIsNoMatter(c.redis, c'.redis);
    case _ =>
  }

  // What others have written stays written.
  lemma ProgressStays(r: Redis, r': Redis, sub: Submission, pc: Pc)
    requires Progress(r, sub, pc) && StoreGrows(r, r')
    ensures Progress(r', sub, pc)
  {
  }

  lemma {:induction false} MoveKeepsProgress(c: Auctions, e: Event, c': Auctions)
    requires StoreOk(c.redis) && AllProgress(c) && AuctionMoves(c, e, c')
    ensures AllProgress(c')
  {
    MoveKeepsStore(c, e, c');
    forall id | id in c'.requests ensures Progress(c'.redis, c'.requests[id].sub, c'.requests[id].pc) {
      if id in c.requests && c.requests[id] == c'.requests[id] {
        ProgressStays(c.redis, c'.redis, c.requests[id].sub, c.requests[id].pc);
      } else {
        MoverMakesProgress(c, e, c', id);
      }
    }
  }

  lemma MoverMakesProgress(c: Auctions, e: Event, c': Auctions, id: nat)
    requires StoreOk(c.redis) && AllProgress(c) && AuctionMoves(c, e, c')
    requires id in c'.requests && (id !in c.requests || c.requests[id] != c'.requests[id])
    ensures Progress(c'.redis, c'.requests[id].sub, c'.requests[id].pc)
  {
    if id in c.requests {
      assert Progress(c.redis, c.requests[id].sub, c.requests[id].pc);
      if e.Advance? {
        AdvanceMakesProgress(c.redis, c.requests[id].sub, c.requests[id].pc);
      } else if e.ChooseTop? && e.winner.Some? {
        assert BidKey(AuctionOf(c.requests[id].sub), e.winner.value) in c.redis.values;
      }
    }
  }

  lemma {:induction false} RunKeepsStore(r: Run)
    requires IsRun(r)
    ensures StoreOk(Last(r).redis) && AllProgress(AuctionsOf(Last(r)))
  {
    if r.Extend? {
      RunKeepsStore(r.prev);
      StepMovesAuction(Last(r.prev), r.event);
      MoveKeepsStore(AuctionsOf(Last(r.prev)), r.event, AuctionsOf(Last(r)));
      MoveKeepsProgress(AuctionsOf(Last(r.prev)), r.event, AuctionsOf(Last(r)));
    }
  }

  lemma {:induction false} StoreGrowsByStep(r: Run, e: Event)
    requires IsRun(Extend(r, e))
    ensures StoreGrows(Last(r).redis, Last(Extend(r, e)).redis)
  {
    RunKeepsStore(r);
    StepMovesAuction(Last(r), e);
    MoveKeepsStore(AuctionsOf(Last(r)), e, AuctionsOf(Last(Extend(r, e))));
  }

  lemma {:induction false} StoreGrowsAlong(q: Run, r: Run)
    requires IsRun(r) && Prefix(q, r)
    ensures IsRun(q) && StoreGrows(Last(q).redis, Last(r).redis)
    decreases r
  {
    RunKeepsStore(r);
    if q != r {
      StoreGrowsAlong(q, r.prev);
      StoreGrowsByStep(r.prev, r.event);
    }
  }

  // A top bid published at some point of a run has a positive value, its trace and a payload with its block hash
  // stored at that point and ever after.
  lemma EveryHeaderIsDeliverable(q: Run, r: Run, a: AuctionKey)
    requires IsRun(r) && Prefix(q, r)
    ensures IsRun(q)
    ensures a in Last(q).redis.topBids ==>
      Deliverable(Last(q).redis, a, Last(q).redis.topBids[a]) && Deliverable(Last(r).redis, a, Last(q).redis.topBids[a])
  {
    StoreGrowsAlong(q, r);
    RunKeepsStore(q);
    if a in Last(q).redis.topBids {
      DeliverableStays(Last(q).redis, Last(r).redis, a, Last(q).redis.topBids[a]);
    }
  }

  // Once a submission has stored its value, the scan of UpdateTopBid always finds a builder,
  // and the builder it finds always has a bid: neither error of UpdateTopBid occurs.
  lemma {:induction false} UpdateTopBidNeverFails(r: Run, id: nat)
    requires IsRun(r) && id in Last(r).requests
    ensures
      var s := Last(r);
      var a := AuctionOf(s.requests[id].sub);
      && (s.requests[id].pc == ReadValues ==>
           && !MayChoose(s.redis, a, None)
           && exists b :: MayChoose(s.redis, a, Some(b)) && BidKey(a, b) in s.redis.bids)
      && (s.requests[id].pc.ReadBid? ==> AdvancePc(s.redis, s.requests[id].sub, s.requests[id].pc).WriteTop?)
  {
    RunKeepsStore(r);
    var s := Last(r);
    var q := s.requests[id];
    assert Progress(s.redis, q.sub, q.pc);
    if q.pc == ReadValues {
      assert BidKeyOf(q.sub) in s.redis.values;
      TopBuilderExists(s.redis, AuctionOf(q.sub));
      var b :| IsTopBuilder(s.redis, AuctionOf(q.sub), b);
      assert MayChoose(s.redis, AuctionOf(q.sub), Some(b)) && BidKey(AuctionOf(q.sub), b) in s.redis.bids;
    }
  }
}
