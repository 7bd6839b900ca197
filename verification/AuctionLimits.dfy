/** Runs at the edge of the auction's agreement: each of its three hypotheses, dropped alone,
    lets an auction come to rest with a top bid that is not the greatest stored bid. */
module AuctionLimits {
  import opened RelayTypes
  import opened RedisStore
  import opened Builders
  import opened Submissions
  import opened RelayMachine
  import opened AuctionAgreement
  import opened AuctionConvergence
  import AuctionSafety
  import Limits
  import Decimal

  // The auction has a bid and no pending save, yet its top bid is not the greatest.
  ghost predicate AtOddsAtRest(r: Run, a: AuctionKey)
    requires IsRun(r)
  {
    var s := Last(r);
    HasBid(s.redis, a) && !Pending(AuctionSafety.AuctionsOf(s), a) && !TopIsGreatest(s.redis, a)
  }

  // ----- kinds of runs, told from their events -----

  ghost predicate NoInterruption(r: Run) {
    r.Extend? ==> NoInterruption(r.prev) && !r.event.ChooseTop?
  }

  ghost predicate NoErrors(r: Run) {
    r.Extend? ==> NoErrors(r.prev) && !r.event.RedisError?
  }

  // Submissions come in while no other request has their builder and auction.
  ghost predicate FreshSubmits(r: Run)
    requires IsRun(r)
  {
    r.Extend? ==>
      && FreshSubmits(r.prev)
      && (r.event.Submit? ==> NoRequestFor(Last(r.prev).requests, BidKeyOf(r.event.sub)))
  }

  ghost predicate NoRequestFor(requests: map<nat, Request>, k: BidKey) {
    forall id :: id in requests ==> BidKeyOf(requests[id].sub) != k
  }

  ghost predicate DistinctKeys(requests: map<nat, Request>) {
    forall i, j :: i in requests && j in requests && i != j ==> BidKeyOf(requests[i].sub) != BidKeyOf(requests[j].sub)
  }

  lemma {:induction false} NoInterruptionAnywhere(r: Run, a: AuctionKey)
    requires IsRun(r) && NoInterruption(r)
    ensures UninterruptedIn(r, a)
  {
    if r.Extend? { NoInterruptionAnywhere(r.prev, a); }
  }

  lemma {:induction false} NoErrorsAnywhere(r: Run, a: AuctionKey)
    requires IsRun(r) && NoErrors(r)
    ensures CleanIn(r, a)
  {
    if r.Extend? { NoErrorsAnywhere(r.prev, a); }
  }

  lemma StepKeepsKeysDistinct(s: State, e: Event)
    requires Enabled(s, e) && DistinctKeys(s.requests)
    requires e.Submit? ==> NoRequestFor(s.requests, BidKeyOf(e.sub))
    ensures DistinctKeys(Apply(s, e).requests)
  {
    AuctionSafety.StepMovesAuction(s, e);
  }

  lemma {:induction false} FreshSubmitsAreSingle(r: Run, a: AuctionKey)
    requires IsRun(r) && FreshSubmits(r)
    ensures DistinctKeys(Last(r).requests) && SingleIn(r, a)
  {
    if r.Extend? {
      FreshSubmitsAreSingle(r.prev, a);
      StepKeepsKeysDistinct(Last(r.prev), r.event);
    }
  }

  // The later run is of every kind the earlier one is.
  ghost predicate Inherits(r: Run, r': Run)
    requires IsRun(r) && IsRun(r')
  {
    && (NoInterruption(r) ==> NoInterruption(r'))
    && (NoErrors(r) ==> NoErrors(r'))
    && (FreshSubmits(r) ==> FreshSubmits(r'))
  }

  // ----- building runs -----

  // An empty service with the duty and randao of the slot in place.
  function Empty(t: BidTrace): State {
    State(
      ApiView(0, false, 0, 0, map[], map[t.slot := Duty(t.feeRecipient, 0)], ExpectedRandao(t.slot, "")),
      {}, map[], Database(map[], []), Redis(None, map[], map[], map[], map[], map[], map[]), map[], map[])
  }

  function SubOf(t: BidTrace): Submission { Limits.SubmissionOf(t) }

  ghost predicate Valuable(t: BidTrace) { t.slot > 0 && t.value > 0 }

  // The bid competes in the auction the service is set up for.
  ghost predicate Competes(x: BidTrace, t: BidTrace) {
    && AuctionOf(SubOf(t)) == AuctionOf(SubOf(x)) && t.feeRecipient == x.feeRecipient && Valuable(x) && Valuable(t)
  }

  lemma JudgedSynchronously(x: BidTrace, t: BidTrace)
    requires Competes(x, t)
    ensures Judge(Empty(x).view, None, SubOf(t)) == Synchronous
  {
  }

  // A service in operation: only Redis and the requests have changed.
  ghost predicate Serving(r: Run, x: BidTrace, redis: Redis, requests: map<nat, Request>) {
    IsRun(r) && Last(r) == Empty(x).(redis := redis, requests := requests)
  }

  // A submission is simulated and passes the check for newer payloads.
  lemma Accept(r0: Run, x: BidTrace, redis: Redis, requests: map<nat, Request>, id: nat, t: BidTrace) returns (r: Run)
    requires Serving(r0, x, redis, requests) && Competes(x, t) && id !in requests
    requires redis.lastDelivered == None && BidKeyOf(SubOf(t)) !in redis.times
    ensures Serving(r, x, redis, requests[id := Request(SubOf(t), SaveTrace)])
    ensures (NoInterruption(r0) ==> NoInterruption(r)) && (NoErrors(r0) ==> NoErrors(r))
    ensures FreshSubmits(r0) && NoRequestFor(requests, BidKeyOf(SubOf(t))) ==> FreshSubmits(r)
  {
    JudgedSynchronously(x, t);
    var submit := Submit(id, SubOf(t), true);
    var r1 := Extend(r0, submit);
    assert Last(r1) == Empty(x).(redis := redis, requests := requests[id := Request(SubOf(t), Simulate)]);
    var r2 := Simulated(r1, x, redis, requests, id, SubOf(t));
    r := AdvanceTo(r2, x, redis, requests, id, SubOf(t), CheckLatest);
  }

  lemma Simulated(r0: Run, x: BidTrace, redis: Redis, requests: map<nat, Request>, id: nat, sub: Submission) returns (r: Run)
    requires Serving(r0, x, redis, requests[id := Request(sub, Simulate)])
    ensures Serving(r, x, redis, requests[id := Request(sub, CheckLatest)]) && Inherits(r0, r)
  {
    r := Extend(r0, SyncReply(id, BlockValid));
    assert Last(r).requests == requests[id := Request(sub, CheckLatest)];
  }

  // One operation of a request.
  lemma Advance1(r0: Run, x: BidTrace, redis: Redis, requests: map<nat, Request>, id: nat) returns (r: Run)
    requires Serving(r0, x, redis, requests) && id in requests && Saving(requests[id].pc) && requests[id].pc != ReadValues
    ensures
      var q := requests[id];
      Serving(r, x, AdvanceRedis(redis, q.sub, q.pc), requests[id := Request(q.sub, AdvancePc(redis, q.sub, q.pc))])
    ensures Inherits(r0, r)
  {
    r := Extend(r0, Advance(id));
  }

  lemma AdvanceTo(r0: Run, x: BidTrace, redis: Redis, requests: map<nat, Request>, id: nat, sub: Submission, pc: Pc) returns (r: Run)
    requires Serving(r0, x, redis, requests[id := Request(sub, pc)]) && Saving(pc) && pc != ReadValues
    ensures Serving(r, x, AdvanceRedis(redis, sub, pc), requests[id := Request(sub, AdvancePc(redis, sub, pc))])
    ensures Inherits(r0, r)
  {
    r := Advance1(r0, x, redis, requests[id := Request(sub, pc)], id);
    var pc' := AdvancePc(redis, sub, pc);
    assert requests[id := Request(sub, pc)][id := Request(sub, pc')] == requests[id := Request(sub, pc')];
  }

  // The writes of an accepted submission: trace and payload, ...
  function BlockSaved(r: Redis, sub: Submission): Redis {
    SaveExecutionPayload(SaveBidTrace(r, sub.message), PayloadKeyOf(sub.message), sub.payload)
  }

  lemma SaveBlock(r0: Run, x: BidTrace, redis: Redis, requests: map<nat, Request>, id: nat, sub: Submission) returns (r: Run)
    requires Serving(r0, x, redis, requests[id := Request(sub, SaveTrace)])
    ensures Serving(r, x, BlockSaved(redis, sub), requests[id := Request(sub, SaveBid)])
    ensures Inherits(r0, r)
  {
    var r1 := AdvanceTo(r0, x, redis, requests, id, sub, SaveTrace);
    r := AdvanceTo(r1, x, SaveBidTrace(redis, sub.message), requests, id, sub, SavePayload);
  }

  // ... then the bid, ...
  lemma WriteBid(r0: Run, x: BidTrace, redis: Redis, requests: map<nat, Request>, id: nat, sub: Submission) returns (r: Run)
    requires Serving(r0, x, redis, requests[id := Request(sub, SaveTrace)])
    ensures Serving(r, x, PutBid(BlockSaved(redis, sub), BidKeyOf(sub), BidOf(sub)), requests[id := Request(sub, SaveTime)])
    ensures Inherits(r0, r)
  {
    var r1 := SaveBlock(r0, x, redis, requests, id, sub);
    r := AdvanceTo(r1, x, BlockSaved(redis, sub), requests, id, sub, SaveBid);
  }

  // ... then its time and value.
  function ValueWritten(r: Redis, sub: Submission): Redis {
    PutValue(PutTime(r, BidKeyOf(sub), sub.receivedAt), BidKeyOf(sub), BidOf(sub).value)
  }

  lemma WriteValue(r0: Run, x: BidTrace, redis: Redis, requests: map<nat, Request>, id: nat, sub: Submission) returns (r: Run)
    requires Serving(r0, x, redis, requests[id := Request(sub, SaveTime)])
    ensures Serving(r, x, ValueWritten(redis, sub), requests[id := Request(sub, ReadValues)])
    ensures Inherits(r0, r)
  {
    var r1 := AdvanceTo(r0, x, redis, requests, id, sub, SaveTime);
    r := AdvanceTo(r1, x, PutTime(redis, BidKeyOf(sub), sub.receivedAt), requests, id, sub, SaveValue);
  }

  // A submission saves everything up to its top-bid update.
  lemma SaveAll(r0: Run, x: BidTrace, redis: Redis, requests: map<nat, Request>, id: nat, sub: Submission) returns (r: Run)
    requires Serving(r0, x, redis, requests[id := Request(sub, SaveTrace)])
    ensures Serving(r, x, Saved(redis, sub), requests[id := Request(sub, ReadValues)])
    ensures Inherits(r0, r)
  {
    var r1 := WriteBid(r0, x, redis, requests, id, sub);
    r := WriteValue(r1, x, PutBid(BlockSaved(redis, sub), BidKeyOf(sub), BidOf(sub)), requests, id, sub);
  }

  lemma Update(r0: Run, x: BidTrace, redis: Redis, requests: map<nat, Request>, id: nat, sub: Submission, b: Pubkey) returns (r: Run)
    requires Serving(r0, x, redis, requests[id := Request(sub, ReadValues)])
    requires IsTopBuilder(redis, AuctionOf(sub), b) && BidKey(AuctionOf(sub), b) in redis.bids
    ensures
      Serving(r, x, SetTopBid(redis, AuctionOf(sub), redis.bids[BidKey(AuctionOf(sub), b)]), requests[id := Request(sub, Finishing(false))])
    ensures Inherits(r0, r)
  {
    var e := UpdateTop(id, Some(b));
    assert Enabled(Last(r0), e);
    r := Extend(r0, e);
    assert Last(r).requests == requests[id := Request(sub, Finishing(false))];
  }

  lemma Choose(r0: Run, x: BidTrace, redis: Redis, requests: map<nat, Request>, id: nat, sub: Submission, b: Pubkey) returns (r: Run)
    requires Serving(r0, x, redis, requests[id := Request(sub, ReadValues)])
    requires IsTopBuilder(redis, AuctionOf(sub), b)
    ensures Serving(r, x, redis, requests[id := Request(sub, ReadBid(b))])
    ensures (NoErrors(r0) ==> NoErrors(r)) && (FreshSubmits(r0) ==> FreshSubmits(r))
  {
    var e := ChooseTop(id, Some(b));
    assert Enabled(Last(r0), e);
    r := Extend(r0, e);
    assert Last(r).requests == requests[id := Request(sub, ReadBid(b))];
  }

  lemma ChooseAndRead(
    r0: Run, x: BidTrace, redis: Redis, requests: map<nat, Request>, id: nat, sub: Submission, b: Pubkey, bid: Bid) returns (r: Run)
    requires Serving(r0, x, redis, requests[id := Request(sub, ReadValues)])
    requires IsTopBuilder(redis, AuctionOf(sub), b)
    requires BidKey(AuctionOf(sub), b) in redis.bids && redis.bids[BidKey(AuctionOf(sub), b)] == bid
    ensures Serving(r, x, redis, requests[id := Request(sub, WriteTop(bid))])
    ensures (NoErrors(r0) ==> NoErrors(r)) && (FreshSubmits(r0) ==> FreshSubmits(r))
  {
    var r1 := Choose(r0, x, redis, requests, id, sub, b);
    r := AdvanceTo(r1, x, redis, requests, id, sub, ReadBid(b));
  }

  lemma Fail(r0: Run, x: BidTrace, redis: Redis, requests: map<nat, Request>, id: nat, sub: Submission) returns (r: Run)
    requires Serving(r0, x, redis, requests[id := Request(sub, SaveTime)])
    ensures Serving(r, x, redis, requests[id := Request(sub, Finishing(false))])
    ensures (NoInterruption(r0) ==> NoInterruption(r)) && (FreshSubmits(r0) ==> FreshSubmits(r))
  {
    r := Extend(r0, RedisError(id));
    assert Last(r).requests == requests[id := Request(sub, Finishing(false))];
  }

  // All requests are finished, and some bid of the auction is greater than its top bid, or
  // there is none.
  lemma RestsAtOdds(r: Run, x: BidTrace, redis: Redis, requests: map<nat, Request>, k: BidKey)
    requires Serving(r, x, redis, requests) && forall id :: id in requests ==> requests[id].pc.Finishing?
    requires k in redis.bids && (k.auction in redis.topBids ==> redis.topBids[k.auction].value < redis.bids[k].value)
    ensures AtOddsAtRest(r, k.auction)
  {
  }

  // ----- a Redis error after the bid -----

  // For every bid: its write succeeds, the next operation fails, and the auction rests with a
  // stored bid and no top bid.
  lemma ErrorLeavesBidUnpublished(x: BidTrace) returns (r: Run)
    requires Valuable(x)
    ensures var a := AuctionOf(SubOf(x));
      IsRun(r) && UninterruptedIn(r, a) && SingleIn(r, a) && AtOddsAtRest(r, a)
  {
    var sub, empty := SubOf(x), Empty(x).redis;
    var r1 := Accept(Start(Empty(x)), x, empty, map[], 1, x);
    var r2 := WriteBid(r1, x, empty, map[], 1, sub);
    var redis := PutBid(BlockSaved(empty, sub), BidKeyOf(sub), BidOf(sub));
    r := Fail(r2, x, redis, map[], 1, sub);
    RestsAtOdds(r, x, redis, map[1 := Request(sub, Finishing(false))], BidKeyOf(sub));
    NoInterruptionAnywhere(r, AuctionOf(sub));
    FreshSubmitsAreSingle(r, AuctionOf(sub));
  }

  // ----- a top-bid update is interrupted -----

  ghost predicate Rivals(x: BidTrace, y: BidTrace) { Competes(x, y) && x.builder != y.builder && x.value < y.value }

  // A lone bid is its auction's top; beside a higher one, the higher is.
  lemma LoneBidIsTop(x: BidTrace)
    requires x.value > 0
    ensures IsTopBuilder(Saved(Empty(x).redis, SubOf(x)), AuctionOf(SubOf(x)), x.builder)
  {
    Decimal.ParseIntOfText(x.value);
  }

  lemma HigherBidIsTop(x: BidTrace, y: BidTrace)
    requires Rivals(x, y)
    ensures IsTopBuilder(Saved(Saved(Empty(x).redis, SubOf(x)), SubOf(y)), AuctionOf(SubOf(y)), y.builder)
  {
    Decimal.ParseIntOfText(x.value);
    Decimal.ParseIntOfText(y.value);
  }

  lemma OwnBidIsSaved(r: Redis, sub: Submission)
    ensures
      var k := BidKey(AuctionOf(sub), sub.message.builder);
      k == BidKeyOf(sub) && k in Saved(r, sub).bids && Saved(r, sub).bids[k] == BidOf(sub)
  {
  }

  // The lower bid is saved, chosen, and read for the top-bid write.
  lemma LowerBidIsChosen(x: BidTrace) returns (r: Run)
    requires Valuable(x)
    ensures Serving(r, x, Saved(Empty(x).redis, SubOf(x)), map[1 := Request(SubOf(x), WriteTop(BidOf(SubOf(x))))])
    ensures NoErrors(r) && FreshSubmits(r)
  {
    var sub, empty := SubOf(x), Empty(x).redis;
    var r1 := Accept(Start(Empty(x)), x, empty, map[], 1, x);
    var r2 := SaveAll(r1, x, empty, map[], 1, sub);
    LoneBidIsTop(x);
    OwnBidIsSaved(empty, sub);
    r := ChooseAndRead(r2, x, Saved(empty, sub), map[], 1, sub, x.builder, BidOf(sub));
  }

  // Meanwhile the higher bid is saved and becomes the top bid, uninterrupted.
  lemma HigherBidIsPublished(r0: Run, x: BidTrace, y: BidTrace, redis: Redis, requests: map<nat, Request>) returns (r: Run)
    requires Rivals(x, y) && Serving(r0, x, redis, requests) && redis == Saved(Empty(x).redis, SubOf(x))
    requires requests == map[1 := Request(SubOf(x), WriteTop(BidOf(SubOf(x))))]
    ensures
      Serving(r, x, SetTopBid(Saved(redis, SubOf(y)), AuctionOf(SubOf(y)), BidOf(SubOf(y))),
        requests[2 := Request(SubOf(y), Finishing(false))])
    ensures Inherits(r0, r)
  {
    var sub := SubOf(y);
    assert BidKeyOf(sub) != BidKeyOf(SubOf(x)) && BidKeyOf(sub) !in redis.times;
    var r1 := Accept(r0, x, redis, requests, 2, y);
    var r2 := SaveAll(r1, x, redis, requests, 2, sub);
    HigherBidIsTop(x, y);
    OwnBidIsSaved(redis, sub);
    r := Update(r2, x, Saved(redis, sub), requests, 2, sub, y.builder);
  }

  // At last the interrupted update writes the bid it had read.
  lemma WriteLower(r0: Run, x: BidTrace, redis: Redis, sub: Submission, bid: Bid, other: Request, k: BidKey) returns (r: Run)
    requires Serving(r0, x, redis, map[2 := other][1 := Request(sub, WriteTop(bid))]) && other.pc.Finishing?
    requires k in redis.bids && k.auction == AuctionOf(sub) && bid.value < redis.bids[k].value
    ensures IsRun(r) && Inherits(r0, r) && AtOddsAtRest(r, AuctionOf(sub))
    ensures AuctionOf(sub) in Last(r).redis.topBids && Last(r).redis.topBids[AuctionOf(sub)] == bid
  {
    r := AdvanceTo(r0, x, redis, map[2 := other], 1, sub, WriteTop(bid));
    RestsAtOdds(r, x, SetTopBid(redis, AuctionOf(sub), bid), map[2 := other][1 := Request(sub, Finishing(false))], k);
  }

  // For every two rival bids an update that was interrupted in between its read and its write
  // leaves the lower bid on top.
  lemma InterruptedUpdateLeavesLowerTop(x: BidTrace, y: BidTrace) returns (r: Run)
    requires Rivals(x, y)
    ensures var a := AuctionOf(SubOf(x));
      && IsRun(r) && CleanIn(r, a) && SingleIn(r, a) && AtOddsAtRest(r, a)
      && a in Last(r).redis.topBids && Last(r).redis.topBids[a] == BidOf(SubOf(x))
  {
    var a, sub := AuctionOf(SubOf(x)), SubOf(x);
    var redis := Saved(Empty(x).redis, sub);
    var r1 := LowerBidIsChosen(x);
    var r2 := HigherBidIsPublished(r1, x, y, redis, map[1 := Request(sub, WriteTop(BidOf(sub)))]);
    var redis2 := SetTopBid(Saved(redis, SubOf(y)), a, BidOf(SubOf(y)));
    OwnBidIsSaved(redis, SubOf(y));
    var other := Request(SubOf(y), Finishing(false));
    assert Last(r2).requests == map[2 := other][1 := Request(sub, WriteTop(BidOf(sub)))];
    r := WriteLower(r2, x, redis2, sub, BidOf(sub), other, BidKeyOf(SubOf(y)));
    NoErrorsAnywhere(r, a);
    FreshSubmitsAreSingle(r, a);
  }

  // ----- two saves of one builder overlap -----

  // One builder bids x and y, another z in between.
  ghost predicate Straddles(x: BidTrace, y: BidTrace, z: BidTrace) {
    && Competes(x, y) && Competes(x, z) && x.builder == y.builder != z.builder && x.value < z.value < y.value
  }

  // All three are accepted; then x writes its bid, y its bid and value, and x its value.
  function Overlapped(x: BidTrace, y: BidTrace, z: BidTrace): Redis {
    var r1 := Saved(Empty(x).redis, SubOf(z));
    var r2 := PutBid(BlockSaved(r1, SubOf(x)), BidKeyOf(SubOf(x)), BidOf(SubOf(x)));
    var r3 := Saved(r2, SubOf(y));
    ValueWritten(r3, SubOf(x))
  }

  // What the writes leave in the tables of bids and values.
  lemma WritesInTables(r: Redis, sub: Submission)
    ensures
      var k, text := BidKeyOf(sub), Decimal.ToText(sub.message.value);
      && Saved(r, sub).bids == r.bids[k := BidOf(sub)] && Saved(r, sub).values == r.values[k := text]
      && PutBid(BlockSaved(r, sub), k, BidOf(sub)).bids == r.bids[k := BidOf(sub)]
      && PutBid(BlockSaved(r, sub), k, BidOf(sub)).values == r.values
      && ValueWritten(r, sub).bids == r.bids && ValueWritten(r, sub).values == r.values[k := text]
  {
  }

  // The later write of a field replaces the earlier one.
  lemma LastWriteStays<T>(k: BidKey, kz: BidKey, az: T, b: T, c: T)
    requires k != kz
    ensures map[][kz := az][k := b][k := c] == map[kz := az, k := c]
  {
  }

  lemma OverlappedTables(x: BidTrace, y: BidTrace, z: BidTrace)
    requires Straddles(x, y, z)
    ensures
      var r, k, kz := Overlapped(x, y, z), BidKeyOf(SubOf(x)), BidKeyOf(SubOf(z));
      && k == BidKeyOf(SubOf(y)) != kz
      && r.bids == map[kz := BidOf(SubOf(z)), k := BidOf(SubOf(y))]
      && r.values == map[kz := Decimal.ToText(z.value), k := Decimal.ToText(x.value)]
  {
    var r1 := Saved(Empty(x).redis, SubOf(z));
    var r2 := PutBid(BlockSaved(r1, SubOf(x)), BidKeyOf(SubOf(x)), BidOf(SubOf(x)));
    WritesInTables(Empty(x).redis, SubOf(z));
    WritesInTables(r1, SubOf(x));
    WritesInTables(r2, SubOf(y));
    WritesInTables(Saved(r2, SubOf(y)), SubOf(x));
    var k, kz := BidKeyOf(SubOf(x)), BidKeyOf(SubOf(z));
    LastWriteStays(k, kz, BidOf(SubOf(z)), BidOf(SubOf(x)), BidOf(SubOf(y)));
    LastWriteStays(k, kz, Decimal.ToText(z.value), Decimal.ToText(y.value), Decimal.ToText(x.value));
  }

  lemma OverlapMisleads(x: BidTrace, y: BidTrace, z: BidTrace)
    requires Straddles(x, y, z)
    ensures
      var r, a := Overlapped(x, y, z), AuctionOf(SubOf(x));
      && IsTopBuilder(r, a, z.builder) && BidKey(a, z.builder) in r.bids
      && r.bids[BidKey(a, z.builder)] == BidOf(SubOf(z))
      && BidKeyOf(SubOf(y)) in r.bids && r.bids[BidKeyOf(SubOf(y))] == BidOf(SubOf(y))
  {
    OverlappedTables(x, y, z);
    Decimal.ParseIntOfText(x.value);
    Decimal.ParseIntOfText(z.value);
    assert BidKeyOf(SubOf(z)) == BidKey(AuctionOf(SubOf(x)), z.builder);
  }

  // The requests of z, x and y, under the identifiers 3, 1 and 2.
  function Three(z: Request, x: Request, y: Request): map<nat, Request> { map[3 := z, 1 := x, 2 := y] }

  lemma ThreeOneByOne(z: Request, x: Request, y: Request)
    ensures Three(z, x, y) == map[1 := x, 2 := y][3 := z] == map[3 := z, 2 := y][1 := x] == map[3 := z, 1 := x][2 := y]
  {
  }

  lemma AcceptThree(x: BidTrace, y: BidTrace, z: BidTrace) returns (r: Run)
    requires Straddles(x, y, z)
    ensures Serving(r, x, Empty(x).redis,
      Three(Request(SubOf(z), SaveTrace), Request(SubOf(x), SaveTrace), Request(SubOf(y), SaveTrace)))
    ensures NoInterruption(r) && NoErrors(r)
  {
    var r1 := Accept(Start(Empty(x)), x, Empty(x).redis, map[], 3, z);
    var r2 := Accept(r1, x, Empty(x).redis, map[3 := Request(SubOf(z), SaveTrace)], 1, x);
    r := Accept(r2, x, Empty(x).redis, map[3 := Request(SubOf(z), SaveTrace), 1 := Request(SubOf(x), SaveTrace)], 2, y);
  }

  lemma SaveThird(r0: Run, x: BidTrace, redis: Redis, subZ: Submission, qx: Request, qy: Request) returns (r: Run)
    requires Serving(r0, x, redis, Three(Request(subZ, SaveTrace), qx, qy))
    ensures Serving(r, x, Saved(redis, subZ), Three(Request(subZ, ReadValues), qx, qy)) && Inherits(r0, r)
  {
    ThreeOneByOne(Request(subZ, SaveTrace), qx, qy);
    r := SaveAll(r0, x, redis, map[1 := qx, 2 := qy], 3, subZ);
    ThreeOneByOne(Request(subZ, ReadValues), qx, qy);
  }

  lemma WriteFirstBid(r0: Run, x: BidTrace, redis: Redis, qz: Request, subX: Submission, qy: Request) returns (r: Run)
    requires Serving(r0, x, redis, Three(qz, Request(subX, SaveTrace), qy))
    ensures Serving(r, x, PutBid(BlockSaved(redis, subX), BidKeyOf(subX), BidOf(subX)), Three(qz, Request(subX, SaveTime), qy))
    ensures Inherits(r0, r)
  {
    ThreeOneByOne(qz, Request(subX, SaveTrace), qy);
    r := WriteBid(r0, x, redis, map[3 := qz, 2 := qy], 1, subX);
    ThreeOneByOne(qz, Request(subX, SaveTime), qy);
  }

  lemma SaveSecond(r0: Run, x: BidTrace, redis: Redis, qz: Request, qx: Request, subY: Submission) returns (r: Run)
    requires Serving(r0, x, redis, Three(qz, qx, Request(subY, SaveTrace)))
    ensures Serving(r, x, Saved(redis, subY), Three(qz, qx, Request(subY, ReadValues))) && Inherits(r0, r)
  {
    ThreeOneByOne(qz, qx, Request(subY, SaveTrace));
    r := SaveAll(r0, x, redis, map[3 := qz, 1 := qx], 2, subY);
    ThreeOneByOne(qz, qx, Request(subY, ReadValues));
  }

  lemma WriteFirstValue(r0: Run, x: BidTrace, redis: Redis, qz: Request, subX: Submission, qy: Request) returns (r: Run)
    requires Serving(r0, x, redis, Three(qz, Request(subX, SaveTime), qy))
    ensures Serving(r, x, ValueWritten(redis, subX), Three(qz, Request(subX, ReadValues), qy)) && Inherits(r0, r)
  {
    ThreeOneByOne(qz, Request(subX, SaveTime), qy);
    r := WriteValue(r0, x, redis, map[3 := qz, 2 := qy], 1, subX);
    ThreeOneByOne(qz, Request(subX, ReadValues), qy);
  }

  lemma Overlap(r0: Run, x: BidTrace, y: BidTrace, z: BidTrace) returns (r: Run)
    requires Serving(r0, x, Empty(x).redis,
      Three(Request(SubOf(z), SaveTrace), Request(SubOf(x), SaveTrace), Request(SubOf(y), SaveTrace)))
    ensures Serving(r, x, Overlapped(x, y, z),
      Three(Request(SubOf(z), ReadValues), Request(SubOf(x), ReadValues), Request(SubOf(y), ReadValues)))
    ensures Inherits(r0, r)
  {
    var subX, subY, subZ := SubOf(x), SubOf(y), SubOf(z);
    var r1 := SaveThird(r0, x, Empty(x).redis, subZ, Request(subX, SaveTrace), Request(subY, SaveTrace));
    var redis1 := Saved(Empty(x).redis, subZ);
    var r2 := WriteFirstBid(r1, x, redis1, Request(subZ, ReadValues), subX, Request(subY, SaveTrace));
    var redis2 := PutBid(BlockSaved(redis1, subX), BidKeyOf(subX), BidOf(subX));
    var r3 := SaveSecond(r2, x, redis2, Request(subZ, ReadValues), Request(subX, SaveTime), subY);
    r := WriteFirstValue(r3, x, Saved(redis2, subY), Request(subZ, ReadValues), subX, Request(subY, ReadValues));
  }

  // All three updates publish the chosen builder's bid, although a greater one is stored.
  lemma UpdateThree(
    r0: Run, x: BidTrace, redis: Redis, subZ: Submission, subX: Submission, subY: Submission, b: Pubkey, bid: Bid, k: BidKey)
    returns (r: Run)
    requires Serving(r0, x, redis, Three(Request(subZ, ReadValues), Request(subX, ReadValues), Request(subY, ReadValues)))
    requires AuctionOf(subX) == AuctionOf(subY) == AuctionOf(subZ) && IsTopBuilder(redis, AuctionOf(subX), b)
    requires BidKey(AuctionOf(subX), b) in redis.bids && redis.bids[BidKey(AuctionOf(subX), b)] == bid
    requires k in redis.bids && k.auction == AuctionOf(subX) && bid.value < redis.bids[k].value
    ensures IsRun(r) && Inherits(r0, r) && AtOddsAtRest(r, AuctionOf(subX))
  {
    var a, done := AuctionOf(subX), Finishing(false);
    ThreeOneByOne(Request(subZ, ReadValues), Request(subX, ReadValues), Request(subY, ReadValues));
    var r1 := Update(r0, x, redis, map[1 := Request(subX, ReadValues), 2 := Request(subY, ReadValues)], 3, subZ, b);
    var top := SetTopBid(redis, a, bid);
    TopBidIsNoValue(redis, a, bid, b);
    assert SetTopBid(top, a, bid) == top;
    ThreeOneByOne(Request(subZ, done), Request(subX, ReadValues), Request(subY, ReadValues));
    var r2 := Update(r1, x, top, map[3 := Request(subZ, done), 2 := Request(subY, ReadValues)], 1, subX, b);
    ThreeOneByOne(Request(subZ, done), Request(subX, done), Request(subY, ReadValues));
    r := Update(r2, x, top, map[3 := Request(subZ, done), 1 := Request(subX, done)], 2, subY, b);
    RestsAtOdds(r, x, top, map[3 := Request(subZ, done), 1 := Request(subX, done)][2 := Request(subY, done)], k);
  }

  lemma TopBidIsNoValue(r: Redis, a: AuctionKey, bid: Bid, b: Pubkey)
    requires IsTopBuilder(r, a, b)
    ensures IsTopBuilder(SetTopBid(r, a, bid), a, b)
  {
    assert forall k :: k in r.values ==> ValueAt(SetTopBid(r, a, bid), k) == ValueAt(r, k);
  }

  // For every three such bids two overlapping saves of one builder leave its higher bid beside
  // its lower value, and the other builder's bid on top.
  lemma OverlappingSavesMislead(x: BidTrace, y: BidTrace, z: BidTrace) returns (r: Run)
    requires Straddles(x, y, z)
    ensures var a := AuctionOf(SubOf(x));
      IsRun(r) && UninterruptedIn(r, a) && CleanIn(r, a) && AtOddsAtRest(r, a)
  {
    var a := AuctionOf(SubOf(x));
    var r1 := AcceptThree(x, y, z);
    var r2 := Overlap(r1, x, y, z);
    OverlapMisleads(x, y, z);
    r := UpdateThree(r2, x, Overlapped(x, y, z), SubOf(z), SubOf(x), SubOf(y), z.builder, BidOf(SubOf(z)), BidKeyOf(SubOf(y)));
    NoInterruptionAnywhere(r, a);
    NoErrorsAnywhere(r, a);
  }
}
