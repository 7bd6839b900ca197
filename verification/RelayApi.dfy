/** The API object: its handlers as methods over its fields, the cache and the database. Each
    takes the steps of the transition system: applied to a state that agrees with the objects
    before the call, they give one that agrees with the objects after it. */
module RelayApi {
  import opened RelayTypes
  import opened RedisStore
  import opened Builders
  import opened Submissions
  import opened RelayMachine
  import opened AuctionSafety
  import opened AuctionConvergence
  import Decimal

  // The cache after a refresh: status and collateral of every row of the table, where collateral
  // that is no number counts as zero; entries of other builders stay.
  ghost predicate Refreshed(before: map<Pubkey, CacheEntry>, builders: map<Pubkey, BuilderRow>, after: map<Pubkey, CacheEntry>) {
    && after.Keys == before.Keys + builders.Keys
    && (forall pk :: pk in builders ==>
         && after[pk].status == builders[pk].status
         && after[pk].collateral == if builders[pk].collateral.Some? then builders[pk].collateral.value else 0)
    && (forall pk :: pk in before && pk !in builders ==> after[pk] == before[pk])
  }

  lemma RefreshCacheIsRefreshed(cache: map<Pubkey, CacheEntry>, builders: map<Pubkey, BuilderRow>)
    ensures Refreshed(cache, builders, RefreshCache(cache, builders))
  {
  }

  datatype SaveOutcome = Stored | AlreadyNewer | NotStored | TopBidError(error: UpdateError)

  // Which Redis calls of a submission fail.
  datatype Faults = Faults(check: bool, trace: bool, payload: bool, bid: Option<nat>, top: Option<TopBidCall>)

  const NoFaults := Faults(false, false, false, None, None)

  lemma RefreshOneMore(cache: map<Pubkey, CacheEntry>, builders: map<Pubkey, BuilderRow>, todo: set<Pubkey>, pk: Pubkey)
    requires pk in todo && pk in builders
    ensures RefreshCache(cache, builders - (todo - {pk})) == RefreshCache(cache, builders - todo)[pk := CacheOf(builders[pk])]
  {
  }

  // A payload of the builder for the same auction was received later.
  ghost predicate IsStale(r: Redis, sub: Submission) {
    var k := BidKey(AuctionKey(sub.message.slot, sub.message.parentHash, sub.message.proposer), sub.message.builder);
    k in r.times && sub.receivedAt < r.times[k]
  }

  // Trace, payload, bid, time and value of the submission are stored under its keys; the top
  // bids are left aside.
  ghost predicate IsRecorded(before: Redis, sub: Submission, after: Redis) {
    var m, p := sub.message, sub.payload;
    var block, k := PayloadKey(m.slot, m.proposer, m.blockHash), BidKey(AuctionKey(m.slot, m.parentHash, m.proposer), m.builder);
    && after.lastDelivered == before.lastDelivered
    && after.traces == before.traces[block := m]
    && after.payloads == before.payloads[block := p]
    && after.bids == before.bids[k := Bid(PayloadHeader(p.parentHash, p.blockHash, p.timestamp, p.random), m.value)]
    && after.times == before.times[k := sub.receivedAt]
    && after.values == before.values[k := Decimal.ToText(m.value)]
  }

  // The answer once the bid is written, told from the builder the scan chose and the call that
  // failed, if any.
  ghost predicate IsAnswer(r: Redis, a: AuctionKey, winner: Option<Pubkey>, fault: Option<TopBidCall>, out: SaveOutcome) {
    var found := winner.Some? && BidKey(a, winner.value) in r.bids;
    && (out == Stored <==> found && fault == None)
    && (out == TopBidError(NoBids) <==> winner.None? && fault != Some(ReadValuesCall))
    && (out == TopBidError(MissingBid) <==> winner.Some? && !found && fault != Some(ReadValuesCall) && fault != Some(ReadBidCall))
    && (out == TopBidError(RedisFailed) <==>
         || fault == Some(ReadValuesCall)
         || (winner.Some? && fault == Some(ReadBidCall))
         || (found && fault == Some(WriteTopCall)))
  }

  // The submission is recorded, a builder of greatest value was chosen unless there is none,
  // and its bid is the new top bid exactly if the answer says so.
  ghost predicate IsPublished(
    before: Redis, sub: Submission, fault: Option<TopBidCall>, winner: Option<Pubkey>, out: SaveOutcome, after: Redis)
  {
    var a := AuctionKey(sub.message.slot, sub.message.parentHash, sub.message.proposer);
    && IsRecorded(before, sub, after) && MayChoose(after, a, winner) && IsAnswer(after, a, winner, fault, out)
    && (sub.message.value > 0 ==> winner.Some?)
    && after.topBids == if out == Stored then before.topBids[a := after.bids[BidKey(a, winner.value)]] else before.topBids
  }

  lemma SavedIsRecorded(r: Redis, sub: Submission)
    ensures IsRecorded(r, sub, AuctionConvergence.Saved(r, sub)) && AuctionConvergence.Saved(r, sub).topBids == r.topBids
    ensures forall w, top :: MayChoose(AuctionConvergence.Saved(r, sub), AuctionOf(sub), w) ==>
      MayChoose(AuctionConvergence.Saved(r, sub).(topBids := top), AuctionOf(sub), w)
  {
  }

  // Where every recorded value has its bid, so has the chosen builder.
  lemma ValuedBuilderHasBid(r: Redis, sub: Submission, b: Pubkey)
    requires IsTopBuilder(AuctionConvergence.Saved(r, sub), AuctionOf(sub), b)
    ensures ValuesOk(r) ==> BidKey(AuctionOf(sub), b) in AuctionConvergence.Saved(r, sub).bids
  {
  }

  // The failed block t is recorded, and all builders sharing its builder's collateral have the
  // flags cached for that builder, demoted in any case.
  ghost predicate Demoted(cache: map<Pubkey, CacheEntry>, t: BidTrace, before: Database, after: Database) {
    && DemotionInserted(before.demotions, t, after.demotions)
    && exists status: BuilderStatus ::
         && GroupHasStatus(before.builders, t.builder, status, after.builders) && status.isDemoted
         && (status.isHighPrio <==> t.builder in cache && cache[t.builder].status.isHighPrio)
         && (status.isBlacklisted <==> t.builder in cache && cache[t.builder].status.isBlacklisted)
  }

  // The proposer's header is the top bid of auction a.
  ghost predicate SignedFor(r: Redis, a: AuctionKey, proposer: Pubkey, signed: SignedBlindedBlock) {
    && a in r.topBids && a.slot == signed.slot && a.proposer == proposer
    && r.topBids[a].header.blockHash == signed.blockHash
  }

  class RelayAPI {
    const genesisTime: nat
    const disableLowPrio: bool
    const db: DatabaseService
    const redis: RedisCache

    var headSlot: nat
    var optimisticSlot: nat
    var blockBuildersCache: map<Pubkey, CacheEntry>
    var proposerDutiesMap: map<nat, Duty>
    var expectedPrevRandao: ExpectedRandao

    function View(): ApiView
      reads this
    {
      ApiView(genesisTime, disableLowPrio, headSlot, optimisticSlot, blockBuildersCache, proposerDutiesMap, expectedPrevRandao)
    }

    constructor (genesisTime: nat, disableLowPrio: bool, db: DatabaseService, redis: RedisCache)
      ensures View() == ApiView(genesisTime, disableLowPrio, 0, 0, map[], map[], ExpectedRandao(0, ""))
      ensures this.db == db && this.redis == redis
    {
      this.genesisTime, this.disableLowPrio, this.db, this.redis := genesisTime, disableLowPrio, db, redis;
      headSlot, optimisticSlot := 0, 0;
      blockBuildersCache, proposerDutiesMap := map[], map[];
      expectedPrevRandao := ExpectedRandao(0, "");
    }

    // The objects hold what the state says.
    ghost predicate Matches(s: State)
      reads this, db, redis
    {
      s.view == View() && s.db == db.State() && s.redis == redis.State()
    }

    // Only a newer head counts; it is stored and the caller starts the per-slot updates.
    method ProcessNewSlot(head: nat, ghost s: State) returns (isNew: bool)
      requires Matches(s)
      modifies this`headSlot
      ensures isNew <==> head > old(headSlot)
      ensures headSlot == if isNew then head else old(headSlot)
      ensures isNew <==> Enabled(s, NewHead(head))
      ensures Matches(if isNew then Apply(s, NewHead(head)) else s)
    {
      if head <= headSlot {
        return false;
      }
      headSlot := head;
      return true;
    }

    // Runs once no optimistic block is in flight: moves the slot and rereads the builders,
    // unless the table cannot be read.
    method UpdateOptimisticSlot(head: nat, tableRead: bool, ghost s: State)
      requires Matches(s) && Enabled(s, Refresh(head, tableRead))
      modifies this`optimisticSlot, this`blockBuildersCache
      ensures optimisticSlot == head + 1
      ensures if tableRead then Refreshed(old(blockBuildersCache), db.builders, blockBuildersCache)
              else blockBuildersCache == old(blockBuildersCache)
      ensures Matches(Apply(s, Refresh(head, tableRead)))
    {
      optimisticSlot := head + 1;
      if tableRead {
        RereadBuilders();
      }
    }

    // Every row of the table replaces the builder's entry, in any order.
    method RereadBuilders()
      modifies this`blockBuildersCache
      ensures blockBuildersCache == RefreshCache(old(blockBuildersCache), db.builders)
      ensures Refreshed(old(blockBuildersCache), db.builders, blockBuildersCache)
    {
      var builders := db.builders;
      var todo := builders.Keys;
      assert RefreshCache(blockBuildersCache, builders - todo) == blockBuildersCache;
      while todo != {}
        invariant todo <= builders.Keys && builders == db.builders
        invariant blockBuildersCache == RefreshCache(old(blockBuildersCache), builders - todo)
        decreases |todo|
      {
        var pk :| pk in todo;
        var row := builders[pk];
        RefreshOneMore(old(blockBuildersCache), builders, todo, pk);
        var collateral := if row.collateral.Some? then row.collateral.value else 0;
        blockBuildersCache := blockBuildersCache[pk := CacheEntry(row.status, collateral)];
        todo := todo - {pk};
      }
      assert builders - {} == builders;
      RefreshCacheIsRefreshed(old(blockBuildersCache), builders);
    }

    // The checks of submitNewBlock, in order, and the choice of how to simulate. A delivered
    // slot that cannot be read is passed over.
    method CheckSubmission(sub: Submission, slotRead: bool, ghost s: State) returns (verdict: Verdict)
      requires Matches(s)
      ensures IsVerdict(View(), if slotRead then redis.lastDelivered else None, sub, verdict)
      ensures verdict == Judge(s.view, DeliveredSlotSeen(s, slotRead), sub)
    {
      JudgeIsVerdict(View(), DeliveredSlotSeen(s, slotRead), sub, Judge(View(), DeliveredSlotSeen(s, slotRead), sub));
      var m, p := sub.message, sub.payload;
      if slotRead && redis.lastDelivered.Some? {
        if m.slot <= redis.lastDelivered.value {
          return Refused(AlreadyDelivered);
        }
      }
      var entry := CacheEntry(BuilderStatus(false, false, false), 0);
      if m.builder in blockBuildersCache {
        entry := blockBuildersCache[m.builder];
      }
      if p.timestamp != ExpectedTimestamp(genesisTime, m.slot) {
        return Refused(WrongTimestamp);
      }
      if m.slot !in proposerDutiesMap {
        return Refused(NoSlotDuty);
      } else if proposerDutiesMap[m.slot].feeRecipient != m.feeRecipient {
        return Refused(WrongFeeRecipient);
      }
      if entry.status.isBlacklisted {
        return Dropped;
      }
      if disableLowPrio && !entry.status.isHighPrio {
        return Dropped;
      }
      if m.slot <= headSlot {
        return Refused(PastSlot);
      }
      if m.value == 0 || |p.transactions| == 0 {
        return Dropped;
      }
      if m.blockHash != p.blockHash {
        return Refused(BlockHashMismatch);
      }
      if m.parentHash != p.parentHash {
        return Refused(ParentHashMismatch);
      }
      if expectedPrevRandao.slot != m.slot {
        return Refused(RandaoUnknown);
      } else if expectedPrevRandao.prevRandao != p.random {
        return Refused(WrongRandao);
      }
      if !sub.signatureOk {
        return Refused(BadSignature);
      }
      if entry.collateral > m.value && !entry.status.isDemoted && m.slot == optimisticSlot {
        return Optimistic;
      }
      return Synchronous;
    }

    // A failed optimistic block: the status of the builder's whole group, then the row.
    method DemoteBuilder(t: BidTrace)
      modifies db
      ensures db.builders == SetStatus(old(db.builders), t.builder, DemotedStatus(blockBuildersCache, t.builder))
      ensures db.demotions == InsertDemotion(old(db.demotions), t)
      ensures Demoted(blockBuildersCache, t, old(db.State()), db.State())
    {
      var entry := CacheEntry(BuilderStatus(false, false, false), 0);
      if t.builder in blockBuildersCache {
        entry := blockBuildersCache[t.builder];
      }
      var newStatus := BuilderStatus(entry.status.isHighPrio, entry.status.isBlacklisted, true);
      var statusErr := db.SetBlockBuilderStatus(t.builder, newStatus);
      var rowErr := db.InsertBuilderDemotion(t);
    }

    // The background simulation of an optimistic block, answered with `reply`: the block being
    // known already is as good as valid; anything else demotes.
    method ProcessOptimisticBlock(id: nat, t: BidTrace, reply: SimReply, ghost s: State) returns (simFailed: bool)
      requires Matches(s) && Enabled(s, OptimisticReply(id, reply)) && s.inFlight[id].sub.message == t
      modifies db
      ensures simFailed <==> reply !in {BlockValid, AlreadyKnown}
      ensures if simFailed then Demoted(blockBuildersCache, t, old(db.State()), db.State()) else db.State() == old(db.State())
      ensures Matches(AfterSimulation(s, id, reply)) && id !in AfterSimulation(s, id, reply).inFlight
    {
      if SimSucceeds(reply) {
        return false;
      }
      DemoteBuilder(t);
      return true;
    }

    // The tail of submitNewBlock: unless a newer payload is known, save trace, payload and
    // bid, then recompute the top bid. `ops` records the operations on Redis, and `winner` the
    // builder the scan of the values ended with.
    method SaveSubmission(sub: Submission, faults: Faults)
      returns (out: SaveOutcome, ghost ops: seq<Point>, ghost winner: Option<Pubkey>)
      modifies redis
      ensures IsService(sub, ops) && ops[0].redis == old(redis.State()) && ops[|ops| - 1].redis == redis.State()
      ensures faults == NoFaults ==> Completes(old(redis.State()), sub, redis.State())
      ensures out == AlreadyNewer <==> !faults.check && IsStale(old(redis.State()), sub)
      ensures out == AlreadyNewer ==> redis.State() == old(redis.State())
      ensures out == NotStored <==> out != AlreadyNewer && (faults.trace || faults.payload || faults.bid.Some?)
      ensures out != AlreadyNewer && out != NotStored ==> IsPublished(old(redis.State()), sub, faults.top, winner, out, redis.State())
      ensures faults == NoFaults && !IsStale(old(redis.State()), sub) && sub.message.value > 0 && ValuesOk(old(redis.State())) ==>
        out == Stored
    {
      ghost var before := redis.State();
      var k := BidKeyOf(sub);
      winner := None;
      ops := [Point(before, CheckLatest)];
      if !faults.check {
        var latest := if k in redis.times then redis.times[k] else 0;
        if sub.receivedAt < latest {
          ops := Extended(sub, ops, Point(before, Finishing(false)));
          return AlreadyNewer, ops, winner;
        }
      }
      ops := Extended(sub, ops, Point(before, SaveTrace));
      var saved;
      saved, ops := SaveBlock(sub, faults, ops);
      if !saved {
        return NotStored, ops, winner;
      }
      SavedIsRecorded(before, sub);
      out, ops, winner := PublishBid(sub, faults, ops);
      if winner.Some? && out != NotStored { ValuedBuilderHasBid(before, sub, winner.value); }
    }

    // Then the builder's bid, and the top bid recomputed from all values.
    method PublishBid(sub: Submission, faults: Faults, ghost before: seq<Point>)
      returns (out: SaveOutcome, ghost ops: seq<Point>, ghost winner: Option<Pubkey>)
      requires IsPath(sub, before) && before[|before| - 1] == Point(redis.State(), SaveBid)
      modifies redis
      ensures IsPath(sub, ops) && ops[0] == before[0] && ops[|ops| - 1] == Point(redis.State(), Finishing(false))
      ensures !out.AlreadyNewer? && (out.NotStored? <==> faults.bid.Some?)
      ensures
        var saved := SaveLatestBuilderBid(old(redis.State()), BidKeyOf(sub), sub.receivedAt, BidOf(sub));
        faults.bid.None? ==>
          && MayChoose(saved, AuctionOf(sub), winner) && (sub.message.value > 0 ==> winner.Some?)
          && IsAnswer(saved, AuctionOf(sub), winner, faults.top, out)
          && redis.State() == if out == Stored then TopAfter(saved, AuctionOf(sub), winner) else saved
    {
      winner := None;
      var stored := redis.SaveLatestBid(BidKeyOf(sub), sub.receivedAt, BidOf(sub), faults.bid);
      ops := BidOperations(sub, faults.bid, before);
      if !stored {
        return NotStored, ops, winner;
      }
      OwnValueIsPositive(before[|before| - 1].redis, sub);
      var res;
      res, winner := redis.UpdateTopBid(AuctionOf(sub), faults.top);
      ops := TopBidOperations(sub, winner, faults.top, ops);
      if res.Err? {
        return TopBidError(res.error), ops, winner;
      }
      return Stored, ops, winner;
    }

    // Trace and payload come first.
    method SaveBlock(sub: Submission, faults: Faults, ghost before: seq<Point>) returns (ok: bool, ghost ops: seq<Point>)
      requires IsPath(sub, before) && before[|before| - 1] == Point(redis.State(), SaveTrace)
      modifies redis
      ensures IsPath(sub, ops) && ops[0] == before[0]
      ensures ops[|ops| - 1] == Point(redis.State(), if ok then SaveBid else Finishing(false))
      ensures ok <==> !faults.trace && !faults.payload
      ensures
        var saved := SaveExecutionPayload(SaveBidTrace(old(redis.State()), sub.message), PayloadKeyOf(sub.message), sub.payload);
        ok ==> redis.State() == saved
    {
      ops := before;
      ok := redis.SaveTrace(sub.message, faults.trace);
      ghost var next := Point(redis.State(), if ok then SavePayload else Finishing(false));
      ops := Extended(sub, ops, next);
      if !ok {
        return;
      }
      ok := redis.SavePayload(PayloadKeyOf(sub.message), sub.payload, faults.payload);
      next := Point(redis.State(), if ok then SaveBid else Finishing(false));
      ops := Extended(sub, ops, next);
    }

    // getHeader: the best bid of an auction whose slot is not past.
    method HandleGetHeader(a: AuctionKey, stopping: bool, ghost r: Run) returns (bid: Option<Bid>)
      requires IsRun(r) && Matches(Last(r))
      ensures bid.Some? <==> a.slot >= headSlot && !stopping && a in redis.topBids
      ensures bid.Some? ==> bid.value == redis.topBids[a] && Deliverable(redis.State(), a, bid.value)
    {
      RunKeepsStore(r);
      if a.slot < headSlot || stopping {
        return None;
      }
      bid := redis.GetBestBid(a);
      if bid.Some? && bid.value.value == 0 {
        return None;
      }
    }

    // The stored payload of a getPayload call. A Redis miss is no error and ends the search;
    // the database row, if any, is consulted only when Redis itself fails.
    method GetGetPayloadResponse(key: PayloadKey, redisFails: bool, row: Option<ExecutionPayload>)
      returns (resp: Result<Option<ExecutionPayload>, DbError>)
      ensures !redisFails ==>
        resp == Ok(if key in redis.payloads then Some(redis.payloads[key]) else None)
      ensures redisFails ==> resp == if row.Some? then Ok(row) else Err(NoRows)
    {
      if !redisFails {
        return Ok(if key in redis.payloads then Some(redis.payloads[key]) else None);
      }
      if row.None? {
        return Err(NoRows);
      }
      return Ok(row);
    }

    // getPayload past its signature check: while Redis answers, the signed block is completed
    // exactly when the transition system delivers it, whatever the database holds; and never
    // refused when it was signed for a header this service has published in the run.
    method HandleGetPayload(
      j: nat, proposer: Pubkey, signed: SignedBlindedBlock, redisFails: bool, row: Option<ExecutionPayload>, ghost q: Run, ghost r: Run)
      returns (block: Option<SignedBlock>)
      requires IsRun(r) && Matches(Last(r)) && Prefix(q, r) && IsRun(q) && j !in Last(r).jobs
      ensures !redisFails ==>
        var key := PayloadKey(signed.slot, proposer, signed.blockHash);
        block == if key in redis.payloads then Some(SignedBlock(signed, redis.payloads[key])) else None
      ensures redisFails ==> block == if row.Some? then Some(SignedBlock(signed, row.value)) else None
      ensures !redisFails ==>
        var e := GetPayload(j, PayloadKey(signed.slot, proposer, signed.blockHash), signed);
        && (block.Some? <==> Enabled(Last(r), e))
        && (block.Some? ==> Apply(Last(r), e).jobs[j].block == block.value && block.value.payload.blockHash == signed.blockHash)
      ensures !redisFails && (exists a :: SignedFor(Last(q).redis, a, proposer, signed)) ==> block.Some?
    {
      RunKeepsStore(r);
      forall a | a in Last(q).redis.topBids ensures Deliverable(Last(r).redis, a, Last(q).redis.topBids[a]) {
        EveryHeaderIsDeliverable(q, r, a);
      }
      var resp := GetGetPayloadResponse(PayloadKey(signed.slot, proposer, signed.blockHash), redisFails, row);
      if resp.Err? || resp.value.None? {
        return None;
      }
      return Some(SignedBlock(signed, resp.value.value));
    }

    // The refund step of getPayload, once no optimistic block is in flight.
    method RecordRefund(j: nat, t: BidTrace, block: SignedBlock, reg: Option<Registration>, ghost s: State) returns (demoted: bool)
      requires Matches(s) && j in s.jobs && s.jobs[j].stage == Drained(t) && s.jobs[j].block == block
      modifies db`demotions
      ensures demoted <==> HasRow(old(db.demotions), DemotionKey(t.slot, t.builder, t.blockHash))
      ensures RefundWritten(old(db.demotions), t.slot, t.builder, t.blockHash, block, reg, db.demotions)
      ensures Matches(Apply(s, JobStep(j, reg)))
    {
      RefundStep(s, j, t, reg);
      var res := db.GetBuilderDemotion(KeyOfTrace(t));
      if res.Err? {
        return false;
      }
      db.UpdateBuilderDemotion(KeyOfTrace(t), block, reg);
      return true;
    }
  }

  // What the refund step changes of the state the objects hold.
  lemma RefundStep(s: State, j: nat, t: BidTrace, reg: Option<Registration>)
    requires j in s.jobs && s.jobs[j].stage == Drained(t)
    ensures
      var s' := Apply(s, JobStep(j, reg));
      && s'.view == s.view && s'.redis == s.redis && s'.db.builders == s.db.builders
      && s'.db.demotions ==
           if HasRow(s.db.demotions, KeyOfTrace(t)) then UpdateDemotions(s.db.demotions, KeyOfTrace(t), s.jobs[j].block, reg)
           else s.db.demotions
  {
  }

  // The operations behind the three writes of a bid, up to the one that fails.
  lemma BidOperations(sub: Submission, fault: Option<nat>, before: seq<Point>) returns (ops: seq<Point>)
    requires IsPath(sub, before) && before[|before| - 1].pc == SaveBid
    ensures IsPath(sub, ops) && ops[0] == before[0]
    ensures ops[|ops| - 1] == Point(
      SaveFirstWrites(before[|before| - 1].redis, BidKeyOf(sub), sub.receivedAt, BidOf(sub), if fault.Some? then fault.value else 3),
      if fault.Some? then Finishing(false) else ReadValues)
  {
    var n := if fault.Some? && fault.value < 3 then fault.value else 3;
    var r := before[|before| - 1].redis;
    ops := before;
    for i := 0 to n
      invariant IsPath(sub, ops) && ops[0] == before[0]
      invariant ops[|ops| - 1] == BidPoint(r, sub, i)
    {
      ops := Extended(sub, ops, BidPoint(r, sub, i + 1));
    }
    if fault.Some? {
      ops := Extended(sub, ops, Point(BidPoint(r, sub, n).redis, Finishing(false)));
    }
  }

  // The submission after i of the three writes.
  function BidPoint(r: Redis, sub: Submission, i: nat): Point {
    Point(SaveFirstWrites(r, BidKeyOf(sub), sub.receivedAt, BidOf(sub), i),
      if i == 0 then SaveBid else if i == 1 then SaveTime else if i == 2 then SaveValue else ReadValues)
  }

  // The operations behind an update of the top bid.
  lemma TopBidOperations(sub: Submission, winner: Option<Pubkey>, fault: Option<TopBidCall>, before: seq<Point>)
    returns (ops: seq<Point>)
    requires IsPath(sub, before) && before[|before| - 1].pc == ReadValues
    requires MayChoose(before[|before| - 1].redis, AuctionOf(sub), winner)
    ensures IsPath(sub, ops) && ops[0] == before[0]
    ensures
      var r, a := before[|before| - 1].redis, AuctionOf(sub);
      var answer := TopBidAnswer(r, a, winner, fault);
      ops[|ops| - 1] == Point(if answer.Ok? then SetTopBid(r, a, answer.value) else r, Finishing(false))
  {
    var r, a, done := before[|before| - 1].redis, AuctionOf(sub), Finishing(false);
    ops := before;
    if fault == Some(ReadValuesCall) || winner.None? {
      ops := Extended(sub, ops, Point(r, done));
      return;
    }
    ops := Extended(sub, ops, Point(r, ReadBid(winner.value)));
    var k := BidKey(a, winner.value);
    if fault == Some(ReadBidCall) || k !in r.bids {
      ops := Extended(sub, ops, Point(r, done));
      return;
    }
    ops := Extended(sub, ops, Point(r, WriteTop(r.bids[k])));
    var last := Point(if fault.Some? then r else SetTopBid(r, a, r.bids[k]), done);
    ops := Extended(sub, ops, last);
  }

  // A saved positive value keeps the top-bid update from coming up empty.
  lemma OwnValueIsPositive(r: Redis, sub: Submission)
    ensures sub.message.value > 0 ==>
      HasPositiveValue(SaveLatestBuilderBid(r, BidKeyOf(sub), sub.receivedAt, BidOf(sub)), AuctionOf(sub))
  {
    var saved := SaveLatestBuilderBid(r, BidKeyOf(sub), sub.receivedAt, BidOf(sub));
    Decimal.ParseIntOfText(sub.message.value);
    assert BidKeyOf(sub) in saved.values && BidKeyOf(sub).auction == AuctionOf(sub)
      && ValueAt(saved, BidKeyOf(sub)) == sub.message.value;
  }
}
