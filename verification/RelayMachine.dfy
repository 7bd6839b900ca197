/** The relay as a transition system: builder submissions, background simulations, cache
    refreshes and getPayload calls, interleaved at single Redis and database operations. */
module RelayMachine {
  import opened RelayTypes
  import opened RedisStore
  import opened Builders
  import opened Submissions

  // A background simulation counted by the wait group.
  datatype Phase = Running | Failed | StatusWritten
  datatype Flight = Flight(sub: Submission, phase: Phase)

  // Where a submitNewBlock call stands; every constructor names the step to be taken next.
  datatype Pc =
    | Simulate | CheckLatest
    | SaveTrace | SavePayload | SaveBid | SaveTime | SaveValue
    | ReadValues | ReadBid(winner: Pubkey) | WriteTop(bid: Bid)
    | Finishing(simError: bool)
  datatype Request = Request(sub: Submission, pc: Pc)

  // Where the bookkeeping goroutine of a getPayload call stands.
  datatype Stage =
    | Responded | Marked | NilTrace
    | Traced(trace: BidTrace) | Drained(trace: BidTrace)
    | Settled(trace: BidTrace, registration: Option<Registration>)
  datatype Job = Job(key: PayloadKey, block: SignedBlock, stage: Stage)

  datatype State = State(
    view: ApiView, pendingHeads: set<nat>, inFlight: map<nat, Flight>,
    db: Database, redis: Redis, requests: map<nat, Request>, jobs: map<nat, Job>)

  datatype Event =
    | NewHead(head: nat)                                   // head event: processNewSlot
    | Refresh(head: nat, tableRead: bool)                  // updateOptimisticSlot past its Wait
    | Environment(duties: map<nat, Duty>, randao: ExpectedRandao)
    | Submit(id: nat, sub: Submission, slotRead: bool)     // checks and dispatch of submitNewBlock
    | SyncReply(id: nat, reply: SimReply)
    | OptimisticReply(id: nat, reply: SimReply)
    | WriteStatus(id: nat)                                 // demoteBuilder, status write
    | WriteDemotion(id: nat)                               // demoteBuilder, demotion row, then Done
    | Advance(id: nat)                                     // next Redis operation of a submission
    | ChooseTop(id: nat, winner: Option<Pubkey>)           // UpdateTopBid: scan the values
    | UpdateTop(id: nat, winner: Option<Pubkey>)           // UpdateTopBid without interruption
    | RedisError(id: nat)                                  // next Redis operation fails
    | Finish(id: nat)                                      // deferred upsert of the builder entry
    | GetPayload(job: nat, key: PayloadKey, blinded: SignedBlindedBlock)
    | JobStep(job: nat, registration: Option<Registration>)
    | MarkFails(job: nat)                                  // the delivered slot cannot be written

  // ----- single steps -----

  function CacheOf(row: BuilderRow): CacheEntry {
    CacheEntry(row.status, match row.collateral case Some(c) => c case None => 0)
  }

  // The refresh overwrites the entry of every builder in the table and drops none.
  function RefreshCache(cache: map<Pubkey, CacheEntry>, builders: map<Pubkey, BuilderRow>): map<Pubkey, CacheEntry> {
    cache + map pk | pk in builders :: CacheOf(builders[pk])
  }

  function DemotedStatus(cache: map<Pubkey, CacheEntry>, pk: Pubkey): BuilderStatus {
    EntryOf(cache, pk).status.(isDemoted := true)
  }

  // Pcs at which a submission has passed simulation and has not finished.
  predicate Saving(pc: Pc) { !pc.Simulate? && !pc.Finishing? }

  // Effect of a submission's next operation on Redis ...
  function AdvanceRedis(r: Redis, sub: Submission, pc: Pc): Redis {
    match pc
    case SaveTrace => SaveBidTrace(r, sub.message)
    case SavePayload => SaveExecutionPayload(r, PayloadKeyOf(sub.message), sub.payload)
    case SaveBid => PutBid(r, BidKeyOf(sub), BidOf(sub))
    case SaveTime => PutTime(r, BidKeyOf(sub), sub.receivedAt)
    case SaveValue => PutValue(r, BidKeyOf(sub), BidOf(sub).value)
    case WriteTop(bid) => SetTopBid(r, AuctionOf(sub), bid)
    case _ => r
  }

  // ... and on the submission itself.
  function AdvancePc(r: Redis, sub: Submission, pc: Pc): Pc {
    match pc
    case CheckLatest => if sub.receivedAt < LatestReceivedAt(r, BidKeyOf(sub)) then Finishing(false) else SaveTrace
    case SaveTrace => SavePayload
    case SavePayload => SaveBid
    case SaveBid => SaveTime
    case SaveTime => SaveValue
    case SaveValue => ReadValues
    case ReadBid(w) =>
      var k := BidKey(AuctionOf(sub), w);
      if k in r.bids then WriteTop(r.bids[k]) else Finishing(false)
    case _ => Finishing(false)
  }

  function PcAfterScan(winner: Option<Pubkey>): Pc {
    match winner case Some(b) => ReadBid(b) case None => Finishing(false)
  }

  // An error ends the submission, except that a failed check for newer payloads is passed over.
  function PcAfterError(pc: Pc): Pc { if pc == CheckLatest then SaveTrace else Finishing(false) }

  // UpdateTopBid as one step: the bid of the chosen builder becomes the top bid.
  function TopAfter(r: Redis, a: AuctionKey, winner: Option<Pubkey>): Redis {
    if winner.Some? && BidKey(a, winner.value) in r.bids
    then SetTopBid(r, a, r.bids[BidKey(a, winner.value)]) else r
  }

  // ----- the machine -----

  predicate At(s: State, id: nat, pc: Pc) { id in s.requests && s.requests[id].pc == pc }

  predicate Enabled(s: State, e: Event) {
    match e
    case NewHead(h) => h > s.view.headSlot
    case Refresh(h, _) => h in s.pendingHeads && s.inFlight == map[]
    case Environment(_, _) => true
    case Submit(id, _, _) => id !in s.requests && id !in s.inFlight
    case SyncReply(id, _) => At(s, id, Simulate)
    case OptimisticReply(id, _) => id in s.inFlight && s.inFlight[id].phase == Running
    case WriteStatus(id) => id in s.inFlight && s.inFlight[id].phase == Failed
    case WriteDemotion(id) => id in s.inFlight && s.inFlight[id].phase == StatusWritten
    case Advance(id) => id in s.requests && Saving(s.requests[id].pc) && s.requests[id].pc != ReadValues
    case ChooseTop(id, w) => At(s, id, ReadValues) && MayChoose(s.redis, AuctionOf(s.requests[id].sub), w)
    case UpdateTop(id, w) => At(s, id, ReadValues) && MayChoose(s.redis, AuctionOf(s.requests[id].sub), w)
    case RedisError(id) => id in s.requests && Saving(s.requests[id].pc)
    case Finish(id) => id in s.requests && s.requests[id].pc.Finishing?
    case GetPayload(j, key, blinded) =>
      j !in s.jobs && key in s.redis.payloads && blinded.slot == key.slot && blinded.blockHash == key.blockHash
    case JobStep(j, _) =>
      && j in s.jobs && !s.jobs[j].stage.NilTrace? && !s.jobs[j].stage.Settled?
      && (s.jobs[j].stage.Traced? ==> s.inFlight == map[])
    case MarkFails(j) => j in s.jobs && s.jobs[j].stage.Responded?
  }

  function SetPc(s: State, id: nat, pc: Pc): map<nat, Request>
    requires id in s.requests
  {
    s.requests[id := s.requests[id].(pc := pc)]
  }

  function SetPhase(s: State, id: nat, phase: Phase): map<nat, Flight>
    requires id in s.inFlight
  {
    s.inFlight[id := s.inFlight[id].(phase := phase)]
  }

  // The delivered slot a submission is checked against; one that cannot be read is no obstacle.
  function DeliveredSlotSeen(s: State, slotRead: bool): Option<nat> {
    if slotRead then s.redis.lastDelivered else None
  }

  function SubmitStep(s: State, id: nat, sub: Submission, slotRead: bool): State {
    match Judge(s.view, DeliveredSlotSeen(s, slotRead), sub)
    case Optimistic =>
      s.(requests := s.requests[id := Request(sub, CheckLatest)], inFlight := s.inFlight[id := Flight(sub, Running)])
    case Synchronous => s.(requests := s.requests[id := Request(sub, Simulate)])
    case _ => s
  }

  function JobAfter(s: State, j: nat, reg: Option<Registration>): State
    requires Enabled(s, JobStep(j, reg))
  {
    var job := s.jobs[j];
    match job.stage
    case Responded =>
      s.(redis := SetLastDelivered(s.redis, job.key.slot), jobs := s.jobs[j := job.(stage := Marked)])
    case Marked =>
      s.(jobs := s.jobs[j := job.(stage :=
        if job.key in s.redis.traces then Traced(s.redis.traces[job.key]) else NilTrace)])
    case Traced(t) => s.(jobs := s.jobs[j := job.(stage := Drained(t))])
    case Drained(t) =>
      var key := KeyOfTrace(t);
      s.(jobs := s.jobs[j := job.(stage := Settled(t, reg))],
         db := if HasRow(s.db.demotions, key)
               then s.db.(demotions := UpdateDemotions(s.db.demotions, key, job.block, reg)) else s.db)
  }

  function Apply(s: State, e: Event): State
    requires Enabled(s, e)
  {
    match e
    case NewHead(h) => s.(view := s.view.(headSlot := h), pendingHeads := s.pendingHeads + {h})
    case Refresh(h, tableRead) =>
      s.(pendingHeads := s.pendingHeads - {h},
         view := s.view.(optimisticSlot := h + 1,
           cache := if tableRead then RefreshCache(s.view.cache, s.db.builders) else s.view.cache))
    case Environment(duties, randao) => s.(view := s.view.(duties := duties, randao := randao))
    case Submit(id, sub, slotRead) => SubmitStep(s, id, sub, slotRead)
    case SyncReply(id, reply) =>
      s.(requests := SetPc(s, id, if SimSucceeds(reply) then CheckLatest else Finishing(true)))
    case OptimisticReply(id, reply) =>
      s.(inFlight := if SimSucceeds(reply) then s.inFlight - {id} else SetPhase(s, id, Failed))
    case WriteStatus(id) =>
      var pk := s.inFlight[id].sub.message.builder;
      s.(inFlight := SetPhase(s, id, StatusWritten),
         db := s.db.(builders := SetStatus(s.db.builders, pk, DemotedStatus(s.view.cache, pk))))
    case WriteDemotion(id) =>
      s.(inFlight := s.inFlight - {id},
         db := s.db.(demotions := InsertDemotion(s.db.demotions, s.inFlight[id].sub.message)))
    case Advance(id) =>
      var q := s.requests[id];
      s.(redis := AdvanceRedis(s.redis, q.sub, q.pc), requests := SetPc(s, id, AdvancePc(s.redis, q.sub, q.pc)))
    case ChooseTop(id, w) => s.(requests := SetPc(s, id, PcAfterScan(w)))
    case UpdateTop(id, w) =>
      s.(redis := TopAfter(s.redis, AuctionOf(s.requests[id].sub), w), requests := SetPc(s, id, Finishing(false)))
    case RedisError(id) => s.(requests := SetPc(s, id, PcAfterError(s.requests[id].pc)))
    case Finish(id) =>
      var q := s.requests[id];
      s.(requests := s.requests - {id},
         db := s.db.(builders := Upsert(s.db.builders, q.sub.message.builder, q.sub.message.slot, q.pc.simError)))
    case GetPayload(j, key, blinded) =>
      s.(jobs := s.jobs[j := Job(key, SignedBlock(blinded, s.redis.payloads[key]), Responded)])
    case JobStep(j, reg) => JobAfter(s, j, reg)
    case MarkFails(j) => s.(jobs := s.jobs[j := s.jobs[j].(stage := Marked)])
  }

  lemma AdvanceStep(s: State, id: nat, sub: Submission, pc: Pc)
    requires id in s.requests && s.requests[id] == Request(sub, pc) && Saving(pc) && pc != ReadValues
    ensures Enabled(s, Advance(id))
    ensures Apply(s, Advance(id)) ==
      s.(redis := AdvanceRedis(s.redis, sub, pc), requests := SetPc(s, id, AdvancePc(s.redis, sub, pc)))
  {
  }

  lemma UpdateTopStep(s: State, id: nat, b: Pubkey, bid: Bid)
    requires Enabled(s, UpdateTop(id, Some(b)))
    requires var k := BidKey(AuctionOf(s.requests[id].sub), b); k in s.redis.bids && s.redis.bids[k] == bid
    ensures Apply(s, UpdateTop(id, Some(b))) ==
      s.(redis := SetTopBid(s.redis, AuctionOf(s.requests[id].sub), bid), requests := SetPc(s, id, Finishing(false)))
    ensures Enabled(s, ChooseTop(id, Some(b))) && Apply(s, ChooseTop(id, Some(b))) == s.(requests := SetPc(s, id, ReadBid(b)))
  {
  }

  // The uninterrupted top-bid update is the scan, the read and the write in a row, through the
  // states s1 and s2.
  lemma UpdateTopIsItsSteps(s: State, id: nat, b: Pubkey) returns (s1: State, s2: State)
    requires Enabled(s, UpdateTop(id, Some(b))) && BidKey(AuctionOf(s.requests[id].sub), b) in s.redis.bids
    ensures Enabled(s, ChooseTop(id, Some(b))) && Apply(s, ChooseTop(id, Some(b))) == s1
    ensures Enabled(s1, Advance(id)) && Apply(s1, Advance(id)) == s2
    ensures Enabled(s2, Advance(id)) && Apply(s2, Advance(id)) == Apply(s, UpdateTop(id, Some(b)))
  {
    var sub := s.requests[id].sub;
    var bid := s.redis.bids[BidKey(AuctionOf(sub), b)];
    UpdateTopStep(s, id, b, bid);
    s1 := s.(requests := SetPc(s, id, ReadBid(b)));
    AdvanceStep(s1, id, sub, ReadBid(b));
    s2 := s.(requests := SetPc(s, id, WriteTop(bid)));
    assert SetPc(s1, id, WriteTop(bid)) == s2.requests;
    AdvanceStep(s2, id, sub, WriteTop(bid));
    assert SetPc(s2, id, Finishing(false)) == SetPc(s, id, Finishing(false));
  }

  // ----- one submission by itself -----

  // What one submission leaves in Redis and where it stands.
  datatype Point = Point(redis: Redis, pc: Pc)

  // One Redis operation of the submission, successful or not.
  predicate Operates(sub: Submission, p: Point, q: Point) {
    || (Saving(p.pc) && p.pc != ReadValues && q == Point(AdvanceRedis(p.redis, sub, p.pc), AdvancePc(p.redis, sub, p.pc)))
    || (Saving(p.pc) && q == Point(p.redis, PcAfterError(p.pc)))
    || (p.pc == ReadValues && q.pc == PcAfterScan(None) && MayChoose(p.redis, AuctionOf(sub), None) && q.redis == p.redis)
    || (p.pc == ReadValues && q.pc.ReadBid? && MayChoose(p.redis, AuctionOf(sub), Some(q.pc.winner)) && q.redis == p.redis)
  }

  // The submission's operations from the check for newer payloads to the end, in order.
  predicate IsService(sub: Submission, ps: seq<Point>) {
    && IsPath(sub, ps) && ps[0].pc == CheckLatest && ps[|ps| - 1].pc == Finishing(false)
  }

  predicate IsPath(sub: Submission, ps: seq<Point>) {
    |ps| > 0 && forall i :: 0 <= i < |ps| - 1 ==> Operates(sub, ps[i], ps[i + 1])
  }

  lemma Extended(sub: Submission, ps: seq<Point>, q: Point) returns (qs: seq<Point>)
    requires IsPath(sub, ps) && Operates(sub, ps[|ps| - 1], q)
    ensures IsPath(sub, qs) && qs[0] == ps[0] && qs[|qs| - 1] == q
  {
    qs := ps + [q];
  }

  // Every such operation is a step of the machine.
  lemma OperationIsStep(s: State, id: nat, q: Point) returns (e: Event)
    requires id in s.requests && Operates(s.requests[id].sub, Point(s.redis, s.requests[id].pc), q)
    ensures Enabled(s, e) && Apply(s, e) == s.(redis := q.redis, requests := SetPc(s, id, q.pc))
  {
    var sub, p := s.requests[id].sub, Point(s.redis, s.requests[id].pc);
    if Saving(p.pc) && q == Point(p.redis, PcAfterError(p.pc)) {
      e := RedisError(id);
    } else if p.pc != ReadValues {
      e := Advance(id);
    } else {
      e := ChooseTop(id, if q.pc.ReadBid? then Some(q.pc.winner) else None);
    }
  }

  // ----- the steps of a background simulation in a row -----

  function AfterSimulation(s: State, id: nat, reply: SimReply): State
    requires Enabled(s, OptimisticReply(id, reply))
  {
    var s1 := Apply(s, OptimisticReply(id, reply));
    if SimSucceeds(reply) then s1 else
      assert Enabled(s1, WriteStatus(id));
      var s2 := Apply(s1, WriteStatus(id));
      assert Enabled(s2, WriteDemotion(id));
      Apply(s2, WriteDemotion(id))
  }

  // ----- runs -----

  // Stored keys agree with what is stored under them; used for Redis content kept from before.
  predicate CoherentStore(r: Redis) {
    && (forall k :: k in r.traces ==> PayloadKeyOf(r.traces[k]) == k)
    && (forall k :: k in r.payloads ==> r.payloads[k].blockHash == k.blockHash && k in r.traces)
  }

  predicate EmptyAuctions(r: Redis) {
    r.bids == map[] && r.times == map[] && r.values == map[] && r.topBids == map[]
  }

  // A freshly started service: empty cache and no work, over whatever the tables hold.
  predicate Init(s: State) {
    && s.view.cache == map[] && s.pendingHeads == {} && s.inFlight == map[]
    && s.requests == map[] && s.jobs == map[]
    && CoherentStore(s.redis) && EmptyAuctions(s.redis)
  }

  datatype Run = Start(init: State) | Extend(prev: Run, event: Event)

  predicate IsRun(r: Run)
    decreases r, 0
  {
    match r
    case Start(s) => Init(s)
    case Extend(p, e) => IsRun(p) && Enabled(Last(p), e)
  }

  function Last(r: Run): State
    requires IsRun(r)
    decreases r, 1
  {
    match r
    case Start(s) => s
    case Extend(p, e) => Apply(Last(p), e)
  }

  function First(r: Run): State {
    match r
    case Start(s) => s
    case Extend(p, _) => First(p)
  }

  // q is an earlier point of the run r, or r itself.
  predicate Prefix(q: Run, r: Run) {
    q == r || (r.Extend? && Prefix(q, r.prev))
  }

  // ----- what an observer sees happen in a run -----

  // Blocks whose background simulation failed.
  function FailedBy(s: State, e: Event): set<BidTrace> {
    if e.OptimisticReply? && e.id in s.inFlight && !SimSucceeds(e.reply) then {s.inFlight[e.id].sub.message} else {}
  }

  function FailedBlocks(r: Run): set<BidTrace>
    requires IsRun(r)
  {
    match r
    case Start(_) => {}
    case Extend(p, e) => FailedBlocks(p) + FailedBy(Last(p), e)
  }

  // Blocks recorded as delivered to a proposer.
  function DeliveredBy(s: State, e: Event): set<BidTrace> {
    if e.JobStep? && e.job in s.jobs && s.jobs[e.job].stage == Marked && s.jobs[e.job].key in s.redis.traces
    then {s.redis.traces[s.jobs[e.job].key]} else {}
  }

  function DeliveredBlocks(r: Run): set<BidTrace>
    requires IsRun(r)
  {
    match r
    case Start(_) => {}
    case Extend(p, e) => DeliveredBlocks(p) + DeliveredBy(Last(p), e)
  }

  // Submissions admitted to the auction: a successful simulation was seen, or the block passed
  // the checks while covered by the cached collateral of an undemoted builder.
  function AdmittedBy(s: State, e: Event): set<Submission> {
    match e
    case SyncReply(id, reply) =>
      if id in s.requests && SimSucceeds(reply) then {s.requests[id].sub} else {}
    case Submit(_, sub, slotRead) =>
      if Covered(s.view, sub) && Judge(s.view, DeliveredSlotSeen(s, slotRead), sub) == Optimistic then {sub} else {}
    case _ => {}
  }

  function Admitted(r: Run): set<Submission>
    requires IsRun(r)
  {
    match r
    case Start(_) => {}
    case Extend(p, e) => Admitted(p) + AdmittedBy(Last(p), e)
  }
}
