/** Refund evidence over whole runs: once the bookkeeping of a getPayload call has settled, the
    demotion table answers for the delivered block completely and for good. */
module Refunds {
  import opened RelayTypes
  import opened RedisStore
  import opened Builders
  import opened Submissions
  import opened RelayMachine
  import AuctionSafety
  import opened Provenance
  import CollateralSafety

  // The part of the state refund bookkeeping works on.
  datatype Ledger = Ledger(
    lastDelivered: Option<nat>, inFlight: map<nat, Flight>, demotions: seq<DemotionRow>, jobs: map<nat, Job>)

  function LedgerOf(s: State): Ledger { Ledger(s.redis.lastDelivered, s.inFlight, s.db.demotions, s.jobs) }

  ghost predicate StageMoves(c: Ledger, j: nat, stage: Stage, c': Ledger) {
    j in c.jobs && c'.jobs == c.jobs[j := c.jobs[j].(stage := stage)]
  }

  ghost predicate JobMoves(c: Ledger, j: nat, reg: Option<Registration>, c': Ledger) {
    && j in c.jobs && c'.inFlight == c.inFlight
    && var job := c.jobs[j];
       match job.stage
       case Responded =>
         c'.lastDelivered == Some(job.key.slot) && c'.demotions == c.demotions && StageMoves(c, j, Marked, c')
       case Marked =>
         && c'.lastDelivered == c.lastDelivered && c'.demotions == c.demotions
         && exists t :: PayloadKeyOf(t) == job.key && StageMoves(c, j, Traced(t), c')
       case Traced(t) =>
         && c.inFlight == map[] && c'.lastDelivered == c.lastDelivered && c'.demotions == c.demotions
         && StageMoves(c, j, Drained(t), c')
       case Drained(t) =>
         && c'.lastDelivered == c.lastDelivered && StageMoves(c, j, Settled(t, reg), c')
         && c'.demotions == UpdateDemotions(c.demotions, KeyOfTrace(t), job.block, reg)
       case _ => false
  }

  // How each event moves the ledger; all others leave it alone.
  ghost predicate LedgerMoves(c: Ledger, e: Event, c': Ledger) {
    match e
    case Submit(id, sub, _) =>
      c' == c || (id !in c.inFlight
                  && c' == c.(inFlight := c.inFlight[id := Flight(sub, Running)]))
    case OptimisticReply(id, reply) =>
      && id in c.inFlight
      && c' == c.(inFlight := if SimSucceeds(reply) then c.inFlight - {id}
                              else c.inFlight[id := c.inFlight[id].(phase := Failed)])
      && c.inFlight[id].phase == Running
    case WriteStatus(id) =>
      id in c.inFlight && c' == c.(inFlight := c.inFlight[id := c.inFlight[id].(phase := StatusWritten)])
      && c.inFlight[id].phase == Failed
    case WriteDemotion(id) =>
      && id in c.inFlight && c.inFlight[id].phase == StatusWritten
      && c' == c.(inFlight := c.inFlight - {id}, demotions := InsertDemotion(c.demotions, c.inFlight[id].sub.message))
    case GetPayload(j, key, blinded) =>
      && j !in c.jobs && blinded.slot == key.slot && blinded.blockHash == key.blockHash
      && exists p: ExecutionPayload ::
           p.blockHash == key.blockHash && c' == c.(jobs := c.jobs[j := Job(key, SignedBlock(blinded, p), Responded)])
    case JobStep(j, reg) => JobMoves(c, j, reg, c')
    case MarkFails(j) =>
      && c'.lastDelivered == c.lastDelivered && c'.inFlight == c.inFlight && c'.demotions == c.demotions
      && j in c.jobs && c.jobs[j].stage.Responded? && StageMoves(c, j, Marked, c')
    case _ => c' == c
  }

  // Jobs are created for stored payloads and keep their key.
  lemma StepKeepsJobKeys(s: State, e: Event)
    requires Enabled(s, e)
    ensures forall j :: j in Apply(s, e).jobs ==>
      if j in s.jobs then Apply(s, e).jobs[j].key == s.jobs[j].key else Apply(s, e).jobs[j].key in s.redis.payloads
  {
    if !(e.GetPayload? || e.JobStep? || e.MarkFails?) {
      OtherStepsKeepJobs(s, e);
    }
  }

  lemma OtherStepsKeepJobs(s: State, e: Event)
    requires Enabled(s, e) && !e.GetPayload? && !e.JobStep? && !e.MarkFails?
    ensures Apply(s, e).jobs == s.jobs
  {
  }

  // A delivered payload is still stored, so its trace is too.
  lemma {:induction false} JobsHavePayloads(r: Run)
    requires IsRun(r)
    ensures forall j :: j in Last(r).jobs ==> Last(r).jobs[j].key in Last(r).redis.payloads
  {
    if r.Extend? {
      JobsHavePayloads(r.prev);
      StepKeepsJobKeys(Last(r.prev), r.event);
      AuctionSafety.StoreGrowsByStep(r.prev, r.event);
    }
  }

  lemma UpdateWithoutRow(rows: seq<DemotionRow>, key: DemotionKey, block: SignedBlock, reg: Option<Registration>)
    requires !HasRow(rows, key)
    ensures UpdateDemotions(rows, key, block, reg) == rows
  {
  }

  lemma StepMovesJob(r: Run, j: nat, reg: Option<Registration>)
    requires IsRun(Extend(r, JobStep(j, reg)))
    ensures JobMoves(LedgerOf(Last(r)), j, reg, LedgerOf(Last(Extend(r, JobStep(j, reg)))))
  {
    var s := Last(r);
    JobsHavePayloads(r);
    AuctionSafety.RunKeepsStore(r);
    var job := s.jobs[j];
    if job.stage == Marked {
      var t := s.redis.traces[job.key];
      assert PayloadKeyOf(t) == job.key && StageMoves(LedgerOf(s), j, Traced(t), LedgerOf(JobAfter(s, j, reg)));
    } else if job.stage.Drained? && !HasRow(s.db.demotions, KeyOfTrace(job.stage.trace)) {
      UpdateWithoutRow(s.db.demotions, KeyOfTrace(job.stage.trace), job.block, reg);
    }
  }

  lemma SubmitMovesLedger(s: State, id: nat, sub: Submission, slotRead: bool)
    requires Enabled(s, Submit(id, sub, slotRead))
    ensures LedgerMoves(LedgerOf(s), Submit(id, sub, slotRead), LedgerOf(SubmitStep(s, id, sub, slotRead)))
  {
  }

  lemma {:induction false} StepMovesLedger(r: Run, e: Event)
    requires IsRun(Extend(r, e))
    ensures LedgerMoves(LedgerOf(Last(r)), e, LedgerOf(Last(Extend(r, e))))
  {
    var s := Last(r);
    match e
    case Submit(id, sub, slotRead) => SubmitMovesLedger(s, id, sub, slotRead);
    case GetPayload(j, key, blinded) =>
      AuctionSafety.RunKeepsStore(r);
      var p := s.redis.payloads[key];
      assert LedgerOf(Apply(s, e)) == LedgerOf(s).(jobs := s.jobs[j := Job(key, SignedBlock(blinded, p), Responded)]);
    case JobStep(j, reg) => StepMovesJob(r, j, reg);
    case OptimisticReply(_, _) => DemotionMovesLedger(s, e);
    case WriteStatus(_) => DemotionMovesLedger(s, e);
    case WriteDemotion(_) => DemotionMovesLedger(s, e);
    case MarkFails(_) =>
    case _ => QuietStepKeepsLedger(s, e);
  }

  lemma DemotionMovesLedger(s: State, e: Event)
    requires Enabled(s, e) && (e.OptimisticReply? || e.WriteStatus? || e.WriteDemotion?)
    ensures LedgerMoves(LedgerOf(s), e, LedgerOf(Apply(s, e)))
  {
  }

  lemma SavesKeepDeliveredSlot(r: Redis, sub: Submission, pc: Pc, w: Option<Pubkey>)
    ensures AdvanceRedis(r, sub, pc).lastDelivered == TopAfter(r, AuctionOf(sub), w).lastDelivered == r.lastDelivered
  {
  }

  lemma QuietStepKeepsLedger(s: State, e: Event)
    requires Enabled(s, e) && !e.Submit? && !e.GetPayload? && !e.JobStep? && !e.MarkFails?
    requires !e.OptimisticReply? && !e.WriteStatus? && !e.WriteDemotion?
    ensures LedgerOf(Apply(s, e)) == LedgerOf(s)
  {
    match e
    case Advance(id) => SavesKeepDeliveredSlot(s.redis, s.requests[id].sub, s.requests[id].pc, None);
    case UpdateTop(id, w) => SavesKeepDeliveredSlot(s.redis, s.requests[id].sub, s.requests[id].pc, w);
    case _ =>
  }

  // The bookkeeping of a delivered payload always finds its bid trace.
  lemma {:induction false} TraceIsNeverMissing(r: Run, j: nat)
    requires IsRun(r) && j in Last(r).jobs
    ensures !Last(r).jobs[j].stage.NilTrace?
  {
    var Extend(p, e) := r;
    StepMovesLedger(p, e);
    if j in Last(p).jobs {
      TraceIsNeverMissing(p, j);
    }
  }

  // ----- rows of the demotion table -----

  // A row for the same builder and block hash under another slot blocks the insertion.
  ghost predicate BlockedBy(rows: seq<DemotionRow>, key: DemotionKey) {
    exists i :: 0 <= i < |rows| && rows[i].key.builder == key.builder && rows[i].key.blockHash == key.blockHash
                && rows[i].key.slot != key.slot
  }

  ghost predicate FailedWith(r: Run, key: DemotionKey)
    requires IsRun(r)
  {
    exists t :: t in FailedBlocks(r) && KeyFor(key, t)
  }

  ghost predicate RowPending(c: Ledger, t: BidTrace) {
    exists id :: id in c.inFlight && c.inFlight[id].sub.message == t && c.inFlight[id].phase != Running
  }

  // Keys and traces of rows already there never change.
  ghost predicate KeysGrow(rows: seq<DemotionRow>, rows': seq<DemotionRow>) {
    |rows| <= |rows'| && forall i :: 0 <= i < |rows| ==> rows'[i].key == rows[i].key && rows'[i].trace == rows[i].trace
  }

  lemma MoveGrowsKeys(c: Ledger, e: Event, c': Ledger)
    requires LedgerMoves(c, e, c')
    ensures KeysGrow(c.demotions, c'.demotions)
    ensures |c'.demotions| > |c.demotions| ==> e.WriteDemotion?
  {
  }

  // The key names the block of the trace.
  ghost predicate KeyFor(key: DemotionKey, t: BidTrace) {
    key.slot == t.slot && key.builder == t.builder && key.blockHash == t.blockHash
  }

  // The rows are the initial ones, followed by rows of failed blocks, none conflicting with
  // an earlier row.
  ghost predicate RowsExplained(initial: seq<DemotionRow>, rows: seq<DemotionRow>, failed: set<BidTrace>) {
    && KeysGrow(initial, rows)
    && (forall i :: |initial| <= i < |rows| ==> exists t :: t in failed && KeyFor(rows[i].key, t) && rows[i].trace == t)
    && (forall i, k :: 0 <= k < i && |initial| <= i < |rows| ==>
         !(rows[k].key.builder == rows[i].key.builder && rows[k].key.blockHash == rows[i].key.blockHash))
  }

  lemma InsertionIsExplained(initial: seq<DemotionRow>, rows: seq<DemotionRow>, t: BidTrace, failed: set<BidTrace>)
    requires RowsExplained(initial, rows, failed) && t in failed
    ensures RowsExplained(initial, InsertDemotion(rows, t), failed)
  {
  }

  lemma ExplanationStays(
    initial: seq<DemotionRow>, rows: seq<DemotionRow>, rows': seq<DemotionRow>, failed: set<BidTrace>, failed': set<BidTrace>)
    requires RowsExplained(initial, rows, failed) && KeysGrow(rows, rows') && |rows| == |rows'| && failed <= failed'
    ensures RowsExplained(initial, rows', failed')
  {
    forall i | |initial| <= i < |rows'| ensures exists t :: t in failed' && KeyFor(rows'[i].key, t) && rows'[i].trace == t {
      assert rows'[i].key == rows[i].key;
      var t :| t in failed && KeyFor(rows[i].key, t) && rows[i].trace == t;
      assert t in failed';
    }
    assert forall i :: 0 <= i < |rows'| ==> rows'[i].key == rows[i].key;
  }

  lemma PendingHasFailed(r: Run, id: nat)
    requires IsRun(r) && id in Last(r).inFlight && Last(r).inFlight[id].phase != Running
    ensures Last(r).inFlight[id].sub.message in FailedBlocks(r)
  {
    if r.Extend? {
      var p, e := r.prev, r.event;
      StepMovesLedger(p, e);
      if id in Last(p).inFlight && Last(p).inFlight[id].phase != Running {
        PendingHasFailed(p, id);
      }
    }
  }

  lemma {:induction false} RunExplainsRows(r: Run)
    requires IsRun(r)
    ensures RowsExplained(First(r).db.demotions, Last(r).db.demotions, FailedBlocks(r))
  {
    if r.Extend? {
      var p, e := r.prev, r.event;
      RunExplainsRows(p);
      StepMovesLedger(p, e);
      var rows, rows' := Last(p).db.demotions, Last(r).db.demotions;
      if e.WriteDemotion? {
        PendingHasFailed(p, e.id);
        InsertionIsExplained(First(r).db.demotions, rows, Last(p).inFlight[e.id].sub.message, FailedBlocks(r));
      } else {
        MoveGrowsKeys(LedgerOf(Last(p)), e, LedgerOf(Last(r)));
        ExplanationStays(First(r).db.demotions, rows, rows', FailedBlocks(p), FailedBlocks(r));
      }
    }
  }

  // A failed block has a row, unless its insertion is still to come or was blocked.
  lemma {:induction false} FailureHasRow(r: Run, t: BidTrace)
    requires IsRun(r) && t in FailedBlocks(r)
    ensures var c := LedgerOf(Last(r));
      RowPending(c, t) || HasRow(c.demotions, KeyOfTrace(t)) || BlockedBy(c.demotions, KeyOfTrace(t))
  {
    var Extend(p, e) := r;
    var c, c' := LedgerOf(Last(p)), LedgerOf(Last(r));
    StepMovesLedger(p, e);
    MoveGrowsKeys(c, e, c');
    if t in FailedBlocks(p) {
      FailureHasRow(p, t);
      if HasRow(c.demotions, KeyOfTrace(t)) {
        RowStays(c.demotions, c'.demotions, KeyOfTrace(t));
      } else if BlockedBy(c.demotions, KeyOfTrace(t)) {
        var i :| 0 <= i < |c.demotions| && c.demotions[i].key.builder == t.builder
                 && c.demotions[i].key.blockHash == t.blockHash && c.demotions[i].key.slot != t.slot;
        assert c'.demotions[i].key == c.demotions[i].key;
      } else {
        var id :| id in c.inFlight && c.inFlight[id].sub.message == t && c.inFlight[id].phase != Running;
        if e == WriteDemotion(id) {
          InsertedOrBlocked(c.demotions, t);
        } else {
          assert id in c'.inFlight && c'.inFlight[id].sub.message == t;
        }
      }
    } else {
      assert c'.inFlight[e.id].sub.message == t && c'.inFlight[e.id].phase == Failed;
    }
  }

  lemma RowStays(rows: seq<DemotionRow>, rows': seq<DemotionRow>, key: DemotionKey)
    requires KeysGrow(rows, rows') && HasRow(rows, key)
    ensures HasRow(rows', key)
  {
  }

  lemma InsertedOrBlocked(rows: seq<DemotionRow>, t: BidTrace)
    ensures HasRow(InsertDemotion(rows, t), KeyOfTrace(t)) || BlockedBy(InsertDemotion(rows, t), KeyOfTrace(t))
  {
    if Conflicts(rows, t) {
      var i :| 0 <= i < |rows| && rows[i].key.builder == t.builder && rows[i].key.blockHash == t.blockHash;
      assert rows[i].key == KeyOfTrace(t) || rows[i].key.slot != t.slot;
    } else {
      var rows' := InsertDemotion(rows, t);
      assert rows'[|rows|].key == KeyOfTrace(t);
    }
  }

  // ----- settled jobs -----

  // The stages of bookkeeping after its wait for the background simulations.
  predicate PastWait(stage: Stage) { stage.Drained? || stage.Settled? }

  // A submission is checked against a delivered slot that has reached its own.
  ghost predicate FindsSlotClosed(s: State, sub: Submission, slotRead: bool) {
    slotRead && s.redis.lastDelivered.Some? && sub.message.slot <= s.redis.lastDelivered.value
  }

  // Once the bookkeeping of j has waited, the block it delivered is not let in again: every
  // submission with its key finds the slot closed.
  ghost predicate StaysClosed(r: Run, j: nat)
    requires IsRun(r)
  {
    match r
    case Start(_) => true
    case Extend(p, e) =>
      && StaysClosed(p, j)
      && (e.Submit? && j in Last(p).jobs && PastWait(Last(p).jobs[j].stage)
            && KeyOfTrace(e.sub.message) == KeyOfTrace(Last(p).jobs[j].stage.trace) ==>
          FindsSlotClosed(Last(p), e.sub, e.slotRead))
  }

  // Job k delivered the row's block, and the row holds it as the proposer signed it, with the
  // proposer's registration found at that time.
  ghost predicate CarriesBlockOf(jobs: map<nat, Job>, k: nat, row: DemotionRow) {
    && k in jobs && jobs[k].stage.Settled? && KeyOfTrace(jobs[k].stage.trace) == row.key
    && row.signedBlock == Some(jobs[k].block) && row.signedRegistration == jobs[k].stage.registration
    && jobs[k].block.blinded.slot == row.key.slot
    && jobs[k].block.blinded.blockHash == jobs[k].block.payload.blockHash == row.key.blockHash
  }

  ghost predicate RefundRecorded(jobs: map<nat, Job>, rows: seq<DemotionRow>, key: DemotionKey) {
    forall i :: 0 <= i < |rows| && rows[i].key == key ==> exists k :: CarriesBlockOf(jobs, k, rows[i])
  }

  // A job holds the block its key names, and later that block's trace.
  ghost predicate JobSound(job: Job) {
    && job.block.blinded.slot == job.key.slot
    && job.block.blinded.blockHash == job.block.payload.blockHash == job.key.blockHash
    && (job.stage.Traced? || PastWait(job.stage) ==> PayloadKeyOf(job.stage.trace) == job.key)
  }

  ghost predicate AllJobsSound(jobs: map<nat, Job>) {
    forall k :: k in jobs ==> JobSound(jobs[k])
  }

  // Nothing with the key of a job past its wait is in flight, and rows with the key of a
  // settled one carry the signed block.
  ghost predicate JobClosed(c: Ledger, job: Job) {
    && (PastWait(job.stage) ==>
         forall id :: id in c.inFlight ==> KeyOfTrace(c.inFlight[id].sub.message) != KeyOfTrace(job.stage.trace))
    && (job.stage.Settled? ==> RefundRecorded(c.jobs, c.demotions, KeyOfTrace(job.stage.trace)))
  }

  // Settled jobs stay as they are.
  ghost predicate SettledStay(jobs: map<nat, Job>, jobs': map<nat, Job>) {
    forall k :: k in jobs && jobs[k].stage.Settled? ==> k in jobs' && jobs'[k] == jobs[k]
  }

  // Recording the block of the job that settles serves its key, and no key is worse off.
  lemma UpdateRecords(jobs: map<nat, Job>, jobs': map<nat, Job>, rows: seq<DemotionRow>, j: nat, reg: Option<Registration>, key: DemotionKey)
    requires SettledStay(jobs, jobs') && j in jobs' && jobs'[j].stage.Settled? && JobSound(jobs'[j])
    requires jobs'[j].stage.registration == reg
    requires key == KeyOfTrace(jobs'[j].stage.trace) || RefundRecorded(jobs, rows, key)
    ensures RefundRecorded(jobs', UpdateDemotions(rows, KeyOfTrace(jobs'[j].stage.trace), jobs'[j].block, reg), key)
  {
    var own := KeyOfTrace(jobs'[j].stage.trace);
    var rows' := UpdateDemotions(rows, own, jobs'[j].block, reg);
    forall i | 0 <= i < |rows'| && rows'[i].key == key ensures exists k :: CarriesBlockOf(jobs', k, rows'[i]) {
      if key == own {
        assert CarriesBlockOf(jobs', j, rows'[i]);
      } else {
        var k :| CarriesBlockOf(jobs, k, rows[i]);
        assert CarriesBlockOf(jobs', k, rows'[i]);
      }
    }
  }

  lemma RecordsStay(jobs: map<nat, Job>, jobs': map<nat, Job>, rows: seq<DemotionRow>, key: DemotionKey)
    requires SettledStay(jobs, jobs') && RefundRecorded(jobs, rows, key)
    ensures RefundRecorded(jobs', rows, key)
  {
    forall i | 0 <= i < |rows| && rows[i].key == key ensures exists k :: CarriesBlockOf(jobs', k, rows[i]) {
      var k :| CarriesBlockOf(jobs, k, rows[i]);
      assert CarriesBlockOf(jobs', k, rows[i]);
    }
  }

  lemma InsertKeepsRecords(jobs: map<nat, Job>, rows: seq<DemotionRow>, t: BidTrace, key: DemotionKey)
    requires RefundRecorded(jobs, rows, key) && KeyOfTrace(t) != key
    ensures RefundRecorded(jobs, InsertDemotion(rows, t), key)
  {
  }

  lemma MoveKeepsSound(c: Ledger, e: Event, c': Ledger)
    requires LedgerMoves(c, e, c') && AllJobsSound(c.jobs)
    ensures AllJobsSound(c'.jobs) && SettledStay(c.jobs, c'.jobs)
  {
    assert e.JobStep? ==> JobSound(c.jobs[e.job]);
  }

  lemma {:induction false} RunKeepsSound(r: Run)
    requires IsRun(r)
    ensures AllJobsSound(Last(r).jobs)
  {
    if r.Extend? {
      RunKeepsSound(r.prev);
      StepMovesLedger(r.prev, r.event);
      MoveKeepsSound(LedgerOf(Last(r.prev)), r.event, LedgerOf(Last(r)));
    }
  }

  // Rows of a key are recorded after every move that inserts none with it.
  lemma MoveKeepsRecords(c: Ledger, e: Event, c': Ledger, key: DemotionKey)
    requires LedgerMoves(c, e, c') && AllJobsSound(c.jobs) && RefundRecorded(c.jobs, c.demotions, key)
    requires e.WriteDemotion? ==> KeyOfTrace(c.inFlight[e.id].sub.message) != key
    ensures RefundRecorded(c'.jobs, c'.demotions, key)
  {
    MoveKeepsSound(c, e, c');
    if e.WriteDemotion? {
      InsertKeepsRecords(c.jobs, c.demotions, c.inFlight[e.id].sub.message, key);
    } else if e.JobStep? && c.jobs[e.job].stage.Drained? {
      UpdateRecords(c.jobs, c'.jobs, c.demotions, e.job, e.registration, key);
    } else {
      RecordsStay(c.jobs, c'.jobs, c.demotions, key);
    }
  }

  // The job takes its next step.
  lemma OwnMoveCloses(c: Ledger, e: Event, c': Ledger, j: nat)
    requires LedgerMoves(c, e, c') && AllJobsSound(c.jobs) && j in c.jobs && JobClosed(c, c.jobs[j])
    requires e.JobStep? && e.job == j
    ensures JobClosed(c', c'.jobs[j])
  {
    MoveKeepsSound(c, e, c');
    if c.jobs[j].stage.Drained? {
      UpdateRecords(c.jobs, c'.jobs, c.demotions, j, e.registration, KeyOfTrace(c'.jobs[j].stage.trace));
    }
  }

  // Anything else happens while the job is past its wait.
  lemma OtherMoveKeepsClosed(c: Ledger, e: Event, c': Ledger, j: nat)
    requires LedgerMoves(c, e, c') && AllJobsSound(c.jobs) && j in c.jobs && JobClosed(c, c.jobs[j])
    requires PastWait(c.jobs[j].stage) && !(e.JobStep? && e.job == j)
    requires e.Submit? && KeyOfTrace(e.sub.message) == KeyOfTrace(c.jobs[j].stage.trace) ==> c' == c
    ensures j in c'.jobs && c'.jobs[j] == c.jobs[j] && JobClosed(c', c'.jobs[j])
  {
    if c.jobs[j].stage.Settled? {
      MoveKeepsRecords(c, e, c', KeyOfTrace(c.jobs[j].stage.trace));
    }
  }

  lemma OtherMoveKeepsJob(c: Ledger, e: Event, c': Ledger, j: nat)
    requires LedgerMoves(c, e, c') && j in c'.jobs && !(e.JobStep? && e.job == j)
    ensures if j in c.jobs && PastWait(c.jobs[j].stage) then c'.jobs[j] == c.jobs[j] else !PastWait(c'.jobs[j].stage)
  {
  }

  // A submission that finds the slot closed is refused.
  lemma ClosedSlotRefuses(s: State, id: nat, sub: Submission, slotRead: bool)
    ensures FindsSlotClosed(s, sub, slotRead) ==>
      Judge(s.view, DeliveredSlotSeen(s, slotRead), sub) == Refused(AlreadyDelivered) && SubmitStep(s, id, sub, slotRead) == s
  {
  }

  lemma {:induction false} RunKeepsClosed(r: Run, j: nat)
    requires IsRun(r) && StaysClosed(r, j) && j in Last(r).jobs
    ensures JobClosed(LedgerOf(Last(r)), Last(r).jobs[j])
  {
    if r.Extend? {
      var p, e := r.prev, r.event;
      var c, c' := LedgerOf(Last(p)), LedgerOf(Last(r));
      StepMovesLedger(p, e);
      RunKeepsSound(p);
      if j in c.jobs { RunKeepsClosed(p, j); }
      if e.JobStep? && e.job == j {
        OwnMoveCloses(c, e, c', j);
      } else {
        OtherMoveKeepsJob(c, e, c', j);
        if j in c.jobs && PastWait(c.jobs[j].stage) {
          if e.Submit? { ClosedSlotRefuses(Last(p), e.id, e.sub, e.slotRead); }
          OtherMoveKeepsClosed(c, e, c', j);
        }
      }
    }
  }

  // Demotion key of the block whose bookkeeping j has settled.
  function SettledKey(s: State, j: nat): DemotionKey
    requires j in s.jobs && s.jobs[j].stage.Settled?
  {
    KeyOfTrace(s.jobs[j].stage.trace)
  }

  // After the refund step the demotion row of the delivered block exists exactly when it was
  // there from the start, or an optimistic submission with its key failed and no row of the
  // same builder and hash at another slot blocks it; and it carries the block as a proposer
  // signed it in a settled getPayload call for this key. Unless a refresh was stale for the
  // builder's group, only a row from before the run can block.
  lemma RefundEvidenceIsComplete(r: Run, j: nat)
    requires IsRun(r) && StaysClosed(r, j) && j in Last(r).jobs && Last(r).jobs[j].stage.Settled?
    ensures
      var key := SettledKey(Last(r), j);
      var initial, rows := First(r).db.demotions, Last(r).db.demotions;
      && key.slot == Last(r).jobs[j].key.slot && key.blockHash == Last(r).jobs[j].key.blockHash
      && (HasRow(rows, key) <==> HasRow(initial, key) || (FailedWith(r, key) && !BlockedBy(rows, key)))
      && (CollateralSafety.NeverStale(r, GroupOf(Last(r).db.builders, key.builder)) && FailedWith(r, key) ==>
           (BlockedBy(rows, key) <==> BlockedBy(initial, key)))
      && RefundRecorded(Last(r).jobs, rows, key)
  {
    var key := SettledKey(Last(r), j);
    RunKeepsSound(r);
    RunKeepsClosed(r, j);
    assert JobSound(Last(r).jobs[j]) && JobClosed(LedgerOf(Last(r)), Last(r).jobs[j]);
    RowExistsIff(r, key);
    if FailedWith(r, key) && CollateralSafety.NeverStale(r, GroupOf(Last(r).db.builders, key.builder)) {
      BlockedIffInitially(r, key);
    }
  }

  // A key none of whose blocks is in flight.
  lemma RowExistsIff(r: Run, key: DemotionKey)
    requires IsRun(r)
    requires forall id :: id in Last(r).inFlight ==> KeyOfTrace(Last(r).inFlight[id].sub.message) != key
    ensures
      var initial, rows := First(r).db.demotions, Last(r).db.demotions;
      HasRow(rows, key) <==> HasRow(initial, key) || (FailedWith(r, key) && !BlockedBy(rows, key))
  {
    var initial, rows := First(r).db.demotions, Last(r).db.demotions;
    RunExplainsRows(r);
    if HasRow(initial, key) {
      RowStays(initial, rows, key);
    } else if HasRow(rows, key) {
      NewRowIsUnblocked(initial, rows, FailedBlocks(r), key);
    } else if FailedWith(r, key) {
      var t :| t in FailedBlocks(r) && KeyFor(key, t);
      FailureHasRow(r, t);
    }
  }

  lemma BlockedIffInitially(r: Run, key: DemotionKey)
    requires IsRun(r) && FailedWith(r, key) && CollateralSafety.NeverStale(r, GroupOf(Last(r).db.builders, key.builder))
    ensures BlockedBy(Last(r).db.demotions, key) <==> BlockedBy(First(r).db.demotions, key)
  {
    var t :| t in FailedBlocks(r) && KeyFor(key, t);
    BlockingRowIsInitial(r, t);
    RunExplainsRows(r);
    if BlockedBy(First(r).db.demotions, key) { BlocksStay(First(r).db.demotions, Last(r).db.demotions, key); }
  }

  lemma NewRowIsUnblocked(initial: seq<DemotionRow>, rows: seq<DemotionRow>, failed: set<BidTrace>, key: DemotionKey)
    requires RowsExplained(initial, rows, failed) && HasRow(rows, key) && !HasRow(initial, key)
    ensures !BlockedBy(rows, key) && exists t :: t in failed && KeyFor(key, t)
  {
    var i :| 0 <= i < |rows| && rows[i].key == key;
    assert forall k :: 0 <= k < |initial| ==> rows[k].key == initial[k].key;
    assert exists t :: t in failed && KeyFor(rows[i].key, t);
  }

  lemma BlocksStay(rows: seq<DemotionRow>, rows': seq<DemotionRow>, key: DemotionKey)
    requires KeysGrow(rows, rows') && BlockedBy(rows, key)
    ensures BlockedBy(rows', key)
  {
    var i :| 0 <= i < |rows| && rows[i].key.builder == key.builder && rows[i].key.blockHash == key.blockHash
             && rows[i].key.slot != key.slot;
    assert rows'[i].key == rows[i].key;
  }

  // Without a stale refresh failures of one builder share their slot, so only an initial row
  // can block an insertion.
  lemma BlockingRowIsInitial(r: Run, t: BidTrace)
    requires IsRun(r) && t in FailedBlocks(r) && CollateralSafety.NeverStale(r, GroupOf(Last(r).db.builders, t.builder))
    ensures BlockedBy(Last(r).db.demotions, KeyOfTrace(t)) ==> BlockedBy(First(r).db.demotions, KeyOfTrace(t))
  {
    RunExplainsRows(r);
    var initial, rows := First(r).db.demotions, Last(r).db.demotions;
    if i :| 0 <= i < |rows| && rows[i].key.builder == t.builder && rows[i].key.blockHash == t.blockHash
            && rows[i].key.slot != t.slot {
      if i < |initial| {
        assert initial[i].key == rows[i].key;
      } else {
        var u :| u in FailedBlocks(r) && KeyFor(rows[i].key, u);
        CollateralSafety.FailuresConfinedToOneSlot(r, t, u);
      }
    }
  }

  // Where the trace of a job comes from: it was stored before the run, or it is the whole
  // message of an admitted submission of the job's block.
  lemma {:induction false} JobTraceIsSubmitted(r: Run, j: nat)
    requires IsRun(r) && j in Last(r).jobs && (Last(r).jobs[j].stage.Traced? || PastWait(Last(r).jobs[j].stage))
    ensures
      var job := Last(r).jobs[j];
      || (job.key in First(r).redis.traces && job.stage.trace == First(r).redis.traces[job.key])
      || TraceFrom(TraceWriters(r), job.key, job.stage.trace)
    ensures TraceWriters(r) <= Admitted(r)
  {
    WritersAreAdmitted(r);
    var Extend(p, e) := r;
    StepMovesLedger(p, e);
    FromMore(TraceWriters(p), TraceWriters(r));
    if e.JobStep? && e.job == j && Last(p).jobs[j].stage.Marked? {
      BlockProvenance(p, Last(p).jobs[j].key);
    } else {
      StepKeepsTrace(LedgerOf(Last(p)), e, LedgerOf(Last(r)), j);
      JobTraceIsSubmitted(p, j);
    }
  }

  // The payload a job delivered was stored before the run, or it is the whole payload of an
  // admitted submission of the block.
  lemma {:induction false} JobBlockIsSubmitted(r: Run, j: nat)
    requires IsRun(r) && j in Last(r).jobs
    ensures
      var job := Last(r).jobs[j];
      || (job.key in First(r).redis.payloads && job.block.payload == First(r).redis.payloads[job.key])
      || PayloadFrom(PayloadWriters(r), job.key, job.block.payload)
    ensures PayloadWriters(r) <= Admitted(r)
  {
    WritersAreAdmitted(r);
    var Extend(p, e) := r;
    StepMovesLedger(p, e);
    FromMore(PayloadWriters(p), PayloadWriters(r));
    if j in Last(p).jobs {
      StepKeepsBlock(LedgerOf(Last(p)), e, LedgerOf(Last(r)), j);
      JobBlockIsSubmitted(p, j);
    } else {
      BlockProvenance(p, e.key);
    }
  }

  lemma StepKeepsBlock(c: Ledger, e: Event, c': Ledger, j: nat)
    requires LedgerMoves(c, e, c') && j in c.jobs
    ensures j in c'.jobs && c'.jobs[j].block == c.jobs[j].block && c'.jobs[j].key == c.jobs[j].key
  {
  }

  // And the block it belongs to counts as delivered.
  lemma {:induction false} TracedIsDelivered(r: Run, j: nat)
    requires IsRun(r) && j in Last(r).jobs && (Last(r).jobs[j].stage.Traced? || PastWait(Last(r).jobs[j].stage))
    ensures Last(r).jobs[j].stage.trace in DeliveredBlocks(r)
  {
    var Extend(p, e) := r;
    StepMovesLedger(p, e);
    if !(e.JobStep? && e.job == j && Last(p).jobs[j].stage.Marked?) {
      StepKeepsTrace(LedgerOf(Last(p)), e, LedgerOf(Last(r)), j);
      TracedIsDelivered(p, j);
    }
  }

  lemma StepKeepsTrace(c: Ledger, e: Event, c': Ledger, j: nat)
    requires LedgerMoves(c, e, c') && j in c'.jobs && (c'.jobs[j].stage.Traced? || PastWait(c'.jobs[j].stage))
    requires !(e.JobStep? && e.job == j && c.jobs[j].stage.Marked?)
    ensures j in c.jobs && (c.jobs[j].stage.Traced? || PastWait(c.jobs[j].stage))
    ensures c'.jobs[j].stage.trace == c.jobs[j].stage.trace && c'.jobs[j].key == c.jobs[j].key
  {
  }

  // Refund evidence told from the submission that was delivered: if the block of sub is the
  // only one stored under its slot, proposer and hash, then after the refund step the row of
  // sub's own slot, builder and hash exists exactly when it was there from the start or such a
  // block failed in simulation, unblocked; and it holds what the proposer signed.
  lemma RefundForSubmission(r: Run, j: nat, sub: Submission)
    requires IsRun(r) && StaysClosed(r, j) && j in Last(r).jobs && Last(r).jobs[j].stage.Settled?
    requires BlockKey(Last(r).jobs[j].key, sub) && SoleTrace(r, sub)
    ensures Last(r).jobs[j].stage.trace == sub.message
    ensures SolePayload(r, sub) ==> Last(r).jobs[j].block.payload == sub.payload
    ensures
      var key := DemotionKey(sub.message.slot, sub.message.builder, sub.message.blockHash);
      var initial, rows := First(r).db.demotions, Last(r).db.demotions;
      && (HasRow(rows, key) <==> HasRow(initial, key) || (FailedWith(r, key) && !BlockedBy(rows, key)))
      && RefundRecorded(Last(r).jobs, rows, key)
  {
    JobTraceIsSubmitted(r, j);
    JobBlockIsSubmitted(r, j);
    RefundEvidenceIsComplete(r, j);
  }

  // A step after the settlement is no failure with the key and inserts no row with it.
  lemma StepSparesSettled(c: Ledger, e: Event, c': Ledger, j: nat)
    requires LedgerMoves(c, e, c') && j in c.jobs && c.jobs[j].stage.Settled? && JobClosed(c, c.jobs[j])
    ensures j in c'.jobs && c'.jobs[j] == c.jobs[j]
    ensures KeysGrow(c.demotions, c'.demotions)
    ensures forall i :: |c.demotions| <= i < |c'.demotions| ==> c'.demotions[i].key != KeyOfTrace(c.jobs[j].stage.trace)
    ensures e.OptimisticReply? ==> KeyOfTrace(c.inFlight[e.id].sub.message) != KeyOfTrace(c.jobs[j].stage.trace)
  {
    MoveGrowsKeys(c, e, c');
  }

  // Later steps add neither a failure with the key nor a row, and keep the signed block.
  lemma {:induction false} RefundEvidenceIsFinal(q: Run, r: Run, j: nat)
    requires IsRun(r) && StaysClosed(r, j) && Prefix(q, r) && IsRun(q)
    requires j in Last(q).jobs && Last(q).jobs[j].stage.Settled?
    ensures StaysClosed(q, j) && j in Last(r).jobs && Last(r).jobs[j] == Last(q).jobs[j]
    ensures
      var key := SettledKey(Last(q), j);
      && (FailedWith(r, key) <==> FailedWith(q, key))
      && KeysGrow(Last(q).db.demotions, Last(r).db.demotions)
      && (forall i :: |Last(q).db.demotions| <= i < |Last(r).db.demotions| ==> Last(r).db.demotions[i].key != key)
      && RefundRecorded(Last(r).jobs, Last(r).db.demotions, key)
    decreases r
  {
    if q != r {
      var p, e := r.prev, r.event;
      RefundEvidenceIsFinal(q, p, j);
      RunKeepsClosed(p, j);
      StepMovesLedger(p, e);
      StepSparesSettled(LedgerOf(Last(p)), e, LedgerOf(Last(r)), j);
      var key := SettledKey(Last(q), j);
      assert forall t :: t in FailedBy(Last(p), e) ==> !KeyFor(key, t);
    }
    RunKeepsClosed(r, j);
  }

  // ----- when a delivered block stays closed -----

  ghost predicate PastMark(r: Run, j: nat)
    requires IsRun(r)
  {
    j in Last(r).jobs && !Last(r).jobs[j].stage.Responded?
  }

  // From j's delivery mark on: the mark took effect, no later one is for an older slot, and
  // submissions with j's slot do read the delivered slot.
  ghost predicate MarkStands(r: Run, j: nat)
    requires IsRun(r)
  {
    match r
    case Start(_) => true
    case Extend(p, e) =>
      && MarkStands(p, j)
      && (e.MarkFails? ==> e.job != j)
      && (PastMark(p, j) ==>
           && (e.JobStep? && Last(p).jobs[e.job].stage.Responded? ==> Last(p).jobs[j].key.slot <= Last(p).jobs[e.job].key.slot)
           && (e.Submit? && e.sub.message.slot == Last(p).jobs[j].key.slot ==> e.slotRead))
  }

  ghost predicate MarkReaches(c: Ledger, j: nat) {
    j in c.jobs && !c.jobs[j].stage.Responded? ==> c.lastDelivered.Some? && c.jobs[j].key.slot <= c.lastDelivered.value
  }

  lemma MoveKeepsMark(c: Ledger, e: Event, c': Ledger, j: nat)
    requires LedgerMoves(c, e, c') && MarkReaches(c, j) && !(e.MarkFails? && e.job == j)
    requires e.JobStep? && c.jobs[e.job].stage.Responded? && j in c.jobs && !c.jobs[j].stage.Responded? ==>
      c.jobs[j].key.slot <= c.jobs[e.job].key.slot
    ensures MarkReaches(c', j)
  {
  }

  // Late or repeated getPayload calls for other, newer slots do no harm: while j's mark stands
  // its block stays closed.
  lemma {:induction false} StandingMarkKeepsClosed(r: Run, j: nat)
    requires IsRun(r) && MarkStands(r, j)
    ensures StaysClosed(r, j) && MarkReaches(LedgerOf(Last(r)), j)
  {
    if r.Extend? {
      var p, e := r.prev, r.event;
      StandingMarkKeepsClosed(p, j);
      StepMovesLedger(p, e);
      MoveKeepsMark(LedgerOf(Last(p)), e, LedgerOf(Last(r)), j);
      RunKeepsSound(p);
      assert j in Last(p).jobs ==> JobSound(Last(p).jobs[j]);
    }
  }

  lemma {:induction false} StaysClosedBefore(q: Run, r: Run, j: nat)
    requires IsRun(r) && StaysClosed(r, j) && Prefix(q, r)
    ensures IsRun(q) && StaysClosed(q, j)
    decreases r
  {
    if q != r { StaysClosedBefore(q, r.prev, j); }
  }

  // An optimistic submission that is accepted next may fail and be demoted.
  lemma AcceptedMayFail(r: Run, id: nat, sub: Submission, slotRead: bool) returns (x: Run)
    requires IsRun(r) && Enabled(Last(r), Submit(id, sub, slotRead))
    requires Judge(Last(r).view, DeliveredSlotSeen(Last(r), slotRead), sub) == Optimistic
    ensures IsRun(x) && Prefix(Extend(r, Submit(id, sub, slotRead)), x)
    ensures Last(x) == Last(r).(db := Last(x).db, requests := Last(r).requests[id := Request(sub, CheckLatest)])
    ensures Last(x).db.demotions == InsertDemotion(Last(r).db.demotions, sub.message)
    ensures sub.message in FailedBlocks(x)
  {
    var r1 := Extend(r, Submit(id, sub, slotRead));
    assert Last(r1) == SubmitStep(Last(r), id, sub, slotRead);
    assert Last(r1).inFlight - {id} == Last(r).inFlight;
    x := FlightMayFail(r1, id);
  }

  lemma FlightMayFail(r: Run, id: nat) returns (x: Run)
    requires IsRun(r) && id in Last(r).inFlight && Last(r).inFlight[id].phase == Running
    ensures IsRun(x) && Prefix(r, x)
    ensures Last(x) == Last(r).(inFlight := Last(r).inFlight - {id}, db := Last(x).db)
    ensures Last(x).db.demotions == InsertDemotion(Last(r).db.demotions, Last(r).inFlight[id].sub.message)
    ensures Last(r).inFlight[id].sub.message in FailedBlocks(x)
  {
    var sub := Last(r).inFlight[id].sub;
    var r2 := Extend(r, OptimisticReply(id, SimulationFailed));
    assert Last(r2).inFlight[id] == Flight(sub, Failed) && Prefix(r, r2);
    assert Last(r2) == Last(r).(inFlight := Last(r2).inFlight) && sub.message in FailedBlocks(r2);
    x := FailureIsRecorded(r2, id);
    PrefixIsTransitive(r, r2, x);
    FailuresGrow(r2, x);
  }

  lemma FailureIsRecorded(r: Run, id: nat) returns (x: Run)
    requires IsRun(r) && id in Last(r).inFlight && Last(r).inFlight[id].phase == Failed
    ensures IsRun(x) && Prefix(r, x)
    ensures Last(x) == Last(r).(inFlight := Last(r).inFlight - {id}, db := Last(x).db)
    ensures Last(x).db.demotions == InsertDemotion(Last(r).db.demotions, Last(r).inFlight[id].sub.message)
  {
    var r3 := Extend(r, WriteStatus(id));
    assert Last(r3).inFlight[id] == Flight(Last(r).inFlight[id].sub, StatusWritten) && Prefix(r, r3);
    assert Last(r3) == Last(r).(inFlight := Last(r3).inFlight, db := Last(r3).db) && Last(r3).db.demotions == Last(r).db.demotions;
    x := Extend(r3, WriteDemotion(id));
    assert Last(x).inFlight == Last(r).inFlight - {id};
  }

  lemma {:induction false} PrefixIsTransitive(p: Run, q: Run, r: Run)
    requires Prefix(p, q) && Prefix(q, r)
    ensures Prefix(p, r)
    decreases r
  {
    if q != r { PrefixIsTransitive(p, q, r.prev); }
  }

  lemma {:induction false} FailuresGrow(q: Run, r: Run)
    requires IsRun(r) && Prefix(q, r) && IsRun(q)
    ensures FailedBlocks(q) <= FailedBlocks(r)
    decreases r
  {
    if q != r { FailuresGrow(q, r.prev); }
  }

  // The condition cannot be dropped: whenever a settled block without a row is submitted again
  // and accepted as optimistic, the run can go on to a row for it without the signed block.
  lemma {:induction false} ReopenedBlockLosesEvidence(r: Run, j: nat, id: nat, sub: Submission, slotRead: bool) returns (x: Run)
    requires IsRun(r) && j in Last(r).jobs && Last(r).jobs[j].stage.Settled?
    requires KeyOfTrace(sub.message) == SettledKey(Last(r), j) && !Conflicts(Last(r).db.demotions, sub.message)
    requires Enabled(Last(r), Submit(id, sub, slotRead))
    requires Judge(Last(r).view, DeliveredSlotSeen(Last(r), slotRead), sub) == Optimistic
    ensures IsRun(x) && Prefix(Extend(r, Submit(id, sub, slotRead)), x) && !StaysClosed(x, j)
    ensures Last(x).jobs == Last(r).jobs && Last(x).redis == Last(r).redis
    ensures HasRow(Last(x).db.demotions, SettledKey(Last(r), j))
    ensures !RefundRecorded(Last(x).jobs, Last(x).db.demotions, SettledKey(Last(r), j))
  {
    x := AcceptedMayFail(r, id, sub, slotRead);
    var rows := Last(x).db.demotions;
    assert rows[|rows| - 1] == DemotionRow(KeyOfTrace(sub.message), sub.message, None, None);
    ClosedSlotRefuses(Last(r), id, sub, slotRead);
    if StaysClosed(x, j) { StaysClosedBefore(Extend(r, Submit(id, sub, slotRead)), x, j); }
  }
}
