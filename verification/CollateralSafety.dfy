/** Safety of optimistic submission over whole runs: failures of one collateral group are
    confined to one slot, demotion is sticky and group-wide, and collateral covers the loss. */
module CollateralSafety {
  import opened RelayTypes
  import opened Builders
  import opened Submissions
  import opened RelayMachine

  type Table = map<Pubkey, BuilderRow>

  // The part of the state that optimistic processing works on.
  datatype Core = Core(slot: nat, cache: map<Pubkey, CacheEntry>, inFlight: map<nat, Flight>, builders: Table)

  function CoreOf(s: State): Core {
    Core(s.view.optimisticSlot, s.view.cache, s.inFlight, s.db.builders)
  }

  ghost predicate CoveredIn(c: Core, sub: Submission) {
    && sub.message.builder in c.cache
    && c.cache[sub.message.builder].collateral > sub.message.value
    && !c.cache[sub.message.builder].status.isDemoted
    && sub.message.slot == c.slot
  }

  ghost predicate CanDispatch(c: Core, id: nat, sub: Submission, c': Core) {
    && id !in c.inFlight && CoveredIn(c, sub) && sub.message.value > 0
    && c' == c.(inFlight := c.inFlight[id := Flight(sub, Running)])
  }

  // How each event moves the core; all others leave it alone.
  ghost predicate CoreMoves(c: Core, e: Event, c': Core) {
    match e
    case Refresh(h, tableRead) =>
      && c.inFlight == map[]
      && c' == c.(slot := h + 1, cache := if tableRead then RefreshCache(c.cache, c.builders) else c.cache)
    case Submit(id, sub, _) => c' == c || CanDispatch(c, id, sub, c')
    case OptimisticReply(id, reply) =>
      && id in c.inFlight && c.inFlight[id].phase == Running
      && c' == c.(inFlight := if SimSucceeds(reply) then c.inFlight - {id}
                              else c.inFlight[id := c.inFlight[id].(phase := Failed)])
    case WriteStatus(id) =>
      && id in c.inFlight && c.inFlight[id].phase == Failed
      && var pk := c.inFlight[id].sub.message.builder;
         c' == c.(inFlight := c.inFlight[id := c.inFlight[id].(phase := StatusWritten)],
                  builders := SetStatus(c.builders, pk, DemotedStatus(c.cache, pk)))
    case WriteDemotion(id) =>
      && id in c.inFlight && c.inFlight[id].phase == StatusWritten
      && c' == c.(inFlight := c.inFlight - {id})
    case Finish(_) =>
      exists pk, slot, err :: c' == c.(builders := Upsert(c.builders, pk, slot, err))
    case _ => c' == c
  }

  // The events that touch the core.
  predicate TouchesCore(e: Event) {
    e.Refresh? || e.Submit? || e.OptimisticReply? || e.WriteStatus? || e.WriteDemotion? || e.Finish?
  }

  lemma OtherStepsKeepCore(s: State, e: Event)
    requires Enabled(s, e) && !TouchesCore(e)
    ensures CoreOf(Apply(s, e)) == CoreOf(s)
  {
  }

  lemma StepMovesCore(s: State, e: Event)
    requires Enabled(s, e)
    ensures CoreMoves(CoreOf(s), e, CoreOf(Apply(s, e)))
  {
    if !TouchesCore(e) {
      OtherStepsKeepCore(s, e);
    } else if e.Submit? {
      OptimisticIff(s.view, DeliveredSlotSeen(s, e.slotRead), e.sub);
    } else if e.Finish? {
      var m := s.requests[e.id].sub.message;
      assert CoreOf(Apply(s, e)).builders == Upsert(s.db.builders, m.builder, m.slot, s.requests[e.id].pc.simError);
    }
  }

  // ----- what the builder table keeps -----

  function Collateral(b: Table, pk: Pubkey): nat
    requires pk in b
  {
    match b[pk].collateral
    case Some(c) => c
    case None => 0
  }

  // Every builder of the group is marked as demoted.
  ghost predicate GroupDemoted(b: Table, g: Group) {
    forall pk :: pk in b && GroupOf(b, pk) == g ==> b[pk].status.isDemoted
  }

  // Rows never leave the table, never change group or collateral, and stay demoted; a new row
  // forms a group of its own, without collateral.
  ghost predicate TableGrows(b: Table, b': Table) {
    && (forall pk :: pk in b ==>
         && pk in b'
         && Collateral(b', pk) == Collateral(b, pk)
         && (b[pk].status.isDemoted ==> b'[pk].status.isDemoted))
    && (forall pk :: GroupOf(b', pk) == GroupOf(b, pk))
    && (forall pk :: pk in b' && pk !in b ==> GroupOf(b', pk) == Solo(pk) && Collateral(b', pk) == 0)
  }

  lemma DemotingGrowsTable(b: Table, pk: Pubkey, status: BuilderStatus)
    requires status.isDemoted
    ensures TableGrows(b, SetStatus(b, pk, status))
  {
    SetStatusIsGroupWide(b, pk, status);
  }

  lemma UpsertGrowsTable(b: Table, pk: Pubkey, slot: nat, isError: bool)
    ensures TableGrows(b, Upsert(b, pk, slot, isError))
  {
    UpsertKeepsGroups(b, pk, slot, isError);
  }

  lemma CoreGrowsTable(c: Core, e: Event, c': Core)
    requires CoreMoves(c, e, c')
    ensures TableGrows(c.builders, c'.builders)
  {
    match e
    case WriteStatus(id) =>
      var pk := c.inFlight[id].sub.message.builder;
      DemotingGrowsTable(c.builders, pk, DemotedStatus(c.cache, pk));
    case Finish(_) =>
      var pk, slot, err :| c' == c.(builders := Upsert(c.builders, pk, slot, err));
      UpsertGrowsTable(c.builders, pk, slot, err);
    case _ =>
  }

  lemma GroupStaysDemoted(b: Table, b': Table, pk: Pubkey)
    requires TableGrows(b, b') && pk in b && GroupDemoted(b, GroupOf(b, pk))
    ensures GroupDemoted(b', GroupOf(b', pk))
  {
  }

  // ----- what every reachable core satisfies -----

  // The cache knows only builders of the table, with their collateral.
  ghost predicate CacheFromTable(c: Core) {
    forall pk :: pk in c.cache ==> pk in c.builders && c.cache[pk].collateral == Collateral(c.builders, pk)
  }

  // While a block is simulated in the background it stays covered by the cached collateral.
  ghost predicate FlightsCovered(c: Core) {
    forall id :: id in c.inFlight ==> CoveredIn(c, c.inFlight[id].sub) && c.inFlight[id].sub.message.value > 0
  }

  lemma CoreKeepsCover(c: Core, e: Event, c': Core)
    requires CacheFromTable(c) && FlightsCovered(c) && CoreMoves(c, e, c')
    ensures CacheFromTable(c') && FlightsCovered(c')
  {
    CoreGrowsTable(c, e, c');
  }

  // The failing block's own goroutine has still to write the status ...
  ghost predicate StatusPending(c: Core, t: BidTrace) {
    exists id :: id in c.inFlight && c.inFlight[id].sub.message == t && c.inFlight[id].phase == Failed
  }

  // ... or its whole group is demoted in the table.
  ghost predicate FailureRecorded(c: Core, t: BidTrace) {
    t.builder in c.builders && (StatusPending(c, t) || GroupDemoted(c.builders, GroupOf(c.builders, t.builder)))
  }

  ghost predicate ShutOut(c: Core, g: Group) {
    forall pk :: pk in c.cache && GroupOf(c.builders, pk) == g ==> c.cache[pk].status.isDemoted
  }

  // A failure belongs to the current optimistic slot, or its group is shut out of the cache.
  ghost predicate FailureConfined(c: Core, t: BidTrace) {
    t.slot == c.slot || ShutOut(c, GroupOf(c.builders, t.builder))
  }

  // A refresh that moves the slot without reading the table, over a cache that does not shut
  // the group out.
  ghost predicate StaleRefresh(c: Core, e: Event, g: Group) {
    e.Refresh? && !e.tableRead && e.head + 1 != c.slot && !ShutOut(c, g)
  }

  lemma CoreKeepsRecord(c: Core, e: Event, c': Core, t: BidTrace)
    requires FailureRecorded(c, t) && CoreMoves(c, e, c')
    ensures FailureRecorded(c', t)
  {
    CoreGrowsTable(c, e, c');
    if GroupDemoted(c.builders, GroupOf(c.builders, t.builder)) {
      GroupStaysDemoted(c.builders, c'.builders, t.builder);
    } else {
      var id :| id in c.inFlight && c.inFlight[id].sub.message == t && c.inFlight[id].phase == Failed;
      if e == WriteStatus(id) {
        SetStatusIsGroupWide(c.builders, t.builder, DemotedStatus(c.cache, t.builder));
      } else {
        assert id in c'.inFlight && c'.inFlight[id] == c.inFlight[id];
      }
    }
  }

  lemma CoreKeepsConfinement(c: Core, e: Event, c': Core, t: BidTrace)
    requires CacheFromTable(c) && FailureRecorded(c, t) && FailureConfined(c, t) && CoreMoves(c, e, c')
    requires !StaleRefresh(c, e, GroupOf(c.builders, t.builder))
    ensures FailureConfined(c', t)
  {
    CoreGrowsTable(c, e, c');
    if e.Refresh? {
      assert !StatusPending(c, t);
    }
  }

  // ----- runs -----

  ghost predicate SameGroup(r: Run, t: BidTrace, u: BidTrace)
    requires IsRun(r)
  {
    GroupOf(Last(r).db.builders, t.builder) == GroupOf(Last(r).db.builders, u.builder)
  }

  lemma {:induction false} RunKeepsCover(r: Run)
    requires IsRun(r)
    ensures CacheFromTable(CoreOf(Last(r))) && FlightsCovered(CoreOf(Last(r)))
  {
    match r
    case Start(_) =>
    case Extend(p, e) =>
      RunKeepsCover(p);
      StepMovesCore(Last(p), e);
      CoreKeepsCover(CoreOf(Last(p)), e, CoreOf(Last(r)));
  }

  // A block fails while covered, hence with a value below its builder's collateral.
  lemma NewFailure(r: Run, e: Event, f: BidTrace)
    requires IsRun(Extend(r, e)) && f in FailedBy(Last(r), e)
    ensures
      var c, c' := CoreOf(Last(r)), CoreOf(Last(Extend(r, e)));
      && (exists id :: id in c.inFlight && c.inFlight[id].sub.message == f && CoveredIn(c, c.inFlight[id].sub))
      && FailureRecorded(c', f) && f.slot == c.slot == c'.slot && c.builders == c'.builders
      && 0 < f.value < Collateral(c.builders, f.builder)
  {
    RunKeepsCover(r);
    StepMovesCore(Last(r), e);
    var c, c' := CoreOf(Last(r)), CoreOf(Last(Extend(r, e)));
    assert CoveredIn(c, c.inFlight[e.id].sub);
    assert c'.inFlight[e.id].sub.message == f && c'.inFlight[e.id].phase == Failed;
  }

  // The group's failures so far stand when the slot moves on: no refresh was stale for the
  // group after one of its blocks had failed.
  ghost predicate NeverStale(r: Run, g: Group)
    requires IsRun(r)
  {
    match r
    case Start(_) => true
    case Extend(p, e) =>
      && NeverStale(p, g)
      && (StaleRefresh(CoreOf(Last(p)), e, g) ==>
           forall t :: t in FailedBlocks(p) ==> GroupOf(Last(p).db.builders, t.builder) != g)
  }

  // Groups are the same at every point of a run.
  lemma StepKeepsGroups(r: Run, e: Event)
    requires IsRun(Extend(r, e))
    ensures forall pk :: GroupOf(Last(Extend(r, e)).db.builders, pk) == GroupOf(Last(r).db.builders, pk)
  {
    StepMovesCore(Last(r), e);
    CoreGrowsTable(CoreOf(Last(r)), e, CoreOf(Last(Extend(r, e))));
  }

  // If every refresh reads the table, none is stale for any group.
  lemma {:induction false} ReadingIsNeverStale(r: Run, g: Group)
    requires IsRun(r)
    requires forall q, e :: Prefix(Extend(q, e), r) && e.Refresh? ==> e.tableRead
    ensures NeverStale(r, g)
  {
    if r.Extend? {
      assert Prefix(Extend(r.prev, r.event), r);
      forall q, e | Prefix(Extend(q, e), r.prev) && e.Refresh? ensures e.tableRead {
        assert Prefix(Extend(q, e), r);
      }
      ReadingIsNeverStale(r.prev, g);
    }
  }

  lemma {:induction false} FailureStaysConfined(r: Run, t: BidTrace)
    requires IsRun(r) && t in FailedBlocks(r) && NeverStale(r, GroupOf(Last(r).db.builders, t.builder))
    ensures FailureConfined(CoreOf(Last(r)), t)
  {
    var Extend(p, e) := r;
    if t in FailedBlocks(p) {
      StepKeepsGroups(p, e);
      FailureStaysConfined(p, t);
      FailureFacts(p, t);
      RunKeepsCover(p);
      StepMovesCore(Last(p), e);
      CoreKeepsConfinement(CoreOf(Last(p)), e, CoreOf(Last(r)), t);
    } else {
      NewFailure(p, e, t);
    }
  }

  // Whatever is refreshed when, a failed block was worth less than its builder's collateral,
  // and its group is demoted or about to be.
  lemma {:induction false} FailureFacts(r: Run, t: BidTrace)
    requires IsRun(r) && t in FailedBlocks(r)
    ensures var c := CoreOf(Last(r));
      FailureRecorded(c, t) && 0 < t.value < Collateral(c.builders, t.builder)
  {
    var Extend(p, e) := r;
    var c, c' := CoreOf(Last(p)), CoreOf(Last(r));
    if t in FailedBlocks(p) {
      FailureFacts(p, t);
      RunKeepsCover(p);
      StepMovesCore(Last(p), e);
      CoreKeepsRecord(c, e, c', t);
      CoreGrowsTable(c, e, c');
    } else {
      NewFailure(p, e, t);
    }
  }

  // All failing optimistic blocks of one collateral group carry the same slot.
  lemma {:induction false} FailuresConfinedToOneSlot(r: Run, t: BidTrace, u: BidTrace)
    requires IsRun(r) && t in FailedBlocks(r) && u in FailedBlocks(r) && SameGroup(r, t, u)
    requires NeverStale(r, GroupOf(Last(r).db.builders, t.builder))
    ensures t.slot == u.slot
  {
    var Extend(p, e) := r;
    StepKeepsGroups(p, e);
    if t in FailedBlocks(p) && u in FailedBlocks(p) {
      FailuresConfinedToOneSlot(p, t, u);
    } else if t in FailedBlocks(p) {
      FailureStaysConfined(p, t);
      NewFailure(p, e, u);
    } else if u in FailedBlocks(p) {
      FailureStaysConfined(p, u);
      NewFailure(p, e, t);
    }
  }

  // Delivered blocks of the group whose optimistic simulation failed.
  ghost function LostBlocks(r: Run, g: Group): set<BidTrace>
    requires IsRun(r)
  {
    set t | t in DeliveredBlocks(r) && t in FailedBlocks(r) && GroupOf(Last(r).db.builders, t.builder) == g
  }

  ghost function TotalValue(ts: set<BidTrace>): nat {
    if ts == {} then 0 else
      var t :| t in ts;
      t.value + TotalValue(ts - {t})
  }

  // At most one block is delivered per slot.
  ghost predicate OneDeliveryPerSlot(r: Run)
    requires IsRun(r)
  {
    forall t, u :: t in DeliveredBlocks(r) && u in DeliveredBlocks(r) && t.slot == u.slot ==> t == u
  }

  ghost predicate IsLargestCollateral(b: Table, g: Group, c: nat) {
    && (exists pk :: pk in b && GroupOf(b, pk) == g && Collateral(b, pk) == c)
    && (forall pk :: pk in b && GroupOf(b, pk) == g ==> Collateral(b, pk) <= c)
  }

  // The value lost to delivered failing blocks stays strictly below the group's largest
  // collateral; a group without collateral loses nothing.
  lemma {:induction false} CollateralSuffices(r: Run, g: Group, c: nat)
    requires IsRun(r) && OneDeliveryPerSlot(r) && NeverStale(r, g) && IsLargestCollateral(Last(r).db.builders, g, c)
    ensures c > 0 ==> TotalValue(LostBlocks(r, g)) < c
    ensures c == 0 ==> LostBlocks(r, g) == {}
  {
    var lost := LostBlocks(r, g);
    if lost != {} {
      var t :| t in lost;
      FailureFacts(r, t);
      forall u | u in lost ensures u == t {
        FailuresConfinedToOneSlot(r, t, u);
      }
      assert lost == {t};
      assert lost - {t} == {};
    }
  }

  // Builders marked as demoted in the table.
  function DemotedBuilders(s: State): set<Pubkey> {
    set pk | pk in s.db.builders && s.db.builders[pk].status.isDemoted
  }

  // A failing simulation demotes all and only the builders of the block's group: they get the
  // status cached for the submitting builder, with the demotion flag set.
  lemma DemotionIsGroupWide(r: Run, id: nat, pk: Pubkey)
    requires IsRun(r) && Enabled(Last(r), WriteStatus(id)) && pk in Last(r).db.builders
    ensures
      var s, s' := Last(r), Apply(Last(r), WriteStatus(id));
      var failed := s.inFlight[id].sub.message.builder;
      && failed in s.view.cache && failed in s.db.builders
      && s'.db.builders[pk].status ==
           if GroupOf(s.db.builders, pk) == GroupOf(s.db.builders, failed)
           then BuilderStatus(s.view.cache[failed].status.isHighPrio, s.view.cache[failed].status.isBlacklisted, true)
           else s.db.builders[pk].status
  {
    RunKeepsCover(r);
    assert CoveredIn(CoreOf(Last(r)), Last(r).inFlight[id].sub);
  }

  // No step of a run takes a demotion back.
  lemma {:induction false} DemotionIsSticky(q: Run, r: Run)
    requires IsRun(r) && Prefix(q, r)
    ensures IsRun(q) && DemotedBuilders(Last(q)) <= DemotedBuilders(Last(r))
    decreases r
  {
    if q != r {
      DemotionIsSticky(q, r.prev);
      StepMovesCore(Last(r.prev), r.event);
      CoreGrowsTable(CoreOf(Last(r.prev)), r.event, CoreOf(Last(r)));
    }
  }

  // After a refresh that reads the table the cache has the status and collateral of every row,
  // and nothing else, so no block of a demoted builder is covered any more.
  lemma RefreshAgreesWithTable(r: Run, head: nat)
    requires IsRun(r) && Enabled(Last(r), Refresh(head, true))
    ensures
      var s' := Apply(Last(r), Refresh(head, true));
      && s'.view.optimisticSlot == head + 1 && s'.db == Last(r).db && s'.view.cache.Keys == s'.db.builders.Keys
      && (forall pk :: pk in s'.db.builders ==>
           && s'.view.cache[pk].status == s'.db.builders[pk].status
           && s'.view.cache[pk].collateral == Collateral(s'.db.builders, pk))
      && (forall sub: Submission :: sub.message.builder in DemotedBuilders(s') ==> !Covered(s'.view, sub))
  {
    RunKeepsCover(r);
  }
}
