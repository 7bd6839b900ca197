/** Conservation of submission counters: every submission past the checks is counted for its
    builder exactly once, when it ends, and as an error exactly if its simulation was awaited
    and failed. */
module SubmissionCounts {
  import opened RelayTypes
  import opened Builders
  import opened Submissions
  import opened RelayMachine
  import opened AuctionSafety

  type Table = map<Pubkey, BuilderRow>
  type Requests = map<nat, Request>

  // A builder without a row has made no submissions.
  function Counted(b: Table, pk: Pubkey): nat { if pk in b then b[pk].submissions else 0 }
  function SimErrors(b: Table, pk: Pubkey): nat { if pk in b then b[pk].simErrors else 0 }

  // ----- what happens in a run -----

  ghost predicate Accepts(s: State, e: Event, pk: Pubkey) {
    && e.Submit? && e.sub.message.builder == pk
    && PassesFirst(s.view, DeliveredSlotSeen(s, e.slotRead), e.sub, NumChecks)
  }

  predicate FailsAwaited(s: State, e: Event, pk: Pubkey) {
    && e.SyncReply? && e.id in s.requests && s.requests[e.id].sub.message.builder == pk
    && e.reply !in {BlockValid, AlreadyKnown}
  }

  // Submissions of the builder that passed all checks.
  ghost function AcceptedCount(r: Run, pk: Pubkey): nat
    requires IsRun(r)
  {
    match r
    case Start(_) => 0
    case Extend(p, e) => AcceptedCount(p, pk) + if Accepts(Last(p), e, pk) then 1 else 0
  }

  // Submissions of the builder that were simulated before saving, and failed.
  function FailedCount(r: Run, pk: Pubkey): nat
    requires IsRun(r)
  {
    match r
    case Start(_) => 0
    case Extend(p, e) => FailedCount(p, pk) + if FailsAwaited(Last(p), e, pk) then 1 else 0
  }

  // Submissions of the builder still in progress, and those among them about to end in error.
  function InProgress(requests: Requests, pk: Pubkey): set<nat> {
    set id | id in requests && requests[id].sub.message.builder == pk
  }

  function EndingInError(requests: Requests, pk: Pubkey): set<nat> {
    set id | id in requests && requests[id].sub.message.builder == pk && requests[id].pc == Finishing(true)
  }

  // ----- single steps -----

  lemma SizeChange(xs: set<nat>, x: nat)
    ensures |xs + {x}| == |xs| + (if x in xs then 0 else 1)
    ensures |xs - {x}| == |xs| - (if x in xs then 1 else 0)
  {
    if x in xs { assert xs + {x} == xs; } else { assert xs - {x} == xs; }
  }

  // The table after a step: only a finished submission counts.
  lemma StepCounts(s: State, e: Event, pk: Pubkey)
    requires Enabled(s, e)
    ensures
      var ends := e.Finish? && s.requests[e.id].sub.message.builder == pk;
      && Counted(Apply(s, e).db.builders, pk) == Counted(s.db.builders, pk) + (if ends then 1 else 0)
      && SimErrors(Apply(s, e).db.builders, pk) ==
           SimErrors(s.db.builders, pk) + (if ends && s.requests[e.id].pc == Finishing(true) then 1 else 0)
  {
    match e
    case WriteStatus(id) =>
      SetStatusIsGroupWide(s.db.builders, s.inFlight[id].sub.message.builder, DemotedStatus(s.view.cache, s.inFlight[id].sub.message.builder));
    case Finish(id) =>
      var q := s.requests[id];
      UpsertKeepsGroups(s.db.builders, q.sub.message.builder, q.sub.message.slot, q.pc.simError);
    case _ => OtherStepsKeepBuilders(s, e);
  }

  lemma OtherStepsKeepBuilders(s: State, e: Event)
    requires Enabled(s, e) && !e.WriteStatus? && !e.Finish?
    ensures Apply(s, e).db.builders == s.db.builders
  {
  }

  // Requests keep their submission; one joins by Submit, one leaves by Finish.
  ghost predicate JoinsOrLeaves(requests: Requests, e: Event, requests': Requests, joins: bool) {
    && (joins ==> e.Submit? && e.id !in requests)
    && (e.Finish? ==> e.id in requests)
    && requests'.Keys == (if joins then requests.Keys + {e.id} else if e.Finish? then requests.Keys - {e.id} else requests.Keys)
    && (forall id :: id in requests && id in requests' ==> requests'[id].sub == requests[id].sub)
    && (joins ==> requests'[e.id].sub == e.sub)
  }

  ghost predicate Joins(s: State, e: Event) {
    e.Submit? && PassesFirst(s.view, DeliveredSlotSeen(s, e.slotRead), e.sub, NumChecks)
  }

  // Only a failing reply makes a request end in error.
  ghost predicate ErrorsFollow(requests: Requests, e: Event, requests': Requests) {
    forall id :: id in requests' ==>
      (requests'[id].pc == Finishing(true) <==>
        || (id in requests && requests[id].pc == Finishing(true))
        || (e.SyncReply? && e.id == id && e.reply !in {BlockValid, AlreadyKnown}))
  }

  lemma SubmitJoins(s: State, e: Event)
    requires Enabled(s, e) && e.Submit?
    ensures JoinsOrLeaves(s.requests, e, Apply(s, e).requests, Joins(s, e))
  {
    var d := DeliveredSlotSeen(s, e.slotRead);
    JudgeIsVerdict(s.view, d, e.sub, Judge(s.view, d, e.sub));
    assert Joins(s, e) <==> Judge(s.view, d, e.sub) in {Optimistic, Synchronous};
  }

  lemma MoveJoinsOrLeaves(c: Auctions, e: Event, c': Auctions)
    requires AuctionMoves(c, e, c') && !e.Submit? && (e.Finish? ==> e.id in c.requests)
    ensures JoinsOrLeaves(c.requests, e, c'.requests, false)
  {
  }

  lemma StepJoinsOrLeaves(s: State, e: Event)
    requires Enabled(s, e)
    ensures JoinsOrLeaves(s.requests, e, Apply(s, e).requests, Joins(s, e))
  {
    if e.Submit? {
      SubmitJoins(s, e);
    } else {
      StepMovesAuction(s, e);
      MoveJoinsOrLeaves(AuctionsOf(s), e, AuctionsOf(Apply(s, e)));
    }
  }

  lemma MoveLetsErrorsFollow(c: Auctions, e: Event, c': Auctions)
    requires AuctionMoves(c, e, c')
    ensures ErrorsFollow(c.requests, e, c'.requests)
    ensures e.SyncReply? ==> e.id in c.requests && c.requests[e.id].pc != Finishing(true)
  {
  }

  // Who is in progress after a step.
  lemma InProgressAfter(requests: Requests, e: Event, requests': Requests, joins: bool, pk: Pubkey)
    requires JoinsOrLeaves(requests, e, requests', joins)
    ensures InProgress(requests', pk) ==
      if joins && e.sub.message.builder == pk then InProgress(requests, pk) + {e.id}
      else if e.Finish? then InProgress(requests, pk) - {e.id}
      else InProgress(requests, pk)
  {
  }

  lemma MoveKeepsProgressCount(requests: Requests, e: Event, requests': Requests, joins: bool, pk: Pubkey)
    requires JoinsOrLeaves(requests, e, requests', joins)
    ensures
      |InProgress(requests', pk)| == |InProgress(requests, pk)|
        + (if joins && e.sub.message.builder == pk then 1 else 0)
        - (if e.Finish? && requests[e.id].sub.message.builder == pk then 1 else 0)
  {
    InProgressAfter(requests, e, requests', joins, pk);
    if joins || e.Finish? { SizeChange(InProgress(requests, pk), e.id); }
  }

  // Who is about to end in error after a step.
  lemma EndingInErrorAfter(requests: Requests, e: Event, requests': Requests, joins: bool, pk: Pubkey)
    requires JoinsOrLeaves(requests, e, requests', joins) && ErrorsFollow(requests, e, requests')
    requires e.SyncReply? ==> e.id in requests
    ensures EndingInError(requests', pk) ==
      if e.SyncReply? && requests[e.id].sub.message.builder == pk && e.reply !in {BlockValid, AlreadyKnown}
      then EndingInError(requests, pk) + {e.id}
      else if e.Finish? then EndingInError(requests, pk) - {e.id}
      else EndingInError(requests, pk)
  {
  }

  lemma MoveKeepsErrorCount(requests: Requests, e: Event, requests': Requests, joins: bool, pk: Pubkey)
    requires JoinsOrLeaves(requests, e, requests', joins) && ErrorsFollow(requests, e, requests')
    requires e.SyncReply? ==> e.id in requests && requests[e.id].pc != Finishing(true)
    ensures
      |EndingInError(requests', pk)| == |EndingInError(requests, pk)|
        + (if e.SyncReply? && requests[e.id].sub.message.builder == pk && e.reply !in {BlockValid, AlreadyKnown} then 1 else 0)
        - (if e.Finish? && requests[e.id].sub.message.builder == pk && requests[e.id].pc == Finishing(true) then 1 else 0)
  {
    EndingInErrorAfter(requests, e, requests', joins, pk);
    if e.SyncReply? || e.Finish? { SizeChange(EndingInError(requests, pk), e.id); }
  }

  // ----- conservation -----

  // For every builder and at every point of a run: submissions counted in the table and
  // submissions in progress make up those counted before and those accepted since; and errors
  // counted or about to be make up the errors before and the failed simulations since.
  lemma {:induction false} CountsAreConserved(r: Run, pk: Pubkey)
    requires IsRun(r)
    ensures
      Counted(Last(r).db.builders, pk) + |InProgress(Last(r).requests, pk)|
        == Counted(First(r).db.builders, pk) + AcceptedCount(r, pk)
    ensures
      SimErrors(Last(r).db.builders, pk) + |EndingInError(Last(r).requests, pk)|
        == SimErrors(First(r).db.builders, pk) + FailedCount(r, pk)
  {
    if r.Extend? {
      var s, e, s' := Last(r.prev), r.event, Last(r);
      CountsAreConserved(r.prev, pk);
      StepCounts(s, e, pk);
      StepJoinsOrLeaves(s, e);
      StepMovesAuction(s, e);
      MoveLetsErrorsFollow(AuctionsOf(s), e, AuctionsOf(s'));
      MoveKeepsProgressCount(s.requests, e, s'.requests, Joins(s, e), pk);
      MoveKeepsErrorCount(s.requests, e, s'.requests, Joins(s, e), pk);
    }
  }
}
