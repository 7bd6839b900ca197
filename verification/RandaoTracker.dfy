/** The expected prev_randao: calls of updatedExpectedRandao interleaved at the beacon query
    they make without holding the lock, and what this means for accepted blocks. */
module RandaoTracker {
  import opened RelayTypes
  import opened Submissions

  // `queries` are the calls between their two locked sections, by the slot they query.
  datatype Tracker = Tracker(expected: ExpectedRandao, updating: nat, queries: map<nat, nat>)

  datatype Event =
    | Call(id: nat, slot: nat)               // first locked section
    | Answer(id: nat, randao: string)        // beacon node answered; second locked section
    | Failure(id: nat)                       // beacon node failed

  predicate Aborts(t: Tracker, slot: nat) { slot < t.expected.slot || slot <= t.updating }

  predicate Enabled(t: Tracker, e: Event) {
    match e
    case Call(id, _) => id !in t.queries
    case Answer(id, _) => id in t.queries
    case Failure(id) => id in t.queries
  }

  function Begin(t: Tracker, id: nat, slot: nat): Tracker {
    if Aborts(t, slot) then t else t.(updating := slot, queries := t.queries[id := slot])
  }

  function Receive(t: Tracker, id: nat, randao: string): Tracker
    requires id in t.queries
  {
    var target := t.queries[id] + 1;
    var t' := t.(queries := t.queries - {id});
    if target >= t.expected.slot then t'.(expected := ExpectedRandao(target, randao)) else t'
  }

  function Apply(t: Tracker, e: Event): Tracker
    requires Enabled(t, e)
  {
    match e
    case Call(id, slot) => Begin(t, id, slot)
    case Answer(id, randao) => Receive(t, id, randao)
    case Failure(id) => t.(updating := 0, queries := t.queries - {id})
  }

  class RandaoUpdater {
    var expectedPrevRandao: ExpectedRandao
    var expectedPrevRandaoUpdating: nat
    var queries: map<nat, nat>

    function State(): Tracker
      reads this
    {
      Tracker(expectedPrevRandao, expectedPrevRandaoUpdating, queries)
    }

    constructor ()
      ensures State() == Initial()
    {
      expectedPrevRandao, expectedPrevRandaoUpdating, queries := ExpectedRandao(0, ""), 0, map[];
    }

    // Returns whether the call goes on to query the beacon node.
    method BeginUpdate(id: nat, slot: nat) returns (goesOn: bool)
      requires Enabled(State(), Call(id, slot))
      modifies this
      ensures State() == Begin(old(State()), id, slot)
      ensures expectedPrevRandao == old(expectedPrevRandao)
      ensures expectedPrevRandaoUpdating == if goesOn then slot else old(expectedPrevRandaoUpdating)
      ensures queries == if goesOn then old(queries)[id := slot] else old(queries)
      ensures goesOn <==> slot >= old(expectedPrevRandao).slot && slot > old(expectedPrevRandaoUpdating)
    {
      var latestKnownSlot := expectedPrevRandao.slot;
      if slot < latestKnownSlot || slot <= expectedPrevRandaoUpdating {
        return false;
      }
      expectedPrevRandaoUpdating := slot;
      queries := queries[id := slot];
      return true;
    }

    method EndUpdate(id: nat, answer: Option<string>)
      requires id in queries
      modifies this
      ensures State() == Apply(old(State()), match answer case Some(r) => Answer(id, r) case None => Failure(id))
      ensures queries == old(queries) - {id}
      ensures expectedPrevRandaoUpdating == if answer.Some? then old(expectedPrevRandaoUpdating) else 0
      ensures expectedPrevRandao ==
        if answer.Some? && old(queries)[id] + 1 >= old(expectedPrevRandao).slot
        then ExpectedRandao(old(queries)[id] + 1, answer.value) else old(expectedPrevRandao)
    {
      var slot := queries[id];
      queries := queries - {id};
      if answer.None? {
        expectedPrevRandaoUpdating := 0;
        return;
      }
      var targetSlot := slot + 1;
      if targetSlot >= expectedPrevRandao.slot {
        expectedPrevRandao := ExpectedRandao(targetSlot, answer.value);
      }
    }
  }

  function Initial(): Tracker { Tracker(ExpectedRandao(0, ""), 0, map[]) }

  // ----- runs -----

  datatype Run = Start | Extend(prev: Run, event: Event)

  predicate IsRun(r: Run)
    decreases r, 0
  {
    match r
    case Start => true
    case Extend(p, e) => IsRun(p) && Enabled(Last(p), e)
  }

  function Last(r: Run): Tracker
    requires IsRun(r)
    decreases r, 1
  {
    match r
    case Start => Initial()
    case Extend(p, e) => Apply(Last(p), e)
  }

  // Answers the beacon node gave: the slot asked for and the randao returned.
  function Answers(r: Run): set<(nat, string)>
    requires IsRun(r)
  {
    match r
    case Start => {}
    case Extend(p, e) => Answers(p) + if e.Answer? then {(Last(p).queries[e.id], e.randao)} else {}
  }

  // Slots queried, one entry for each query.
  function Queries(r: Run): multiset<nat>
    requires IsRun(r)
  {
    match r
    case Start => multiset{}
    case Extend(p, e) => Queries(p) + if e.Call? && !Aborts(Last(p), e.slot) then multiset{e.slot} else multiset{}
  }

  predicate Prefix(q: Run, r: Run) {
    q == r || (r.Extend? && Prefix(q, r.prev))
  }

  // The expected slot never decreases, for all interleavings.
  lemma {:induction false} ExpectedSlotIsMonotone(q: Run, r: Run)
    requires IsRun(r) && Prefix(q, r)
    ensures IsRun(q) && Last(q).expected.slot <= Last(r).expected.slot
    decreases r
  {
    if q != r { ExpectedSlotIsMonotone(q, r.prev); }
  }

  // The expected value is the beacon node's answer for the slot before it.
  lemma {:induction false} ExpectedIsAnAnswer(r: Run)
    requires IsRun(r)
    ensures var x := Last(r).expected;
      x == ExpectedRandao(0, "") || (x.slot > 0 && (x.slot - 1, x.prevRandao) in Answers(r))
  {
    if r.Extend? { ExpectedIsAnAnswer(r.prev); }
  }

  // No answer is lost: the expected slot is the greatest one answered for, and an answer for
  // that slot or a later one is what is expected from then on.
  lemma {:induction false} AnswersAreRecorded(r: Run)
    requires IsRun(r)
    ensures forall slot, randao :: (slot, randao) in Answers(r) ==> slot + 1 <= Last(r).expected.slot
    ensures r.Extend? && r.event.Answer? ==>
      var slot := Last(r.prev).queries[r.event.id];
      (slot, r.event.randao) in Answers(r) &&
      Last(r).expected == if slot + 1 < Last(r.prev).expected.slot then Last(r.prev).expected else ExpectedRandao(slot + 1, r.event.randao)
  {
    if r.Extend? { AnswersAreRecorded(r.prev); }
  }

  function Failures(r: Run): nat {
    if r.Start? then 0 else Failures(r.prev) + if r.event.Failure? then 1 else 0
  }

  // A slot is queried at most once more than there were failures, because `updating` has
  // passed every slot queried since the last one; so at most once in a failure-free run.
  lemma {:induction false} QueriesBoundedByFailures(r: Run, slot: nat)
    requires IsRun(r)
    ensures Queries(r)[slot] <= Failures(r) + (if 0 < slot <= Last(r).updating then 1 else 0)
  {
    if r.Extend? {
      var p, e := r.prev, r.event;
      QueriesBoundedByFailures(p, slot);
      var begun := e.Call? && !Aborts(Last(p), e.slot) && e.slot == slot;
      assert Queries(r)[slot] == Queries(p)[slot] + if begun then 1 else 0;
    }
  }

  // Slots whose query began since the last failure.
  function BegunSinceFailure(r: Run): set<nat>
    requires IsRun(r)
  {
    match r
    case Start => {}
    case Extend(p, e) =>
      if e.Failure? then {}
      else BegunSinceFailure(p) + if e.Call? && !Aborts(Last(p), e.slot) then {e.slot} else {}
  }

  // `updating` is the greatest slot begun since the last failure, whatever is in flight.
  lemma {:induction false} UpdatingIsGreatestBegun(r: Run)
    requires IsRun(r)
    ensures forall slot :: slot in BegunSinceFailure(r) ==> slot <= Last(r).updating
    ensures if BegunSinceFailure(r) == {} then Last(r).updating == 0 else Last(r).updating in BegunSinceFailure(r)
  {
    if r.Extend? { UpdatingIsGreatestBegun(r.prev); }
  }

  // A call for a slot goes on exactly when the slot is not behind the expected one and no slot
  // as great was begun since the last failure: being queried right now does not matter.
  lemma QueryBeginsIff(r: Run, slot: nat)
    requires IsRun(r)
    ensures !Aborts(Last(r), slot) <==>
      slot >= Last(r).expected.slot && slot > 0 && forall begun :: begun in BegunSinceFailure(r) ==> begun < slot
  {
    UpdatingIsGreatestBegun(r);
  }

  // Some query failed after query id had begun.
  ghost predicate FailureSince(r: Run, id: nat)
    requires IsRun(r)
  {
    r.Extend? && !(r.event.Call? && r.event.id == id) && (r.event.Failure? || FailureSince(r.prev, id))
  }

  // While a slot is being queried and no query has failed since that one began, every further
  // call for the slot aborts.
  lemma {:induction false} NoSecondQueryWithoutFailure(r: Run, id: nat)
    requires IsRun(r) && id in Last(r).queries && !FailureSince(r, id)
    ensures Last(r).queries[id] in BegunSinceFailure(r) && Aborts(Last(r), Last(r).queries[id])
  {
    var Extend(p, e) := r;
    if e.Call? && e.id == id && id !in Last(p).queries {
      assert Last(r).updating == e.slot;
    } else {
      NoSecondQueryWithoutFailure(p, id);
    }
    UpdatingIsGreatestBegun(r);
  }

  // For every two slots: while the first is being queried a query of the second fails, and the
  // first is queried once more.
  lemma FailureAllowsSecondQuery(slot: nat, later: nat)
    requires 0 < slot < later
    ensures
      var calls := Extend(Extend(Start, Call(1, slot)), Call(2, later));
      var r := Extend(Extend(calls, Failure(2)), Call(3, slot));
      IsRun(r) && Queries(r)[slot] == 2 && Last(r).queries == map[1 := slot, 3 := slot]
  {
    var r1 := Extend(Start, Call(1, slot));
    var r2 := Extend(r1, Call(2, later));
    var r3 := Extend(r2, Failure(2));
    assert IsRun(Start) && Last(Start) == Initial() && IsRun(r1);
    assert Last(r1) == Tracker(ExpectedRandao(0, ""), slot, map[1 := slot]);
    assert Last(r2) == Tracker(ExpectedRandao(0, ""), later, map[1 := slot, 2 := later]);
    assert Last(r3) == Tracker(ExpectedRandao(0, ""), 0, map[1 := slot]);
    assert IsRun(r3) && IsRun(Extend(r3, Call(3, slot)));
    assert Queries(r1)[slot] == 1 && Queries(r2)[slot] == 1 && Queries(r3)[slot] == 1;
  }

  // Every block that reaches simulation carries a beacon answer for its slot.
  lemma AcceptedBlockCarriesBeaconRandao(r: Run, v: ApiView, lastDelivered: Option<nat>, sub: Submission)
    requires IsRun(r) && v.randao == Last(r).expected
    requires Judge(v, lastDelivered, sub) in {Optimistic, Synchronous}
    ensures sub.message.slot > 0 && (sub.message.slot - 1, sub.payload.random) in Answers(r)
  {
  }
}
