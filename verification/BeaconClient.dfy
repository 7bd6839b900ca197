/** The multi-beacon client: failover over several beacon nodes with a remembered index, and
    the concurrent sync-status query. */
module BeaconClient {
  import opened RelayTypes

  datatype Instance = Instance(uri: string)
  datatype BeaconError = ErrBeaconNodeSyncing | ErrBeaconNodesUnavailable

  // ----- failover -----

  // The list with the remembered position swapped to the front.
  function ByLastResponse(instances: seq<Instance>, index: nat): (r: seq<Instance>)
    requires index == 0 || index < |instances|
    ensures |r| == |instances|
    ensures forall i :: 0 <= i < |r| ==>
      r[i] == instances[if i == 0 then index else if i == index then 0 else i]
  {
    if index == 0 then instances else instances[0 := instances[index]][index := instances[0]]
  }

  // Position of the first instance that answers, or the length if none does.
  function FirstAnswering<T>(list: seq<Instance>, answers: Instance -> Option<T>): (i: nat)
    ensures i <= |list|
    ensures forall j :: 0 <= j < i ==> answers(list[j]).None?
    ensures i < |list| ==> answers(list[i]).Some?
  {
    if list == [] then 0
    else if answers(list[0]).Some? then 0
    else 1 + FirstAnswering(list[1..], answers)
  }

  class MultiBeaconClient {
    const beaconInstances: array<Instance>
    var bestBeaconIndex: nat

    ghost predicate Valid()
      reads this
    {
      bestBeaconIndex == 0 || bestBeaconIndex < beaconInstances.Length
    }

    constructor (beaconInstances: array<Instance>)
      ensures Valid() && this.beaconInstances == beaconInstances && bestBeaconIndex == 0
    {
      this.beaconInstances := beaconInstances;
      bestBeaconIndex := 0;
    }

    // At index 0 the client's own list is returned, otherwise a reordered copy.
    method BeaconInstancesByLastResponse() returns (instances: array<Instance>)
      requires Valid()
      ensures instances[..] == ByLastResponse(beaconInstances[..], bestBeaconIndex)
      ensures if bestBeaconIndex == 0 then instances == beaconInstances else fresh(instances)
    {
      var index := bestBeaconIndex;
      if index == 0 {
        return beaconInstances;
      }
      instances := new Instance[beaconInstances.Length](i requires 0 <= i < beaconInstances.Length reads beaconInstances => beaconInstances[i]);
      assert instances[..] == beaconInstances[..];
      instances[0], instances[index] := instances[index], instances[0];
    }

    // FetchValidators and GetProposerDuties: the first successful answer; its position becomes
    // the remembered index. `tried` are the instances asked, in order.
    method FirstResponse<T>(answers: Instance -> Option<T>) returns (res: Result<T, BeaconError>, tried: seq<Instance>)
      requires Valid()
      modifies this
      ensures Valid()
      ensures
        var list := ByLastResponse(beaconInstances[..], old(bestBeaconIndex));
        var i := FirstAnswering(list, answers);
        if i < |list| then
          tried == list[..i + 1] && res == Ok(answers(list[i]).value) && bestBeaconIndex == i
        else
          tried == list && res == Err(ErrBeaconNodesUnavailable) && bestBeaconIndex == old(bestBeaconIndex)
    {
      var clients := BeaconInstancesByLastResponse();
      ghost var list := clients[..];
      tried := [];
      for i := 0 to clients.Length
        invariant clients[..] == list && tried == list[..i]
        invariant forall j :: 0 <= j < i ==> answers(list[j]).None?
      {
        tried := tried + [clients[i]];
        var answer := answers(clients[i]);
        if answer.Some? {
          bestBeaconIndex := i;
          return Ok(answer.value), tried;
        }
      }
      return Err(ErrBeaconNodesUnavailable), tried;
    }
  }

  // ----- runs of calls -----

  // One call: which instances answer.
  type Call = Instance -> bool

  function Answer(call: Call): Instance -> Option<()> {
    (i: Instance) => if call(i) then Some(()) else None
  }

  function IndexAfter(instances: seq<Instance>, index: nat, call: Call): (r: nat)
    requires index == 0 || index < |instances|
    ensures r == 0 || r < |instances|
  {
    var i := FirstAnswering(ByLastResponse(instances, index), Answer(call));
    if i < |instances| then i else index
  }

  function IndexAfterAll(instances: seq<Instance>, calls: seq<Call>): (r: nat)
    ensures r == 0 || r < |instances|
  {
    if calls == [] then 0
    else IndexAfter(instances, IndexAfterAll(instances, calls[..|calls| - 1]), calls[|calls| - 1])
  }

  // Reordering permutes: same instances, each as often as before.
  lemma ReorderingIsPermutation(instances: seq<Instance>, index: nat)
    requires index == 0 || index < |instances|
    ensures multiset(ByLastResponse(instances, index)) == multiset(instances)
  {
  }

  ghost predicate Distinct(list: seq<Instance>) {
    forall i, j :: 0 <= i < j < |list| ==> list[i] != list[j]
  }

  lemma ReorderingKeepsDistinct(instances: seq<Instance>, index: nat)
    requires index == 0 || index < |instances|
    requires Distinct(instances)
    ensures Distinct(ByLastResponse(instances, index))
  {
  }

  lemma SameMembers(xs: seq<Instance>, ys: seq<Instance>)
    requires multiset(xs) == multiset(ys)
    ensures forall x :: x in xs <==> x in ys
  {
    forall x ensures x in xs <==> x in ys {
      assert x in xs <==> x in multiset(xs);
      assert x in ys <==> x in multiset(ys);
    }
  }

  // After any history of calls, a call asks each instance at most once, gets the answer of the
  // first one that has any, and fails exactly when no instance of the client answers.
  lemma {:induction false} FailoverIsComplete(instances: seq<Instance>, calls: seq<Call>, call: Call)
    ensures
      var list := ByLastResponse(instances, IndexAfterAll(instances, calls));
      var i := FirstAnswering(list, Answer(call));
      && multiset(list) == multiset(instances) && (Distinct(instances) ==> Distinct(list))
      && (i == |list| <==> forall x :: x in instances ==> !call(x))
      && (i < |list| ==> list[i] in instances && call(list[i]))
  {
    var index := IndexAfterAll(instances, calls);
    ReorderingIsPermutation(instances, index);
    if Distinct(instances) { ReorderingKeepsDistinct(instances, index); }
    var list := ByLastResponse(instances, index);
    SameMembers(list, instances);
    var i := FirstAnswering(list, Answer(call));
    if i < |list| {
      assert list[i] in list && Answer(call)(list[i]).Some?;
    } else {
      forall x | x in instances ensures !call(x) {
        assert x in list;
        var j :| 0 <= j < |list| && list[j] == x;
        assert Answer(call)(list[j]).None?;
      }
    }
  }

  // The remembered position belongs to the reordered list: the instance that answered comes
  // first in the next call exactly when the list had not been reordered, or the answer came
  // from a position the reordering left alone.
  lemma LastResponderComesFirstIff(instances: seq<Instance>, index: nat, call: Call)
    requires index == 0 || index < |instances|
    requires Distinct(instances)
    requires FirstAnswering(ByLastResponse(instances, index), Answer(call)) < |instances|
    ensures
      var list := ByLastResponse(instances, index);
      var i := FirstAnswering(list, Answer(call));
      ByLastResponse(instances, IndexAfter(instances, index, call))[0] == list[i] <==>
        index == 0 || (i != 0 && i != index)
  {
  }

  // Node b answers twice in a row, and the next call asks node a first again.
  lemma LastResponderForgotten(a: Instance, b: Instance)
    requires a != b
    ensures
      var onlyB: Call := i => i == b;
      ByLastResponse([a, b], IndexAfterAll([a, b], [onlyB]))[0] == b
      && ByLastResponse([a, b], IndexAfterAll([a, b], [onlyB, onlyB]))[0] == a
  {
    var onlyB: Call := i => i == b;
    assert Answer(onlyB)(a).None? && Answer(onlyB)(b).Some?;
    assert [a, b][1..] == [b];
    assert FirstAnswering([a, b], Answer(onlyB)) == 1;
    assert [onlyB][..0] == [] && [onlyB, onlyB][..1] == [onlyB];
    assert ByLastResponse([a, b], 1) == [b, a];
    assert FirstAnswering([b, a], Answer(onlyB)) == 0;
  }

  // ----- sync status -----

  datatype SyncStatus = SyncStatus(headSlot: nat, isSyncing: bool)

  // Each instance's answer; None for an error.
  type Statuses = seq<Option<SyncStatus>>

  ghost predicate SomeSynced(answers: Statuses) {
    exists i :: 0 <= i < |answers| && answers[i].Some? && !answers[i].value.isSyncing
  }

  ghost predicate SomeAnswer(answers: Statuses) {
    exists i :: 0 <= i < |answers| && answers[i].Some?
  }

  // The goroutines complete in any order, each under the lock: a synced status is returned iff
  // some node answered synced; a syncing one only when allowed and nothing better came.
  method BestSyncStatus(answers: Statuses, allowSyncing: bool) returns (res: Result<SyncStatus, BeaconError>)
    ensures (res.Ok? && !res.value.isSyncing) <==> SomeSynced(answers)
    ensures (res.Ok? && res.value.isSyncing) <==> !SomeSynced(answers) && allowSyncing && SomeAnswer(answers)
    ensures res == Err(ErrBeaconNodeSyncing) <==> !SomeSynced(answers) && !allowSyncing
    ensures res == Err(ErrBeaconNodesUnavailable) <==> allowSyncing && !SomeAnswer(answers)
    ensures res.Ok? ==> Some(res.value) in answers
  {
    var best: Option<SyncStatus> := None;
    var foundSynced := false;
    var all := set i {:trigger answers[i]} | 0 <= i < |answers|;
    var todo := all;
    while todo != {}
      invariant todo <= all
      invariant best.Some? ==> best in answers
      invariant best.Some? <==> exists i :: i in all - todo && answers[i].Some?
      invariant foundSynced <==> exists i :: i in all - todo && answers[i].Some? && !answers[i].value.isSyncing
      invariant foundSynced <==> best.Some? && !best.value.isSyncing
      decreases |todo|
    {
      var i :| i in todo;
      ghost var seen := all - todo;
      todo := todo - {i};
      assert all - todo == seen + {i};
      if answers[i].Some? {
        var status := answers[i].value;
        if !foundSynced {
          if best.None? {
            best := Some(status);
          }
          if !status.isSyncing {
            best := Some(status);
            foundSynced := true;
          }
        }
      }
    }
    assert forall i :: i in all <==> 0 <= i < |answers|;
    if !foundSynced && !allowSyncing {
      return Err(ErrBeaconNodeSyncing);
    }
    if best.None? {
      return Err(ErrBeaconNodesUnavailable);
    }
    return Ok(best.value);
  }
}
