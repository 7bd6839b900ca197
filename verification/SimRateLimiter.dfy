/** The block-simulation limiter: a condition-variable semaphore whose waiters do not check
    the counter again when woken. As the Go `sync` documentation states for Cond.Wait, a
    waiter returns only after Signal or Broadcast. */
module SimRateLimiter {
  import opened RelayTypes

  type SendId = nat

  // running: past the wait; waiting: inside Wait; signalled: woken, lock not yet reacquired.
  datatype Limiter = Limiter(limit: int, counter: int, running: set<SendId>, waiting: set<SendId>, signalled: set<SendId>)

  datatype SendError = ErrRequestClosed | ErrTransport | ErrSimulationFailed

  // ----- the atomic sections of send -----

  // Lock, count, and either go on or wait.
  function Enter(l: Limiter, id: SendId): Limiter {
    var c := l.counter + 1;
    if l.limit > 0 && c > l.limit then l.(counter := c, waiting := l.waiting + {id})
    else l.(counter := c, running := l.running + {id})
  }

  // A woken waiter reacquires the lock and goes on without looking at the counter.
  function Resume(l: Limiter, id: SendId): Limiter {
    l.(signalled := l.signalled - {id}, running := l.running + {id})
  }

  // Deferred release: uncount, signal some waiter if there is one, unlock.
  function Leave(l: Limiter, id: SendId, woken: Option<SendId>): Limiter {
    var l' := l.(counter := l.counter - 1, running := l.running - {id});
    match woken
    case None => l'
    case Some(w) => l'.(waiting := l.waiting - {w}, signalled := l.signalled + {w})
  }

  predicate MayWake(l: Limiter, woken: Option<SendId>) {
    match woken
    case None => l.waiting == {}
    case Some(w) => w in l.waiting
  }

  // The limiter object; `waiters` stands for the queue of the condition variable.
  class BlockSimulationRateLimiter {
    const maxConcurrentBlocks: int
    var counter: int
    var running: set<SendId>
    var waiters: set<SendId>
    var signalled: set<SendId>

    function State(): Limiter
      reads this
    {
      Limiter(maxConcurrentBlocks, counter, running, waiters, signalled)
    }

    constructor (maxConcurrentBlocks: int)
      ensures State() == Limiter(maxConcurrentBlocks, 0, {}, {}, {})
    {
      this.maxConcurrentBlocks := maxConcurrentBlocks;
      counter, running, waiters, signalled := 0, {}, {}, {};
    }

    method SendEnter(id: SendId) returns (waits: bool)
      modifies this
      ensures State() == Enter(old(State()), id)
      ensures counter == old(counter) + 1 && signalled == old(signalled)
      ensures if waits then waiters == old(waiters) + {id} && running == old(running)
              else running == old(running) + {id} && waiters == old(waiters)
      ensures waits <==> maxConcurrentBlocks > 0 && old(counter) >= maxConcurrentBlocks
    {
      counter := counter + 1;
      var cnt := counter;
      if maxConcurrentBlocks > 0 && cnt > maxConcurrentBlocks {
        waiters := waiters + {id};
        return true;
      }
      running := running + {id};
      return false;
    }

    method SendResume(id: SendId)
      requires id in signalled
      modifies this
      ensures State() == Resume(old(State()), id)
    {
      signalled := signalled - {id};
      running := running + {id};
    }

    // `closed` is the state of the caller's context, `reply` what the simulator would answer.
    method SendLeave(id: SendId, closed: bool, reply: Option<SendError>) returns (err: Option<SendError>, woken: Option<SendId>)
      requires id in running
      modifies this
      ensures MayWake(old(State()), woken) && State() == Leave(old(State()), id, woken)
      ensures counter == old(counter) - 1 && running == old(running) - {id}
      ensures woken.None? <==> old(waiters) == {}
      ensures woken.Some? ==>
        woken.value in old(waiters) && waiters == old(waiters) - {woken.value} && signalled == old(signalled) + {woken.value}
      ensures err == if closed then Some(ErrRequestClosed) else reply
    {
      err := if closed then Some(ErrRequestClosed) else reply;
      counter := counter - 1;
      running := running - {id};
      woken := None;
      if waiters != {} {
        var w :| w in waiters;
        waiters := waiters - {w};
        signalled := signalled + {w};
        woken := Some(w);
      }
    }

    method CurrentCounter() returns (n: int)
      ensures n == counter
    {
      n := counter;
    }
  }

  // ----- schedules of a finite set of sends -----

  datatype Event = Arrive(id: SendId) | Wake(id: SendId) | Finish(id: SendId, woken: Option<SendId>)

  // `pending` are the sends that have not called yet, `done` the ones that have returned.
  datatype Schedule = Schedule(pending: set<SendId>, lim: Limiter, done: set<SendId>)

  predicate Enabled(s: Schedule, e: Event) {
    match e
    case Arrive(id) => id in s.pending
    case Wake(id) => id in s.lim.signalled
    case Finish(id, woken) => id in s.lim.running && MayWake(s.lim, woken)
  }

  function Apply(s: Schedule, e: Event): Schedule {
    match e
    case Arrive(id) => s.(pending := s.pending - {id}, lim := Enter(s.lim, id))
    case Wake(id) => s.(lim := Resume(s.lim, id))
    case Finish(id, woken) => s.(lim := Leave(s.lim, id, woken), done := s.done + {id})
  }

  predicate IsRun(s: Schedule, es: seq<Event>)
    decreases |es|
  {
    es == [] || (Enabled(s, es[0]) && IsRun(Apply(s, es[0]), es[1..]))
  }

  function After(s: Schedule, es: seq<Event>): Schedule
    decreases |es|
  {
    if es == [] then s else After(Apply(s, es[0]), es[1..])
  }

  function Initial(sends: set<SendId>, limit: int): Schedule {
    Schedule(sends, Limiter(limit, 0, {}, {}, {}), {})
  }

  function Min(a: int, b: int): int { if a < b then a else b }

  ghost predicate Separate(s: Schedule) {
    && s.pending !! s.lim.running && s.pending !! s.lim.waiting && s.pending !! s.lim.signalled && s.pending !! s.done
    && s.lim.running !! s.lim.waiting && s.lim.running !! s.lim.signalled && s.lim.running !! s.done
    && s.lim.waiting !! s.lim.signalled && s.lim.waiting !! s.done && s.lim.signalled !! s.done
  }

  ghost function Everyone(s: Schedule): set<SendId> {
    s.pending + s.lim.running + s.lim.waiting + s.lim.signalled + s.done
  }

  // The counting invariant: the counter counts everybody inside, and the requests going on
  // or about to go on fill the limit exactly as far as the counter reaches.
  ghost predicate Balanced(l: Limiter) {
    && l.counter == |l.running| + |l.signalled| + |l.waiting|
    && (l.limit > 0 ==> |l.running| + |l.signalled| == Min(l.counter, l.limit))
    && (l.limit <= 0 ==> l.waiting == {} && l.signalled == {})
  }

  ghost predicate Counts(s: Schedule) { Separate(s) && Balanced(s.lim) }

  lemma SizeRemove(xs: set<SendId>, x: SendId)
    requires x in xs
    ensures |xs - {x}| == |xs| - 1
  {
  }

  lemma StepKeepsEveryone(s: Schedule, e: Event)
    requires Separate(s) && Enabled(s, e)
    ensures Separate(Apply(s, e)) && Everyone(Apply(s, e)) == Everyone(s)
  {
  }

  // How the sizes of the four groups change; whoever moves was not there before.
  lemma SizesAfter(s: Schedule, e: Event)
    requires Enabled(s, e)
    requires e.Arrive? ==> e.id !in s.lim.running && e.id !in s.lim.waiting
    requires e.Wake? ==> e.id !in s.lim.running
    requires e.Finish? && e.woken.Some? ==> e.woken.value !in s.lim.signalled
    ensures
      var l, l' := s.lim, Apply(s, e).lim;
      match e
      case Arrive(_) =>
        && |Apply(s, e).pending| == |s.pending| - 1 && l'.counter == l.counter + 1 && l'.signalled == l.signalled
        && if l.limit > 0 && l.counter >= l.limit then |l'.waiting| == |l.waiting| + 1 && l'.running == l.running
           else |l'.running| == |l.running| + 1 && l'.waiting == l.waiting
      case Wake(_) =>
        && Apply(s, e).pending == s.pending && l'.counter == l.counter && l'.waiting == l.waiting
        && |l'.running| == |l.running| + 1 && |l'.signalled| == |l.signalled| - 1
      case Finish(_, woken) =>
        && Apply(s, e).pending == s.pending && l'.counter == l.counter - 1 && |l'.running| == |l.running| - 1
        && if woken.Some? then |l'.waiting| == |l.waiting| - 1 && |l'.signalled| == |l.signalled| + 1
           else l'.waiting == l.waiting == {} && l'.signalled == l.signalled
  {
  }

  lemma NoWaitingIsEmpty(xs: set<SendId>)
    ensures xs == {} <==> |xs| == 0
  {
  }

  lemma ArriveKeepsBalance(s: Schedule, id: SendId)
    requires Counts(s) && id in s.pending
    ensures Balanced(Enter(s.lim, id))
  {
    SizesAfter(s, Arrive(id));
  }

  lemma WakeKeepsBalance(s: Schedule, id: SendId)
    requires Counts(s) && id in s.lim.signalled
    ensures Balanced(Resume(s.lim, id))
  {
    SizesAfter(s, Wake(id));
  }

  lemma FinishKeepsBalance(s: Schedule, id: SendId, woken: Option<SendId>)
    requires Counts(s) && id in s.lim.running && MayWake(s.lim, woken)
    ensures Balanced(Leave(s.lim, id, woken))
  {
    SizesAfter(s, Finish(id, woken));
    NoWaitingIsEmpty(s.lim.waiting);
  }

  lemma {:induction false} StepKeepsCounts(s: Schedule, e: Event)
    requires Counts(s) && Enabled(s, e)
    ensures Counts(Apply(s, e)) && Everyone(Apply(s, e)) == Everyone(s)
  {
    StepKeepsEveryone(s, e);
    match e
    case Arrive(id) => ArriveKeepsBalance(s, id);
    case Wake(id) => WakeKeepsBalance(s, id);
    case Finish(id, woken) => FinishKeepsBalance(s, id, woken);
  }

  lemma {:induction false} RunKeepsCounts(s: Schedule, es: seq<Event>)
    requires Counts(s) && IsRun(s, es)
    ensures Counts(After(s, es)) && Everyone(After(s, es)) == Everyone(s)
    ensures After(s, es).lim.limit == s.lim.limit
    decreases |es|
  {
    if es != [] {
      StepKeepsCounts(s, es[0]);
      RunKeepsCounts(Apply(s, es[0]), es[1..]);
    }
  }

  // In every schedule with a positive limit, running plus signalled requests number exactly
  // min(counter, limit): the limit is never exceeded, and nobody waits while there is room.
  lemma LimitIsExact(sends: set<SendId>, limit: int, es: seq<Event>)
    requires limit > 0 && IsRun(Initial(sends, limit), es)
    ensures
      var l := After(Initial(sends, limit), es).lim;
      && |l.running| + |l.signalled| == Min(l.counter, limit)
      && |l.running| <= limit
      && (l.waiting != {} ==> |l.running| + |l.signalled| == limit)
  {
    RunKeepsCounts(Initial(sends, limit), es);
    var l := After(Initial(sends, limit), es).lim;
    if w :| w in l.waiting { SizeRemove(l.waiting, w); }
  }

  // With no limit nobody ever waits.
  lemma NoLimitNoWaiting(sends: set<SendId>, limit: int, es: seq<Event>)
    requires limit <= 0 && IsRun(Initial(sends, limit), es)
    ensures After(Initial(sends, limit), es).lim.waiting == {}
  {
    RunKeepsCounts(Initial(sends, limit), es);
  }

  // ----- progress -----

  // Work left: three steps for a send that will wait, fewer the further it is.
  ghost function Remaining(s: Schedule): nat {
    4 * |s.pending| + 3 * |s.lim.waiting| + 2 * |s.lim.signalled| + |s.lim.running|
  }

  lemma StepDecreases(s: Schedule, e: Event)
    requires Counts(s) && Enabled(s, e)
    ensures Remaining(Apply(s, e)) < Remaining(s)
  {
    SizesAfter(s, e);
  }

  lemma {:induction false} RunLengthBound(s: Schedule, es: seq<Event>)
    requires Counts(s) && IsRun(s, es)
    ensures |es| + Remaining(After(s, es)) <= Remaining(s)
    decreases |es|
  {
    if es != [] {
      StepKeepsCounts(s, es[0]);
      StepDecreases(s, es[0]);
      RunLengthBound(Apply(s, es[0]), es[1..]);
    }
  }

  // Unless everybody is done, some step is possible: nobody is left waiting for a signal
  // that no one will send.
  lemma NeverStuck(s: Schedule)
    requires Counts(s) && s.done != Everyone(s)
    ensures exists e :: Enabled(s, e)
  {
    if id :| id in s.pending {
      assert Enabled(s, Arrive(id));
    } else if id :| id in s.lim.signalled {
      assert Enabled(s, Wake(id));
    } else {
      if w :| w in s.lim.waiting { SizeRemove(s.lim.waiting, w); }
      assert s.lim.running != {};
      var id :| id in s.lim.running;
      if w :| w in s.lim.waiting {
        assert Enabled(s, Finish(id, Some(w)));
      } else {
        assert Enabled(s, Finish(id, None));
      }
    }
  }

  // Any schedule of finitely many sends has at most four steps per send, and one that can go
  // no further has served every send and is back at counter zero with no waiter.
  lemma EverySendReturns(sends: set<SendId>, limit: int, es: seq<Event>)
    requires IsRun(Initial(sends, limit), es)
    ensures |es| <= 4 * |sends|
    ensures
      var s := After(Initial(sends, limit), es);
      (forall e :: !Enabled(s, e)) <==>
        s.done == sends && s.pending == {} && s.lim == Limiter(limit, 0, {}, {}, {})
  {
    var s0 := Initial(sends, limit);
    var s := After(s0, es);
    RunKeepsCounts(s0, es);
    RunLengthBound(s0, es);
    if forall e :: !Enabled(s, e) {
      if s.done != Everyone(s) { NeverStuck(s); }
      assert forall id :: id in Everyone(s) ==> id in s.done;
    }
  }
}
