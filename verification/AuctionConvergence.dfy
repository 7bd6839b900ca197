/** Convergence of the auction: submissions that complete one after another leave the same
    bids behind in every order, namely each builder's newest, and a top bid of greatest value. */
module AuctionConvergence {
  import opened RelayTypes
  import opened RedisStore
  import opened RelayMachine
  import opened AuctionSafety
  import opened AuctionAgreement
  import Decimal

  // All writes of a submission before the top-bid update.
  function Saved(r: Redis, sub: Submission): Redis {
    SaveLatestBuilderBid(
      SaveExecutionPayload(SaveBidTrace(r, sub.message), PayloadKeyOf(sub.message), sub.payload),
      BidKeyOf(sub), sub.receivedAt, BidOf(sub))
  }

  // The check for newer payloads, the saves and the top-bid update as one step.
  ghost predicate Completes(r: Redis, sub: Submission, r': Redis) {
    if sub.receivedAt < LatestReceivedAt(r, BidKeyOf(sub)) then r' == r
    else exists w :: MayChoose(Saved(r, sub), AuctionOf(sub), w) && r' == TopAfter(Saved(r, sub), AuctionOf(sub), w)
  }

  // The one-step completion is what the machine's single operations do for a submission that
  // nothing interrupts, whichever builder the scan chooses.
  lemma CompletionIsItsSteps(r: Redis, sub: Submission, w: Option<Pubkey>)
    ensures
      var stale := sub.receivedAt < LatestReceivedAt(r, BidKeyOf(sub));
      && AdvancePc(r, sub, CheckLatest) == (if stale then Finishing(false) else SaveTrace)
      && (stale ==> Completes(r, sub, r))
      && (!stale && MayChoose(Saved(r, sub), AuctionOf(sub), w) ==>
           Completes(r, sub, TopAfter(Saved(r, sub), AuctionOf(sub), w)))
    ensures
      var r1 := AdvanceRedis(r, sub, SaveTrace);
      var r2 := AdvanceRedis(r1, sub, AdvancePc(r, sub, SaveTrace));
      var r3 := AdvanceRedis(r2, sub, AdvancePc(r1, sub, SavePayload));
      var r4 := AdvanceRedis(r3, sub, AdvancePc(r2, sub, SaveBid));
      var r5 := AdvanceRedis(r4, sub, AdvancePc(r3, sub, SaveTime));
      r5 == Saved(r, sub) && AdvancePc(r4, sub, SaveValue) == ReadValues
  {
  }

  // rs[i] is the content of Redis before submission i completes.
  ghost predicate IsHistory(rs: seq<Redis>, subs: seq<Submission>) {
    && |rs| == |subs| + 1 && EmptyAuctions(rs[0])
    && forall i :: 0 <= i < |subs| ==> Completes(rs[i], subs[i], rs[i + 1])
  }

  // ----- the newest submission of a builder -----

  // The latest received one; on equal times, the one completing last.
  function NewestOf(subs: seq<Submission>, k: BidKey): Option<Submission> {
    if subs == [] then None
    else
      var before, last := NewestOf(subs[..|subs| - 1], k), subs[|subs| - 1];
      if BidKeyOf(last) == k && (before.None? || last.receivedAt >= before.value.receivedAt) then Some(last) else before
  }

  lemma {:induction false} NewestIsNewest(subs: seq<Submission>, k: BidKey)
    ensures match NewestOf(subs, k)
      case None => forall y :: y in subs ==> BidKeyOf(y) != k
      case Some(x) => x in subs && BidKeyOf(x) == k && forall y :: y in subs && BidKeyOf(y) == k ==> y.receivedAt <= x.receivedAt
  {
    if subs != [] {
      NewestIsNewest(subs[..|subs| - 1], k);
      assert subs == subs[..|subs| - 1] + [subs[|subs| - 1]];
    }
  }

  // One builder's submissions to one auction have different receive times.
  ghost predicate DistinctTimes(subs: seq<Submission>) {
    forall x, y :: x in subs && y in subs && BidKeyOf(x) == BidKeyOf(y) && x.receivedAt == y.receivedAt ==> x == y
  }

  lemma NewestIgnoresOrder(xs: seq<Submission>, ys: seq<Submission>, k: BidKey)
    requires DistinctTimes(xs) && forall x :: x in xs <==> x in ys
    ensures NewestOf(xs, k) == NewestOf(ys, k)
  {
    NewestIsNewest(xs, k);
    NewestIsNewest(ys, k);
  }

  // ----- what a history leaves in the tables -----

  // The tables hold bid, receive time and value of the submission, or nothing at all.
  ghost predicate Holds(r: Redis, k: BidKey, newest: Option<Submission>) {
    match newest
    case None => k !in r.bids && k !in r.times && k !in r.values
    case Some(x) =>
      && k in r.bids && r.bids[k] == BidOf(x)
      && k in r.times && r.times[k] == x.receivedAt
      && k in r.values && r.values[k] == Decimal.ToText(x.message.value)
  }

  lemma CompletionHoldsNewest(r: Redis, subs: seq<Submission>, x: Submission, r': Redis, k: BidKey)
    requires Holds(r, k, NewestOf(subs, k)) && Holds(r, BidKeyOf(x), NewestOf(subs, BidKeyOf(x))) && Completes(r, x, r')
    ensures Holds(r', k, NewestOf(subs + [x], k))
  {
    NewestAppend(subs, x, k);
    if k != BidKeyOf(x) && x.receivedAt >= LatestReceivedAt(r, BidKeyOf(x)) {
      assert k in r'.bids <==> k in r.bids;
    }
  }

  lemma NewestAppend(subs: seq<Submission>, x: Submission, k: BidKey)
    ensures NewestOf(subs + [x], k) ==
      if BidKeyOf(x) == k && (NewestOf(subs, k).None? || x.receivedAt >= NewestOf(subs, k).value.receivedAt)
      then Some(x) else NewestOf(subs, k)
  {
  }

  // Every stored bid has its value beside it.
  ghost predicate ValuesAgree(r: Redis) {
    && r.values.Keys == r.bids.Keys
    && forall k :: k in r.bids ==> r.bids[k].value > 0 && r.values[k] == Decimal.ToText(r.bids[k].value)
  }

  ghost predicate TopsAreGreatest(r: Redis) {
    && (forall a :: HasBid(r, a) ==> TopIsGreatest(r, a))
    && (forall a :: a in r.topBids ==> HasBid(r, a))
  }

  lemma SavedValuesAgree(r: Redis, x: Submission)
    requires ValuesAgree(r) && x.message.value > 0
    ensures ValuesAgree(Saved(r, x)) && HasPositiveValue(Saved(r, x), AuctionOf(x))
  {
    var saved := Saved(r, x);
    Decimal.ParseIntOfText(x.message.value);
    assert BidKeyOf(x) in saved.values && BidKeyOf(x).auction == AuctionOf(x) && ValueAt(saved, BidKeyOf(x)) > 0;
  }

  // In the submission's own auction the top bid is recomputed ...
  lemma {:induction false} OwnAuctionIsUpdated(r: Redis, x: Submission, w: Option<Pubkey>)
    requires ValuesAgree(r) && x.message.value > 0 && MayChoose(Saved(r, x), AuctionOf(x), w)
    ensures w.Some? && ValuesAgree(TopAfter(Saved(r, x), AuctionOf(x), w))
    ensures HasBid(TopAfter(Saved(r, x), AuctionOf(x), w), AuctionOf(x))
    ensures TopIsGreatest(TopAfter(Saved(r, x), AuctionOf(x), w), AuctionOf(x))
  {
    var saved, a := Saved(r, x), AuctionOf(x);
    SavedValuesAgree(r, x);
    assert BidKeyOf(x) in TopAfter(saved, a, w).bids && BidKeyOf(x).auction == a;
    var c := Auctions(saved, map[]);
    assert ValuesMatch(c, a) by {
      assert forall k :: k in saved.bids ==> k in saved.values;
    }
    assert BidKey(a, w.value) in saved.values;
    ChosenBidIsGreatest(c, a, w.value);
  }

  // ... and in every other auction nothing changes.
  lemma OtherAuctionsKeep(r: Redis, x: Submission, w: Option<Pubkey>, b: AuctionKey)
    requires b != AuctionOf(x)
    ensures SameAuction(r, TopAfter(Saved(r, x), AuctionOf(x), w), b)
  {
  }

  lemma SameAuctionSameTop(r: Redis, r': Redis, b: AuctionKey)
    requires SameAuction(r, r', b)
    ensures HasBid(r', b) <==> HasBid(r, b)
    ensures TopIsGreatest(r, b) ==> TopIsGreatest(r', b)
  {
  }

  lemma {:induction false} CompletionKeepsTops(r: Redis, x: Submission, r': Redis)
    requires TopsAreGreatest(r) && ValuesAgree(r) && Completes(r, x, r') && x.message.value > 0
    ensures TopsAreGreatest(r') && ValuesAgree(r')
  {
    if x.receivedAt >= LatestReceivedAt(r, BidKeyOf(x)) {
      var a := AuctionOf(x);
      var w :| MayChoose(Saved(r, x), a, w) && r' == TopAfter(Saved(r, x), a, w);
      OwnAuctionIsUpdated(r, x, w);
      forall b | b != a
        ensures HasBid(r', b) <==> HasBid(r, b)
        ensures b in r'.topBids <==> b in r.topBids
        ensures HasBid(r', b) ==> TopIsGreatest(r', b)
      {
        OtherAuctionsKeep(r, x, w, b);
        SameAuctionSameTop(r, r', b);
      }
    }
  }

  ghost predicate AllPositive(subs: seq<Submission>) {
    forall x :: x in subs ==> x.message.value > 0
  }

  lemma {:induction false} HistoryHoldsNewest(rs: seq<Redis>, subs: seq<Submission>)
    requires IsHistory(rs, subs)
    ensures forall k :: Holds(rs[|subs|], k, NewestOf(subs, k))
    decreases |subs|
  {
    if subs != [] {
      var n := |subs| - 1;
      assert subs == subs[..n] + [subs[n]];
      HistoryHoldsNewest(rs[..|subs|], subs[..n]);
      forall k ensures Holds(rs[|subs|], k, NewestOf(subs, k)) {
        assert Holds(rs[n], k, NewestOf(subs[..n], k));
        CompletionHoldsNewest(rs[n], subs[..n], subs[n], rs[n + 1], k);
      }
    }
  }

  lemma {:induction false} HistoryKeepsTops(rs: seq<Redis>, subs: seq<Submission>)
    requires IsHistory(rs, subs) && AllPositive(subs)
    ensures TopsAreGreatest(rs[|subs|]) && ValuesAgree(rs[|subs|])
    decreases |subs|
  {
    if subs != [] {
      var n := |subs| - 1;
      HistoryKeepsTops(rs[..|subs|], subs[..n]);
      CompletionKeepsTops(rs[n], subs[n], rs[n + 1]);
    }
  }

  // Any history leaves each builder's newest submission as its bid, and top bids that are
  // stored bids of greatest value.
  lemma HistoryLeavesNewest(rs: seq<Redis>, subs: seq<Submission>)
    requires IsHistory(rs, subs) && AllPositive(subs)
    ensures forall k :: Holds(rs[|subs|], k, NewestOf(subs, k))
    ensures TopsAreGreatest(rs[|subs|])
  {
    HistoryHoldsNewest(rs, subs);
    HistoryKeepsTops(rs, subs);
  }

  // Two orders of the same submissions end with the same bids, times and values, and with top
  // bids of the same, greatest value.
  lemma OrdersConverge(rs: seq<Redis>, xs: seq<Submission>, qs: seq<Redis>, ys: seq<Submission>)
    requires IsHistory(rs, xs) && IsHistory(qs, ys)
    requires DistinctTimes(xs) && AllPositive(xs)
    requires forall x :: x in xs <==> x in ys
    ensures
      var r, q := rs[|xs|], qs[|ys|];
      && r.bids == q.bids && r.times == q.times && r.values == q.values && r.topBids.Keys == q.topBids.Keys
      && (forall a :: a in r.topBids ==> TopIsGreatest(r, a) && TopIsGreatest(q, a) && r.topBids[a].value == q.topBids[a].value)
  {
    HistoryLeavesNewest(rs, xs);
    HistoryLeavesNewest(qs, ys);
    var r, q := rs[|xs|], qs[|ys|];
    forall k ensures Holds(r, k, NewestOf(xs, k)) && Holds(q, k, NewestOf(xs, k)) {
      NewestIgnoresOrder(xs, ys, k);
    }
    SameTables(r, q, k => NewestOf(xs, k));
    SameTops(r, q);
  }

  lemma SameTables(r: Redis, q: Redis, newest: BidKey -> Option<Submission>)
    requires forall k :: Holds(r, k, newest(k)) && Holds(q, k, newest(k))
    ensures r.bids == q.bids && r.times == q.times && r.values == q.values
  {
    forall k | k in r.bids || k in q.bids ensures k in r.bids && k in q.bids && r.bids[k] == q.bids[k] {
      assert Holds(r, k, newest(k)) && Holds(q, k, newest(k));
    }
    forall k | k in r.times || k in q.times ensures k in r.times && k in q.times && r.times[k] == q.times[k] {
      assert Holds(r, k, newest(k)) && Holds(q, k, newest(k));
    }
    forall k | k in r.values || k in q.values ensures k in r.values && k in q.values && r.values[k] == q.values[k] {
      assert Holds(r, k, newest(k)) && Holds(q, k, newest(k));
    }
  }

  lemma SameTops(r: Redis, q: Redis)
    requires r.bids == q.bids && TopsAreGreatest(r) && TopsAreGreatest(q)
    ensures r.topBids.Keys == q.topBids.Keys
    ensures forall a :: a in r.topBids ==> TopIsGreatest(r, a) && TopIsGreatest(q, a) && r.topBids[a].value == q.topBids[a].value
  {
    forall a ensures HasBid(r, a) <==> HasBid(q, a) {
    }
    forall a ensures a in r.topBids <==> a in q.topBids {
      assert HasBid(r, a) ==> TopIsGreatest(r, a);
      assert HasBid(q, a) ==> TopIsGreatest(q, a);
    }
    forall a | a in r.topBids
      ensures TopIsGreatest(r, a) && TopIsGreatest(q, a) && r.topBids[a].value == q.topBids[a].value
    {
      assert HasBid(r, a) && HasBid(q, a);
      var b :| BidKey(a, b) in r.bids && r.bids[BidKey(a, b)] == r.topBids[a];
      var d :| BidKey(a, d) in q.bids && q.bids[BidKey(a, d)] == q.topBids[a];
      assert BidKey(a, b).auction == a && BidKey(a, d).auction == a;
    }
  }

  // With equal receive times the order does matter: the submission completing last wins.
  lemma TiesGoToTheLast(rs: seq<Redis>, x: Submission, y: Submission)
    requires IsHistory(rs, [x, y]) && BidKeyOf(x) == BidKeyOf(y) && x.receivedAt == y.receivedAt
    ensures BidKeyOf(y) in rs[2].bids && rs[2].bids[BidKeyOf(y)] == BidOf(y)
  {
    HistoryHoldsNewest(rs, [x, y]);
    assert [x, y][..1] == [x];
    assert NewestOf([x, y], BidKeyOf(y)) == Some(y);
    assert Holds(rs[2], BidKeyOf(y), NewestOf([x, y], BidKeyOf(y)));
  }
}
