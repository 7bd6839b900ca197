/** Quiescent agreement, auction by auction: with the bid, time and value writes of different
    builders interleaved and the top-bid update uninterrupted, the top bid is the greatest
    stored bid whenever no save of the auction is pending. */
module AuctionAgreement {
  import opened RelayTypes
  import opened RedisStore
  import opened RelayMachine
  import opened AuctionSafety
  import Decimal

  // The bid is written, the top bid not yet recomputed.
  predicate MidSave(pc: Pc) { pc.SaveTime? || pc.SaveValue? || pc.ReadValues? }

  // The bid is written, its value not yet.
  predicate ValueLags(pc: Pc) { pc.SaveTime? || pc.SaveValue? }

  // No builder has two saves in progress in the auction.
  ghost predicate OneSavePerBuilder(requests: map<nat, Request>, a: AuctionKey) {
    forall i, j ::
      (i in requests && j in requests && i != j && MidSave(requests[i].pc) && MidSave(requests[j].pc)) ==>
        !(AuctionOf(requests[i].sub) == a && BidKeyOf(requests[i].sub) == BidKeyOf(requests[j].sub))
  }

  ghost predicate SingleIn(r: Run, a: AuctionKey)
    requires IsRun(r)
  {
    OneSavePerBuilder(Last(r).requests, a) && (r.Extend? ==> SingleIn(r.prev, a))
  }

  // The auction's top bid is updated without interruption.
  ghost predicate UninterruptedIn(r: Run, a: AuctionKey)
    requires IsRun(r)
  {
    r.Extend? ==>
      UninterruptedIn(r.prev, a) && (r.event.ChooseTop? ==> AuctionOf(Last(r.prev).requests[r.event.id].sub) != a)
  }

  // No Redis operation fails between a bid of the auction and the top-bid update after it;
  // failures anywhere else are allowed.
  ghost predicate CleanIn(r: Run, a: AuctionKey)
    requires IsRun(r)
  {
    r.Extend? ==>
      && CleanIn(r.prev, a)
      && (r.event.RedisError? ==>
           var q := Last(r.prev).requests[r.event.id];
           AuctionOf(q.sub) == a ==> !MidSave(q.pc))
  }

  ghost predicate OrderlyIn(r: Run, a: AuctionKey)
    requires IsRun(r)
  {
    SingleIn(r, a) && UninterruptedIn(r, a) && CleanIn(r, a)
  }

  ghost predicate Lagging(c: Auctions, k: BidKey) {
    exists id :: id in c.requests && ValueLags(c.requests[id].pc) && BidKeyOf(c.requests[id].sub) == k
  }

  ghost predicate Pending(c: Auctions, a: AuctionKey) {
    exists id :: id in c.requests && MidSave(c.requests[id].pc) && AuctionOf(c.requests[id].sub) == a
  }

  ghost predicate HasBid(r: Redis, a: AuctionKey) {
    exists k :: k in r.bids && k.auction == a
  }

  // The top bid is one of the stored bids, and none is greater.
  ghost predicate TopIsGreatest(r: Redis, a: AuctionKey) {
    && a in r.topBids
    && (exists b :: BidKey(a, b) in r.bids && r.bids[BidKey(a, b)] == r.topBids[a])
    && (forall k :: k in r.bids && k.auction == a ==> r.bids[k].value <= r.topBids[a].value)
  }

  // Every request of the auction finds its own bid in the tables while it saves.
  ghost predicate OwnBidStands(c: Auctions, a: AuctionKey) {
    forall id :: id in c.requests && AuctionOf(c.requests[id].sub) == a ==>
      && !c.requests[id].pc.ReadBid? && !c.requests[id].pc.WriteTop?
      && (MidSave(c.requests[id].pc) ==>
           var k := BidKeyOf(c.requests[id].sub);
           k in c.redis.bids && c.redis.bids[k] == BidOf(c.requests[id].sub))
  }

  ghost predicate ValuesMatch(c: Auctions, a: AuctionKey) {
    forall k :: k in c.redis.bids && k.auction == a && !Lagging(c, k) ==>
      k in c.redis.values && c.redis.values[k] == Decimal.ToText(c.redis.bids[k].value)
  }

  ghost predicate TopMatches(c: Auctions, a: AuctionKey) {
    HasBid(c.redis, a) && !Pending(c, a) ==> TopIsGreatest(c.redis, a)
  }

  // The move touches one request, and keeps its submission.
  ghost predicate OnlyMoves(c: Auctions, id: nat, c': Auctions) {
    && id in c.requests && c'.requests.Keys == c.requests.Keys
    && c'.requests[id].sub == c.requests[id].sub
    && forall i :: i in c.requests && i != id ==> c'.requests[i] == c.requests[i]
  }

  // Lagging changes only with the mover itself.
  lemma LaggingAfter(c: Auctions, id: nat, c': Auctions, k: BidKey)
    requires OnlyMoves(c, id, c')
    requires BidKeyOf(c.requests[id].sub) != k || ValueLags(c.requests[id].pc) == ValueLags(c'.requests[id].pc)
    ensures Lagging(c', k) <==> Lagging(c, k)
  {
  }

  lemma PendingAfter(c: Auctions, id: nat, c': Auctions, a: AuctionKey)
    requires OnlyMoves(c, id, c')
    requires AuctionOf(c.requests[id].sub) != a || MidSave(c.requests[id].pc) == MidSave(c'.requests[id].pc)
    ensures Pending(c', a) <==> Pending(c, a)
  {
  }

  ghost predicate Agreed(c: Auctions, a: AuctionKey) { OwnBidStands(c, a) && ValuesMatch(c, a) && TopMatches(c, a) }

  // The writes of one submission to the auction, from the check for newer payloads to its value.
  lemma AdvanceKeepsOwnBids(c: Auctions, id: nat, c': Auctions, a: AuctionKey)
    requires OwnBidStands(c, a) && OneSavePerBuilder(c'.requests, a) && AuctionMoves(c, Advance(id), c')
    requires AuctionOf(c.requests[id].sub) == a
    ensures OwnBidStands(c', a)
  {
    forall i | i in c'.requests && AuctionOf(c'.requests[i].sub) == a && MidSave(c'.requests[i].pc)
      ensures BidKeyOf(c'.requests[i].sub) in c'.redis.bids
      ensures c'.redis.bids[BidKeyOf(c'.requests[i].sub)] == BidOf(c'.requests[i].sub)
    {
      if i != id && c.requests[id].pc == SaveBid {
        assert MidSave(c'.requests[id].pc);
        assert BidKeyOf(c'.requests[i].sub) != BidKeyOf(c'.requests[id].sub);
      }
    }
  }

  lemma AdvanceKeepsValuesMatching(c: Auctions, id: nat, c': Auctions, a: AuctionKey)
    requires OwnBidStands(c, a) && ValuesMatch(c, a) && AuctionMoves(c, Advance(id), c')
    requires AuctionOf(c.requests[id].sub) == a
    ensures ValuesMatch(c', a)
  {
    var q := c.requests[id];
    assert OnlyMoves(c, id, c') && !q.pc.ReadBid? && !q.pc.WriteTop?;
    forall k | k in c'.redis.bids && k.auction == a && !Lagging(c', k)
      ensures k in c'.redis.values && c'.redis.values[k] == Decimal.ToText(c'.redis.bids[k].value)
    {
      if k != BidKeyOf(q.sub) || !(q.pc.SaveBid? || ValueLags(q.pc)) {
        LaggingAfter(c, id, c', k);
        assert k in c.redis.bids && !Lagging(c, k);
      } else {
        assert !ValueLags(c'.requests[id].pc);
      }
    }
  }

  lemma AdvanceKeepsTopMatching(c: Auctions, id: nat, c': Auctions, a: AuctionKey)
    requires OwnBidStands(c, a) && TopMatches(c, a) && AuctionMoves(c, Advance(id), c')
    requires AuctionOf(c.requests[id].sub) == a
    ensures TopMatches(c', a)
  {
    var q := c.requests[id];
    assert OnlyMoves(c, id, c') && !q.pc.ReadBid? && !q.pc.WriteTop?;
    if HasBid(c'.redis, a) && !Pending(c', a) {
      assert !MidSave(c'.requests[id].pc);
      PendingAfter(c, id, c', a);
      var k :| k in c'.redis.bids && k.auction == a;
      assert k in c.redis.bids;
      BidsOfOthers(c.redis, c'.redis, a);
    }
  }

  lemma BidsOfOthers(r: Redis, r': Redis, a: AuctionKey)
    requires TopIsGreatest(r, a) && a in r'.topBids && r'.topBids[a] == r.topBids[a]
    requires forall k: BidKey :: k.auction == a ==> (k in r.bids <==> k in r'.bids)
    requires forall k: BidKey :: k.auction == a && k in r.bids ==> r'.bids[k] == r.bids[k]
    ensures TopIsGreatest(r', a)
  {
  }

  // The builder chosen by value has the greatest bid once all values are written.
  lemma ChosenBidIsGreatest(c: Auctions, a: AuctionKey, b: Pubkey)
    requires ValuesMatch(c, a) && IsTopBuilder(c.redis, a, b) && BidKey(a, b) in c.redis.bids
    requires forall k :: k in c.redis.bids && k.auction == a ==> !Lagging(c, k)
    ensures TopIsGreatest(TopAfter(c.redis, a, Some(b)), a)
  {
    var r := c.redis;
    forall k | k in r.bids && k.auction == a ensures ValueAt(r, k) == r.bids[k].value {
      Decimal.ParseIntOfText(r.bids[k].value);
    }
    var r' := TopAfter(r, a, Some(b));
    assert r'.bids[BidKey(a, b)] == r'.topBids[a];
  }

  lemma UpdateKeepsValuesMatching(c: Auctions, id: nat, w: Option<Pubkey>, c': Auctions, a: AuctionKey)
    requires OwnBidStands(c, a) && ValuesMatch(c, a) && AuctionMoves(c, UpdateTop(id, w), c')
    ensures OwnBidStands(c', a) && ValuesMatch(c', a)
  {
    assert OnlyMoves(c, id, c');
    forall k ensures Lagging(c', k) <==> Lagging(c, k) {
      LaggingAfter(c, id, c', k);
    }
  }

  // A lagging value would be a pending save of its auction.
  lemma QuietAuctionHasNoLag(c: Auctions, a: AuctionKey, k: BidKey)
    requires !Pending(c, a) && k.auction == a
    ensures !Lagging(c, k)
  {
  }

  lemma UpdateKeepsTopMatching(c: Auctions, id: nat, w: Option<Pubkey>, c': Auctions, a: AuctionKey)
    requires Agreed(c, a) && ValuesOk(c.redis) && AuctionMoves(c, UpdateTop(id, w), c')
    requires AuctionOf(c.requests[id].sub) == a && Progress(c.redis, c.requests[id].sub, ReadValues)
    ensures TopMatches(c', a)
  {
    var own := BidKeyOf(c.requests[id].sub);
    assert HasPositiveValue(c.redis, a) by { assert own in c.redis.values && own.auction == a; }
    assert OnlyMoves(c, id, c');
    if HasBid(c'.redis, a) && !Pending(c', a) {
      forall k: BidKey | k.auction == a ensures !Lagging(c, k) {
        QuietAuctionHasNoLag(c', a, k);
        LaggingAfter(c, id, c', k);
      }
      ChosenBidIsGreatest(c, a, w.value);
    }
  }

  // The auction's tables stay as they are; so do its saves in progress, while its other
  // requests come, change and go freely.
  ghost predicate BystandersMove(c: Auctions, c': Auctions, a: AuctionKey) {
    && SameAuction(c.redis, c'.redis, a)
    && (forall i :: i in c.requests && AuctionOf(c.requests[i].sub) == a && MidSave(c.requests[i].pc) ==>
         i in c'.requests && c'.requests[i] == c.requests[i])
    && (forall i :: i in c'.requests && AuctionOf(c'.requests[i].sub) == a ==>
         (i in c.requests && c'.requests[i] == c.requests[i])
         || !(MidSave(c'.requests[i].pc) || c'.requests[i].pc.ReadBid? || c'.requests[i].pc.WriteTop?))
  }

  ghost predicate SameAuction(r: Redis, r': Redis, a: AuctionKey) {
    && (forall k: BidKey :: k.auction == a ==> (k in r.bids <==> k in r'.bids))
    && (forall k: BidKey :: k.auction == a && k in r.bids ==> r'.bids[k] == r.bids[k])
    && (forall k: BidKey :: k.auction == a && k in r.values ==> k in r'.values && r'.values[k] == r.values[k])
    && (a in r'.topBids <==> a in r.topBids)
    && (a in r.topBids ==> r'.topBids[a] == r.topBids[a])
  }

  lemma BystandersKeepLagging(c: Auctions, c': Auctions, a: AuctionKey, k: BidKey)
    requires BystandersMove(c, c', a) && k.auction == a
    ensures Lagging(c', k) <==> Lagging(c, k)
  {
    if i :| i in c.requests && ValueLags(c.requests[i].pc) && BidKeyOf(c.requests[i].sub) == k {
      assert i in c'.requests && ValueLags(c'.requests[i].pc) && BidKeyOf(c'.requests[i].sub) == k;
    }
  }

  lemma BystandersKeepPending(c: Auctions, c': Auctions, a: AuctionKey)
    requires BystandersMove(c, c', a)
    ensures Pending(c', a) <==> Pending(c, a)
  {
    if i :| i in c.requests && MidSave(c.requests[i].pc) && AuctionOf(c.requests[i].sub) == a {
      assert i in c'.requests && MidSave(c'.requests[i].pc) && AuctionOf(c'.requests[i].sub) == a;
    }
  }

  lemma BystandersKeepAgreement(c: Auctions, c': Auctions, a: AuctionKey)
    requires Agreed(c, a) && BystandersMove(c, c', a)
    ensures Agreed(c', a)
  {
    forall k: BidKey | k.auction == a ensures Lagging(c', k) <==> Lagging(c, k) {
      BystandersKeepLagging(c, c', a, k);
    }
    BystandersKeepPending(c, c', a);
    if HasBid(c'.redis, a) && !Pending(c', a) {
      var k :| k in c'.redis.bids && k.auction == a;
      assert k in c.redis.bids;
      BidsOfOthers(c.redis, c'.redis, a);
    }
  }

  lemma AdvanceSparesOthers(r: Redis, sub: Submission, pc: Pc, a: AuctionKey)
    requires AuctionOf(sub) != a
    ensures SameAuction(r, AdvanceRedis(r, sub, pc), a)
  {
    AdvanceTouches(r, sub, pc);
    assert BidKeyOf(sub).auction != a;
  }

  lemma UpdateSparesOthers(r: Redis, b: AuctionKey, w: Option<Pubkey>, a: AuctionKey)
    requires b != a
    ensures SameAuction(r, TopAfter(r, b, w), a)
  {
  }

  // The operations of requests of other auctions touch nothing of this one.
  lemma ForeignMoveIsBystanding(c: Auctions, e: Event, c': Auctions, a: AuctionKey)
    requires AuctionMoves(c, e, c') && (e.Advance? || e.UpdateTop? || e.ChooseTop? || e.RedisError?)
    requires AuctionOf(c.requests[e.id].sub) != a
    ensures BystandersMove(c, c', a)
  {
    var q := c.requests[e.id];
    if e.Advance? {
      AdvanceSparesOthers(c.redis, q.sub, q.pc, a);
    } else if e.UpdateTop? {
      UpdateSparesOthers(c.redis, AuctionOf(q.sub), e.winner, a);
    }
  }

  lemma OtherMovesAreBystanding(c: Auctions, e: Event, c': Auctions, a: AuctionKey)
    requires AuctionMoves(c, e, c') && !e.Advance? && !e.UpdateTop? && !e.ChooseTop?
    requires e.Finish? ==> e.id in c.requests && c.requests[e.id].pc.Finishing?
    requires e.RedisError? ==> !MidSave(c.requests[e.id].pc)
    ensures BystandersMove(c, c', a)
  {
  }

  // One step of the auction itself.
  lemma OwnMoveKeepsAgreement(c: Auctions, e: Event, c': Auctions, a: AuctionKey)
    requires AuctionMoves(c, e, c') && Agreed(c, a) && OneSavePerBuilder(c'.requests, a)
    requires StoreOk(c.redis) && AllProgress(c)
    requires (e.Advance? || e.UpdateTop?) && AuctionOf(c.requests[e.id].sub) == a
    ensures Agreed(c', a)
  {
    if e.Advance? {
      AdvanceKeepsOwnBids(c, e.id, c', a);
      AdvanceKeepsValuesMatching(c, e.id, c', a);
      AdvanceKeepsTopMatching(c, e.id, c', a);
    } else {
      UpdateKeepsValuesMatching(c, e.id, e.winner, c', a);
      UpdateKeepsTopMatching(c, e.id, e.winner, c', a);
    }
  }

  lemma {:induction false} OrderlyRunsAgree(r: Run, a: AuctionKey)
    requires IsRun(r) && OrderlyIn(r, a)
    ensures Agreed(AuctionsOf(Last(r)), a)
  {
    if r.Extend? {
      var c, e, c' := AuctionsOf(Last(r.prev)), r.event, AuctionsOf(Last(r));
      OrderlyRunsAgree(r.prev, a);
      StepMovesAuction(Last(r.prev), e);
      RunKeepsStore(r.prev);
      if !(e.Advance? || e.UpdateTop? || e.ChooseTop? || e.RedisError?) {
        OtherMovesAreBystanding(c, e, c', a);
        BystandersKeepAgreement(c, c', a);
      } else if AuctionOf(c.requests[e.id].sub) != a {
        ForeignMoveIsBystanding(c, e, c', a);
        BystandersKeepAgreement(c, c', a);
      } else if e.RedisError? {
        OtherMovesAreBystanding(c, e, c', a);
        BystandersKeepAgreement(c, c', a);
      } else {
        OwnMoveKeepsAgreement(c, e, c', a);
      }
    }
  }

  // Whenever no save of the auction is pending, its top bid is a stored bid of greatest value,
  // whatever goes wrong in other auctions or before a bid is written.
  lemma {:induction false} QuiescentAgreement(r: Run, a: AuctionKey)
    requires IsRun(r) && OrderlyIn(r, a)
    requires HasBid(Last(r).redis, a) && !Pending(AuctionsOf(Last(r)), a)
    ensures TopIsGreatest(Last(r).redis, a)
  {
    OrderlyRunsAgree(r, a);
  }
}
