/** The Redis tables of the block auction: each write as a transition on a value, and the
    cache object whose methods perform those transitions in the source's order. */
module RedisStore {
  import opened RelayTypes
  import Decimal

  datatype Redis = Redis(
    lastDelivered: Option<nat>,               // stats field slot-last-payload-delivered
    traces: map<PayloadKey, BidTrace>,
    payloads: map<PayloadKey, ExecutionPayload>,
    bids: map<BidKey, Bid>,                   // newest bid of each builder
    times: map<BidKey, nat>,                  // and when its submission was received
    values: map<BidKey, string>,              // and its value, as decimal text
    topBids: map<AuctionKey, Bid>)

  datatype UpdateError = NoBids | MissingBid | RedisFailed

  // The calls an update of the top bid makes, any of which may fail.
  datatype TopBidCall = ReadValuesCall | ReadBidCall | WriteTopCall

  function SaveBidTrace(r: Redis, t: BidTrace): Redis {
    r.(traces := r.traces[PayloadKeyOf(t) := t])
  }

  function SaveExecutionPayload(r: Redis, k: PayloadKey, p: ExecutionPayload): Redis {
    r.(payloads := r.payloads[k := p])
  }

  // The three writes of SaveLatestBuilderBid, one by one.
  function PutBid(r: Redis, k: BidKey, bid: Bid): Redis { r.(bids := r.bids[k := bid]) }
  function PutTime(r: Redis, k: BidKey, receivedAt: nat): Redis { r.(times := r.times[k := receivedAt]) }
  function PutValue(r: Redis, k: BidKey, value: nat): Redis {
    r.(values := r.values[k := Decimal.ToText(value)])
  }

  // The first n of them.
  function SaveFirstWrites(r: Redis, k: BidKey, receivedAt: nat, bid: Bid, n: nat): Redis {
    if n == 0 then r
    else if n == 1 then PutBid(r, k, bid)
    else if n == 2 then PutTime(PutBid(r, k, bid), k, receivedAt)
    else SaveLatestBuilderBid(r, k, receivedAt, bid)
  }

  function SaveLatestBuilderBid(r: Redis, k: BidKey, receivedAt: nat, bid: Bid): Redis {
    PutValue(PutTime(PutBid(r, k, bid), k, receivedAt), k, bid.value)
  }

  function SetTopBid(r: Redis, a: AuctionKey, bid: Bid): Redis { r.(topBids := r.topBids[a := bid]) }

  function SetLastDelivered(r: Redis, slot: nat): Redis { r.(lastDelivered := Some(slot)) }

  // Receive time of the builder's newest payload; a missing entry reads as 0.
  function LatestReceivedAt(r: Redis, k: BidKey): nat {
    if k in r.times then r.times[k] else 0
  }

  // Integer read from the value table; text that is not a number never wins.
  function ValueAt(r: Redis, k: BidKey): int
    requires k in r.values
  {
    match Decimal.ParseInt(r.values[k])
    case Some(v) => v
    case None => 0
  }

  // b may win the auction: its recorded value is positive and none is greater.
  predicate IsTopBuilder(r: Redis, a: AuctionKey, b: Pubkey) {
    && BidKey(a, b) in r.values
    && ValueAt(r, BidKey(a, b)) > 0
    && forall k :: k in r.values && k.auction == a ==> ValueAt(r, k) <= ValueAt(r, BidKey(a, b))
  }

  predicate HasPositiveValue(r: Redis, a: AuctionKey) {
    exists k :: k in r.values && k.auction == a && ValueAt(r, k) > 0
  }

  // A scan of the values in any order ends with some builder of greatest positive value, or
  // without one.
  predicate MayChoose(r: Redis, a: AuctionKey, winner: Option<Pubkey>) {
    match winner
    case Some(b) => IsTopBuilder(r, a, b)
    case None => !HasPositiveValue(r, a)
  }

  // What an update of the top bid answers when the scan chose `winner` and `fault` failed.
  function TopBidAnswer(r: Redis, a: AuctionKey, winner: Option<Pubkey>, fault: Option<TopBidCall>)
    : (res: Result<Bid, UpdateError>)
    ensures res == Err(NoBids) <==> winner.None? && fault != Some(ReadValuesCall)
    ensures res == Err(MissingBid) <==>
      winner.Some? && BidKey(a, winner.value) !in r.bids && fault != Some(ReadValuesCall) && fault != Some(ReadBidCall)
    ensures res.Ok? <==> winner.Some? && BidKey(a, winner.value) in r.bids && fault == None
    ensures res == Err(RedisFailed) <==>
      || fault == Some(ReadValuesCall)
      || (winner.Some? && fault == Some(ReadBidCall))
      || (winner.Some? && BidKey(a, winner.value) in r.bids && fault == Some(WriteTopCall))
    ensures res.Ok? ==> res.value == r.bids[BidKey(a, winner.value)]
  {
    assert fault.Some? ==> fault.value.ReadValuesCall? || fault.value.ReadBidCall? || fault.value.WriteTopCall?;
    if fault == Some(ReadValuesCall) then Err(RedisFailed)
    else if winner.None? then Err(NoBids)
    else if fault == Some(ReadBidCall) then Err(RedisFailed)
    else if BidKey(a, winner.value) !in r.bids then Err(MissingBid)
    else if fault.Some? then Err(RedisFailed)
    else Ok(r.bids[BidKey(a, winner.value)])
  }

  // The value table holds a builder to choose exactly when some value is positive.
  lemma TopBuilderExists(r: Redis, a: AuctionKey)
    ensures HasPositiveValue(r, a) <==> exists b :: IsTopBuilder(r, a, b)
  {
    if HasPositiveValue(r, a) {
      var fields := set k | k in r.values && k.auction == a && ValueAt(r, k) > 0;
      var w :| w in r.values && w.auction == a && ValueAt(r, w) > 0;
      assert w in fields;
      var k := LargestField(r, fields);
      assert k == BidKey(a, k.builder);
      assert IsTopBuilder(r, a, k.builder);
    }
    if b :| IsTopBuilder(r, a, b) {
      assert BidKey(a, b) in r.values;
    }
  }

  lemma {:induction false} LargestField(r: Redis, fields: set<BidKey>) returns (k: BidKey)
    requires fields != {} && forall f :: f in fields ==> f in r.values
    ensures k in fields && forall f :: f in fields ==> ValueAt(r, f) <= ValueAt(r, k)
    decreases |fields|
  {
    var f :| f in fields;
    if fields == {f} {
      k := f;
    } else {
      var rest := fields - {f};
      assert fields == rest + {f} && rest != {};
      k := LargestField(r, rest);
      if ValueAt(r, f) > ValueAt(r, k) { k := f; }
    }
  }

  // The largest positive value among the fields seen so far, and a field that has it.
  ghost predicate IsLargestSeen(r: Redis, seen: set<BidKey>, top: Option<BidKey>, topValue: int)
  {
    && (forall k :: k in seen ==> k in r.values && ValueAt(r, k) <= topValue)
    && (if top.Some? then top.value in seen && ValueAt(r, top.value) == topValue > 0 else topValue == 0)
  }

  lemma ScanIsChoice(r: Redis, a: AuctionKey, fields: set<BidKey>, top: Option<BidKey>, topValue: int)
    requires forall k :: k in fields <==> k in r.values && k.auction == a
    requires IsLargestSeen(r, fields, top, topValue)
    ensures MayChoose(r, a, if top.Some? then Some(top.value.builder) else None)
    ensures top.Some? ==> top.value.auction == a
  {
    if top.Some? {
      assert top.value == BidKey(a, top.value.builder);
    }
  }

  class RedisCache {
    var lastDelivered: Option<nat>
    var traces: map<PayloadKey, BidTrace>
    var payloads: map<PayloadKey, ExecutionPayload>
    var bids: map<BidKey, Bid>
    var times: map<BidKey, nat>
    var values: map<BidKey, string>
    var topBids: map<AuctionKey, Bid>

    function State(): Redis
      reads this
    {
      Redis(lastDelivered, traces, payloads, bids, times, values, topBids)
    }

    constructor ()
      ensures State() == Redis(None, map[], map[], map[], map[], map[], map[])
    {
      lastDelivered := None;
      traces, payloads, bids, times, values, topBids := map[], map[], map[], map[], map[], map[];
    }

    method SaveTrace(t: BidTrace, fails: bool) returns (ok: bool)
      modifies this
      ensures ok <==> !fails
      ensures State() == if fails then old(State()) else SaveBidTrace(old(State()), t)
      ensures traces == if fails then old(traces) else old(traces)[PayloadKey(t.slot, t.proposer, t.blockHash) := t]
    {
      if fails {
        return false;
      }
      traces := traces[PayloadKeyOf(t) := t];
      return true;
    }

    method SavePayload(k: PayloadKey, p: ExecutionPayload, fails: bool) returns (ok: bool)
      modifies this
      ensures ok <==> !fails
      ensures State() == if fails then old(State()) else SaveExecutionPayload(old(State()), k, p)
      ensures payloads == if fails then old(payloads) else old(payloads)[k := p]
    {
      if fails {
        return false;
      }
      payloads := payloads[k := p];
      return true;
    }

    // With a fault, an error is returned after so many of the three writes have taken effect.
    method SaveLatestBid(k: BidKey, receivedAt: nat, bid: Bid, fault: Option<nat>) returns (ok: bool)
      modifies this
      ensures ok <==> fault == None
      ensures State() == SaveFirstWrites(old(State()), k, receivedAt, bid, if fault.Some? then fault.value else 3)
      ensures bids == if fault == Some(0) then old(bids) else old(bids)[k := bid]
      ensures times == if fault in {Some(0), Some(1)} then old(times) else old(times)[k := receivedAt]
      ensures values == if fault in {Some(0), Some(1), Some(2)} then old(values) else old(values)[k := Decimal.ToText(bid.value)]
    {
      if fault == Some(0) {
        return false;
      }
      bids := bids[k := bid];
      if fault == Some(1) {
        return false;
      }
      times := times[k := receivedAt];
      if fault == Some(2) {
        return false;
      }
      // the value goes last: it is what the top-bid computation iterates over
      values := values[k := Decimal.ToText(bid.value)];
      return fault == None;
    }

    method SetStatsLastDelivered(slot: nat)
      modifies this
      ensures State() == SetLastDelivered(old(State()), slot) && lastDelivered == Some(slot)
    {
      lastDelivered := Some(slot);
    }

    // Recompute the top bid of one auction by scanning its values in any order.
    method UpdateTopBid(a: AuctionKey, fault: Option<TopBidCall>) returns (res: Result<Bid, UpdateError>, ghost winner: Option<Pubkey>)
      modifies this
      ensures MayChoose(old(State()), a, winner)
      ensures res == TopBidAnswer(old(State()), a, winner, fault)
      ensures State() == if res.Ok? then SetTopBid(old(State()), a, res.value) else old(State())
      ensures topBids == if res.Ok? then old(topBids)[a := res.value] else old(topBids)
    {
      var top := ScanValues(a);
      winner := if top.Some? then Some(top.value.builder) else None;
      if fault == Some(ReadValuesCall) {
        return Err(RedisFailed), winner;
      }
      if top == None {
        return Err(NoBids), winner;
      }
      if fault == Some(ReadBidCall) {
        return Err(RedisFailed), winner;
      }
      if top.value !in bids {
        return Err(MissingBid), winner;
      }
      if fault.Some? {
        return Err(RedisFailed), winner;
      }
      topBids := topBids[a := bids[top.value]];
      return Ok(bids[top.value]), winner;
    }

    method ScanValues(a: AuctionKey) returns (top: Option<BidKey>)
      ensures MayChoose(State(), a, if top.Some? then Some(top.value.builder) else None)
      ensures top.Some? ==> top.value.auction == a
    {
      var topValue: int := 0;
      top := None;
      var fields := set k | k in values.Keys && k.auction == a;
      var todo := fields;
      while todo != {}
        invariant todo <= fields && topValue >= 0
        invariant IsLargestSeen(State(), fields - todo, top, topValue)
        decreases |todo|
      {
        var k :| k in todo;
        ghost var seen := fields - todo;
        todo := todo - {k};
        assert fields - todo == seen + {k};
        var parsed := Decimal.ParseInt(values[k]);
        var val := if parsed.Some? then parsed.value else 0;
        assert val == ValueAt(State(), k);
        if val > topValue {
          topValue, top := val, Some(k);
        }
      }
      assert fields - todo == fields;
      ScanIsChoice(State(), a, fields, top, topValue);
    }

    // A missing key is not an error: it reads as "no bid", "no payload" or "no trace".
    method GetBestBid(a: AuctionKey) returns (bid: Option<Bid>)
      ensures bid == if a in State().topBids then Some(State().topBids[a]) else None
    {
      bid := if a in topBids then Some(topBids[a]) else None;
    }
  }
}
