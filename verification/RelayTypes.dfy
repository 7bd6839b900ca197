/** Values shared by the relay's services: keys, bid traces, execution payloads, headers. */
module RelayTypes {

  datatype Option<+T> = None | Some(value: T)

  datatype Result<+T, +E> = Ok(value: T) | Err(error: E)

  // Public keys and hashes in the lower-case hex form the relay uses as map keys.
  datatype Pubkey = Pubkey(hex: string)
  datatype Hash = Hash(hex: string)

  datatype BuilderStatus = BuilderStatus(isHighPrio: bool, isBlacklisted: bool, isDemoted: bool)

  // The signed message of a builder submission.
  datatype BidTrace = BidTrace(
    slot: nat, parentHash: Hash, blockHash: Hash,
    builder: Pubkey, proposer: Pubkey, feeRecipient: Hash, value: nat)

  datatype ExecutionPayload = ExecutionPayload(
    parentHash: Hash, blockHash: Hash, timestamp: nat, random: string, transactions: seq<string>)

  // The part of a payload a proposer signs in blinded form.
  datatype PayloadHeader = PayloadHeader(parentHash: Hash, blockHash: Hash, timestamp: nat, random: string)

  // What getHeader returns: a header and the value offered for it.
  datatype Bid = Bid(header: PayloadHeader, value: nat)

  // A decoded call of submitNewBlock; `signatureOk` is the outcome of the BLS check.
  datatype Submission = Submission(
    message: BidTrace, payload: ExecutionPayload, receivedAt: nat, signatureOk: bool)

  function HeaderOf(p: ExecutionPayload): PayloadHeader {
    PayloadHeader(p.parentHash, p.blockHash, p.timestamp, p.random)
  }

  function BidOf(sub: Submission): Bid {
    Bid(HeaderOf(sub.payload), sub.message.value)
  }

  // Redis key of one auction: the bids for one slot, parent block and proposer.
  datatype AuctionKey = AuctionKey(slot: nat, parentHash: Hash, proposer: Pubkey)
  // Redis key of a stored trace or payload.
  datatype PayloadKey = PayloadKey(slot: nat, proposer: Pubkey, blockHash: Hash)
  // Field of one builder inside the hashes of one auction.
  datatype BidKey = BidKey(auction: AuctionKey, builder: Pubkey)

  function AuctionOf(sub: Submission): AuctionKey {
    AuctionKey(sub.message.slot, sub.message.parentHash, sub.message.proposer)
  }

  function BidKeyOf(sub: Submission): BidKey {
    BidKey(AuctionOf(sub), sub.message.builder)
  }

  function PayloadKeyOf(t: BidTrace): PayloadKey {
    PayloadKey(t.slot, t.proposer, t.blockHash)
  }
}
