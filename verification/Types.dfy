/** Machine integers, identifiers and the records, payloads, events and blocks of rc-types. */
module Types {

  // ── Machine integers ──

  const U32_LIMIT: nat := 0x1_0000_0000
  const U64_LIMIT: nat := 0x1_0000_0000_0000_0000
  const MAX_U64: u64 := U64_LIMIT - 1
  const I64_LIMIT: int := 0x8000_0000_0000_0000

  type u8 = x: nat | x < 0x100
  type u16 = x: nat | x < 0x1_0000
  type u32 = x: nat | x < U32_LIMIT
  type u64 = x: nat | x < U64_LIMIT
  type i64 = x: int | -I64_LIMIT <= x < I64_LIMIT

  /** `saturating_add` on u64. */
  function SatAdd(a: u64, b: u64): u64 {
    if a + b < U64_LIMIT then a + b else MAX_U64
  }

  /** `saturating_sub` on u64. */
  function SatSub(a: u64, b: u64): u64 {
    if b <= a then a - b else 0
  }

  /** `+` on u64 in a release build, where overflow wraps. */
  function WrapAdd(a: u64, b: u64): u64 {
    if a + b < U64_LIMIT then a + b else a + b - U64_LIMIT
  }

  /** `-` on u64 in a release build, where underflow wraps. */
  function WrapSub(a: u64, b: u64): u64 {
    if b <= a then a - b else a + U64_LIMIT - b
  }

  function Min(a: nat, b: nat): nat {
    if a < b then a else b
  }

  function Max(a: nat, b: nat): nat {
    if a < b then b else a
  }

  // ── Identifiers and hashes: 32 bytes, read as one big-endian number ──

  const ID_LIMIT: nat := 0x1_0000000000000000_0000000000000000_0000000000000000_0000000000000000

  type Id = x: nat | x < ID_LIMIT
  type Hash = Id

  const EMPTY_HASH: Hash := 0

  /** UTF-8 text; no string is 2^64 bytes long. */
  type Text = s: seq<u8> | |s| < U64_LIMIT

  datatype Option<+T> = None | Some(value: T)

  function Lookup<K, V>(m: map<K, V>, key: K): Option<V> {
    if key in m then Some(m[key]) else None
  }

  datatype Result<+T> = Ok(value: T) | Err(error: Error)

  datatype Error =
    | NonceTooLow
    | SenderIsNotParticipant
    | ParticipantExists
    | ParticipantNotFound
    | OnlyBuyerCreates
    | EscrowExists
    | BuyerNotFound
    | SellerNotFound
    | EscrowNotFound
    | OnlyBuyerReleases
    | NotReleasable
    | EscrowExpired
    | OnlyBuyerRefunds
    | NotRefundable
    | OnlyPartiesDispute
    | EscrowSettled
    | DisputeNotFound
    | OnlyPartiesSubmitEvidence
    | NotInEvidencePhase
    | VoterNotFound
    | OnlyArbitersVote
    | NotInVotingPhase
    | AlreadyVoted
    | AmountIsZero
    | InsufficientBalance
    | OnlyPlatformAnchors
    | AnchorExists
    | StateRootMismatch

  // ── Enumerations ──

  datatype ParticipantType =
    | Seller | Buyer | Author | ContentWork | Franchisee | Investor | Host | Influencer | Brand | Agency
    | ServiceProvider | BuyerAgent | SellerAgent | MatchingAgent | Arbiter
  {
    function Code(): u8 {
      match this
      case Seller => 1
      case Buyer => 2
      case Author => 10
      case ContentWork => 11
      case Franchisee => 20
      case Investor => 21
      case Host => 22
      case Influencer => 30
      case Brand => 31
      case Agency => 32
      case ServiceProvider => 40
      case BuyerAgent => 50
      case SellerAgent => 51
      case MatchingAgent => 52
      case Arbiter => 54
    }
  }

  datatype DisputeReason = NotDelivered | Damaged | NotAsDescribed | Unauthorized | Other {
    function Code(): u8 {
      match this
      case NotDelivered => 0
      case Damaged => 1
      case NotAsDescribed => 2
      case Unauthorized => 3
      case Other => 99
    }
  }

  datatype DisputeDecision = FavorBuyer | FavorSeller | Split {
    function Code(): u8 {
      match this
      case FavorBuyer => 0
      case FavorSeller => 1
      case Split => 2
    }
  }

  datatype EscrowState = Created | Funded | Released | Refunded | Disputed

  datatype DisputeState = Raised | Evidence | Voting | Resolved

  // ── Records kept on chain ──

  datatype Participant = Participant(
    id: Id, pType: u8, metadata: Text,
    totalTx: u64, successTx: u64, disputeCount: u64, disputeWon: u64,
    ratingSum: u64, ratingCount: u64, totalVolume: u64, totalSettled: u64,
    registeredAt: i64, lastActivityAt: i64, isActive: bool)

  datatype Balance = Balance(owner: Id, earned: u64, purchased: u64) {
    /** `RCWBalance::total`, an unchecked addition. */
    function Total(): u64 {
      WrapAdd(earned, purchased)
    }
  }

  datatype Escrow = Escrow(
    id: Id, buyer: Id, seller: Id, amount: u64, state: EscrowState,
    createdAt: i64, expiresAt: i64, evidenceHash: Option<Hash>, disputeId: Option<Id>)

  datatype DisputeVote = DisputeVote(voter: Id, decision: u8, votedAt: i64)

  datatype Dispute = Dispute(
    id: Id, escrowId: Id, raisedBy: Id, reason: u8, evidenceHashes: seq<Hash>, votes: seq<DisputeVote>,
    state: DisputeState, resolution: Option<u8>, raisedAt: i64, resolvedAt: Option<i64>)
  {
    /** No vector is 2^64 elements long. */
    predicate Fits() {
      |evidenceHashes| < U64_LIMIT && |votes| < U64_LIMIT
    }
  }

  datatype SettlementRecord = SettlementRecord(
    recordId: Id, participantId: Id, grossAmount: u64, platformFee: u64, netAmount: u64,
    currency: u32, settledAt: i64, recordedAt: i64)

  datatype AnchorRecord = AnchorRecord(
    batchId: Id, merkleRoot: Hash, entryCount: u64, fromEntryId: u64, toEntryId: u64, anchoredAt: i64)

  // ── Transactions ──

  datatype SettlementData = SettlementData(
    recordId: Id, grossAmount: u64, platformFee: u64, netAmount: u64, currency: u32, settledAt: i64)

  datatype Payload =
    | RegisterParticipant(id: Id, pType: ParticipantType, metadata: Text)
    | UpdateParticipant(id: Id, metadata: Text)
    | DeactivateParticipant(id: Id)
    | RecordSettlement(participantId: Id, record: SettlementData)
    | RecordRating(participantId: Id, rating: u16, success: bool)
    | CreateEscrow(escrowId: Id, buyer: Id, seller: Id, amount: u64, expiresAt: i64)
    | ReleaseEscrow(escrowId: Id, evidenceHash: Hash)
    | RefundEscrow(escrowId: Id)
    | RaiseDispute(disputeId: Id, escrowId: Id, reason: DisputeReason, evidenceHash: Hash)
    | SubmitEvidence(disputeId: Id, evidenceHash: Hash)
    | VoteDispute(disputeId: Id, decision: DisputeDecision)
    | TransferRCW(to: Id, amount: u64, memo: Text)
    | SpendRCW(amount: u64, purpose: Text)
    | AnchorMerkleRoot(batchId: Id, merkleRoot: Hash, entryCount: u64, fromEntryId: u64, toEntryId: u64)

  /** An Ed25519 signature: 64 bytes that only `Primitives` can interpret. */
  type Signature = nat

  datatype Transaction = Transaction(payload: Payload, sender: Id, signature: Signature, timestamp: i64, nonce: u64)

  datatype Event =
    | ParticipantRegistered(id: Id, pType: u8)
    | ParticipantUpdated(id: Id)
    | ParticipantDeactivated(id: Id)
    | SettlementRecorded(participantId: Id, recordId: Id)
    | RatingRecorded(participantId: Id, newScore: u16)
    | EscrowCreated(escrowId: Id, buyer: Id, seller: Id, amount: u64)
    | EscrowReleased(escrowId: Id)
    | EscrowRefunded(escrowId: Id)
    | DisputeRaised(disputeId: Id, escrowId: Id)
    | DisputeResolved(disputeId: Id, decision: u8)
    | RCWMinted(to: Id, amount: u64, reason: string)
    | RCWTransferred(from: Id, to: Id, amount: u64)
    | RCWSpent(from: Id, amount: u64, purpose: Text)
    | AnchorRecorded(batchId: Id, merkleRoot: Hash, entryCount: u64)

  // ── Configuration ──

  datatype Config = Config(
    settlementReward: u64, escrowReward: u64, ratingReward: u64, disputeReward: u64,
    voteThreshold: u64, platformKeys: seq<Id>)

  // ── Blocks ──

  datatype BlockHeader = BlockHeader(
    height: u64, prevHash: Hash, timestamp: i64, txCount: u32, txHash: Hash, stateRoot: Hash, proposer: Id)

  datatype NodeSignature = NodeSignature(nodeId: Id, signature: Signature)

  datatype Block = Block(header: BlockHeader, transactions: seq<Transaction>, signatures: seq<NodeSignature>)

  // ── State tables ──

  /** The six tables that payloads read and write. */
  datatype Tables = Tables(
    participants: map<Id, Participant>,
    settlements: map<Id, SettlementRecord>,
    balances: map<Id, Balance>,
    escrows: map<Id, Escrow>,
    disputes: map<Id, Dispute>,
    anchors: map<Id, AnchorRecord>)

  /** All seven tables under the state root. */
  datatype Ledger = Ledger(tables: Tables, nonces: map<Id, u64>) {
    /** `Store::get_nonce`: an absent nonce reads as 0. */
    function Nonce(id: Id): u64 {
      if id in nonces then nonces[id] else 0
    }

    ghost predicate Fits() {
      forall id | id in tables.disputes :: tables.disputes[id].Fits()
    }
  }

  // ── Cryptography and hashing, known only by their results ──

  /** Ed25519 (section 5.1 of RFC 8032) and blake3 applied to serialized values. A private key is 32 bytes too. */
  datatype Primitives = Primitives(
    verifyTx: Transaction -> bool,
    sign: (BlockHeader, Id) -> Signature,
    verify: (BlockHeader, Signature, Id) -> bool,
    hashHeader: BlockHeader -> Hash,
    hashTxs: seq<Transaction> -> Hash,
    stateRoot: Ledger -> Hash)
  {
    /** `compute_tx_hash`. */
    function TxHash(txs: seq<Transaction>): Hash {
      if txs == [] then EMPTY_HASH else hashTxs(txs)
    }
  }
}
