/** rc-state/src/lib.rs: dispatch of transactions and replay of blocks. */
module StateMachine {
  import opened Types
  import opened Store
  import History
  import Replays
  import Rules
  import DisputeModule
  import EscrowModule
  import ParticipantModule
  import SettlementModule
  import TokenModule

  class StateMachine {
    const store: Store
    const config: Config
    const prims: Primitives

    constructor (store: Store, config: Config, prims: Primitives)
      ensures this.store == store && this.config == config && this.prims == prims
    {
      this.store, this.config, this.prims := store, config, prims;
    }

    method CheckAndUpdateNonce(tx: Transaction) returns (r: Result<()>)
      modifies store`nonces
      ensures r.Ok? <==> tx.nonce > old(store.Image().Nonce(tx.sender))
      ensures r.Ok? ==> store.nonces == old(store.nonces)[tx.sender := tx.nonce]
      ensures r.Err? ==> r.error == NonceTooLow && store.nonces == old(store.nonces)
    {
      var current := store.GetNonce(tx.sender);
      if tx.nonce <= current {
        return Err(NonceTooLow);
      }
      store.SetNonce(tx.sender, tx.nonce);
      r := Ok(());
    }

    method RecordAnchor(sender: Id, batchId: Id, merkleRoot: Hash, entryCount: u64, fromEntryId: u64, toEntryId: u64,
                        timestamp: i64)
      returns (r: Result<seq<Event>>)
      modifies store`anchors
      ensures var a := AnchorRecord(batchId, merkleRoot, entryCount, fromEntryId, toEntryId, timestamp);
              Rules.Outcome(store.State(), r) == Rules.Anchor(old(store.State()), sender, a, config.platformKeys)
    {
      if sender !in config.platformKeys {
        return Err(OnlyPlatformAnchors);
      }
      var existing := store.GetAnchor(batchId);
      if existing.Some? {
        return Err(AnchorExists);
      }
      store.SetAnchor(batchId, AnchorRecord(batchId, merkleRoot, entryCount, fromEntryId, toEntryId, timestamp));
      r := Ok([AnchorRecorded(batchId, merkleRoot, entryCount)]);
    }

    /** One branch per payload. */
    method Dispatch(sender: Id, payload: Payload, timestamp: i64) returns (r: Result<seq<Event>>)
      modifies store
      ensures Rules.Outcome(store.State(), r) == Rules.Perform(config, old(store.State()), sender, payload, timestamp)
      ensures store.nonces == old(store.nonces)
      ensures store.blocks == old(store.blocks) && store.latestHeight == old(store.latestHeight)
    {
      hide Rules.Register, Rules.Update, Rules.Deactivate, Rules.Settle, Rules.Rate, Rules.OpenEscrow, Rules.Release,
           Rules.Refund, Rules.Raise, Rules.AddEvidence, Rules.Vote, Rules.Transfer, Rules.Spend, Rules.Anchor,
           Rules.ParticipantsEvolve, Rules.EscrowsEvolve, Rules.Incidental, Rules.Reports, Rules.TokenFree,
           Rules.NoMilestones;
      match payload {
        case RegisterParticipant(id, pType, metadata) =>
          r := ParticipantModule.Register(store, sender, id, pType, metadata, timestamp);
        case UpdateParticipant(id, metadata) =>
          r := ParticipantModule.Update(store, sender, id, metadata, timestamp);
        case DeactivateParticipant(id) =>
          r := ParticipantModule.Deactivate(store, sender, id);
        case RecordSettlement(participantId, record) =>
          r := SettlementModule.Record(store, sender, participantId, record, timestamp, config.settlementReward);
        case RecordRating(participantId, rating, success) =>
          r := SettlementModule.RecordRating(store, participantId, rating, success, timestamp, config.ratingReward);
        case CreateEscrow(escrowId, buyer, seller, amount, expiresAt) =>
          r := EscrowModule.Create(store, sender, escrowId, buyer, seller, amount, expiresAt, timestamp);
        case ReleaseEscrow(escrowId, evidenceHash) =>
          r := EscrowModule.Release(store, sender, escrowId, evidenceHash, timestamp, config.escrowReward);
        case RefundEscrow(escrowId) =>
          r := EscrowModule.Refund(store, sender, escrowId, timestamp);
        case RaiseDispute(disputeId, escrowId, reason, evidenceHash) =>
          r := DisputeModule.Raise(store, disputeId, escrowId, sender, reason, evidenceHash, timestamp);
        case SubmitEvidence(disputeId, evidenceHash) =>
          r := DisputeModule.SubmitEvidence(store, sender, disputeId, evidenceHash);
        case VoteDispute(disputeId, decision) =>
          r := DisputeModule.Vote(store, disputeId, sender, decision, timestamp, config.disputeReward,
                                  config.voteThreshold);
        case TransferRCW(to, amount, _) =>
          r := TokenModule.Transfer(store, sender, to, amount);
        case SpendRCW(amount, purpose) =>
          r := TokenModule.Spend(store, sender, amount, purpose);
        case AnchorMerkleRoot(batchId, merkleRoot, entryCount, fromEntryId, toEntryId) =>
          r := RecordAnchor(sender, batchId, merkleRoot, entryCount, fromEntryId, toEntryId, timestamp);
      }
    }

    method Execute(tx: Transaction, timestamp: i64) returns (r: Result<seq<Event>>)
      modifies store
      ensures Rules.Executed(store.Image(), r) == Rules.Execute(config, old(store.Image()), tx, timestamp)
      ensures store.blocks == old(store.blocks) && store.latestHeight == old(store.latestHeight)
    {
      hide Rules.Perform;
      var checked := CheckAndUpdateNonce(tx);
      if checked.Err? {
        return Err(checked.error);
      }
      r := Dispatch(tx.sender, tx.payload, timestamp);
    }

    /** The block is stored exactly when the root check passes; the tables are changed in either case. What is executed
        is the list of signed transactions and nothing else, so that every nonce that changes was signed for. */
    method ApplyBlock(block: Block) returns (r: Result<seq<Event>>)
      modifies store
      ensures var replayed :=
                Rules.Replay(prims, config, old(store.Image()), block.transactions, block.header.timestamp);
              && store.Image() == replayed.ledger
              && r == if Rules.RootMatches(prims, block.header, replayed.ledger) then Ok(replayed.events)
                      else Err(StateRootMismatch)
      ensures var run := History.RunFrom(config, old(store.Image()),
                                         Replays.At(Replays.Signed(prims, block.transactions), block.header.timestamp));
              store.Image() == run.ledger && (r.Ok? ==> r.value == run.events)
      ensures forall id: Id | store.Image().Nonce(id) != old(store.Image().Nonce(id)) ::
                Replays.Backed(prims, block.transactions, id, store.Image().Nonce(id))
      ensures store.blocks == if r.Ok? then old(store.blocks)[block.header.height := block] else old(store.blocks)
      ensures store.latestHeight == if r.Ok? then Some(block.header.height) else old(store.latestHeight)
    {
      hide Rules.Execute;
      var allEvents := [];
      var txs := block.transactions;
      for i := 0 to |txs|
        invariant Rules.Replayed(store.Image(), allEvents)
               == Rules.Replay(prims, config, old(store.Image()), txs[..i], block.header.timestamp)
        invariant store.blocks == old(store.blocks) && store.latestHeight == old(store.latestHeight)
      {
        assert txs[..i + 1][..i] == txs[..i];
        if !prims.verifyTx(txs[i]) {
          continue;
        }
        var executed := Execute(txs[i], block.header.timestamp);
        if executed.Ok? {
          allEvents := allEvents + executed.value;
        }
      }
      assert txs[..|txs|] == txs;
      Replays.ReplayIsBacked(prims, config, old(store.Image()), txs, block.header.timestamp);

      var computedRoot := prims.stateRoot(store.Image());
      if block.header.stateRoot != EMPTY_HASH && computedRoot != block.header.stateRoot {
        return Err(StateRootMismatch);
      }
      store.PutBlock(block);
      r := Ok(allEvents);
    }
  }
}
