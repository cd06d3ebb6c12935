/** rc-state/src/modules/token.rs */
module TokenModule {
  import opened Types
  import opened Store
  import Rules

  method Mint(store: Store, to: Id, amount: u64, reason: string) returns (events: seq<Event>)
    modifies store`balances
    ensures store.balances == Rules.Credited(old(store.balances), to, amount)
    ensures events == [RCWMinted(to, amount, reason)]
  {
    var balance := store.GetBalance(to);
    balance := balance.(earned := WrapAdd(balance.earned, amount));
    store.SetBalance(to, balance);
    events := [RCWMinted(to, amount, reason)];
  }

  method Transfer(store: Store, from: Id, to: Id, amount: u64) returns (r: Result<seq<Event>>)
    modifies store`balances
    ensures Rules.Outcome(store.State(), r) == Rules.Transfer(old(store.State()), from, to, amount)
  {
    if amount == 0 {
      return Err(AmountIsZero);
    }
    var fromBalance := store.GetBalance(from);
    if fromBalance.Total() < amount {
      return Err(InsufficientBalance);
    }
    // Deduct from the sender, earned tokens first.
    if fromBalance.earned >= amount {
      fromBalance := fromBalance.(earned := fromBalance.earned - amount);
    } else {
      var remaining := amount - fromBalance.earned;
      fromBalance := fromBalance.(earned := 0, purchased := WrapSub(fromBalance.purchased, remaining));
    }
    store.SetBalance(from, fromBalance);

    // Read the receiver only now: it may be the sender.
    var toBalance := store.GetBalance(to);
    toBalance := toBalance.(earned := WrapAdd(toBalance.earned, amount));
    store.SetBalance(to, toBalance);
    r := Ok([RCWTransferred(from, to, amount)]);
  }

  method Spend(store: Store, from: Id, amount: u64, purpose: Text) returns (r: Result<seq<Event>>)
    modifies store`balances
    ensures Rules.Outcome(store.State(), r) == Rules.Spend(old(store.State()), from, amount, purpose)
  {
    if amount == 0 {
      return Err(AmountIsZero);
    }
    var balance := store.GetBalance(from);
    if balance.Total() < amount {
      return Err(InsufficientBalance);
    }
    if balance.earned >= amount {
      balance := balance.(earned := balance.earned - amount);
    } else {
      var remaining := amount - balance.earned;
      balance := balance.(earned := 0, purchased := WrapSub(balance.purchased, remaining));
    }
    store.SetBalance(from, balance);
    r := Ok([RCWSpent(from, amount, purpose)]);
  }
}

/** rc-state/src/modules/participant.rs */
module ParticipantModule {
  import opened Types
  import opened Store
  import Rules

  method Register(store: Store, sender: Id, id: Id, pType: ParticipantType, metadata: Text, timestamp: i64)
    returns (r: Result<seq<Event>>)
    modifies store`participants
    ensures Rules.Outcome(store.State(), r) == Rules.Register(old(store.State()), sender, id, pType, metadata,
                                                              timestamp)
  {
    if sender != id {
      return Err(SenderIsNotParticipant);
    }
    var existing := store.GetParticipant(id);
    if existing.Some? {
      return Err(ParticipantExists);
    }
    var participant :=
      Participant(id, pType.Code(), metadata, 0, 0, 0, 0, 0, 0, 0, 0, timestamp, timestamp, true);
    store.SetParticipant(id, participant);
    r := Ok([ParticipantRegistered(id, pType.Code())]);
  }

  method Update(store: Store, sender: Id, id: Id, metadata: Text, timestamp: i64) returns (r: Result<seq<Event>>)
    modifies store`participants
    ensures Rules.Outcome(store.State(), r) == Rules.Update(old(store.State()), sender, id, metadata, timestamp)
  {
    if sender != id {
      return Err(SenderIsNotParticipant);
    }
    var found := store.GetParticipant(id);
    if found.None? {
      return Err(ParticipantNotFound);
    }
    store.SetParticipant(id, found.value.(metadata := metadata, lastActivityAt := timestamp));
    r := Ok([ParticipantUpdated(id)]);
  }

  method Deactivate(store: Store, sender: Id, id: Id) returns (r: Result<seq<Event>>)
    modifies store`participants
    ensures Rules.Outcome(store.State(), r) == Rules.Deactivate(old(store.State()), sender, id)
  {
    if sender != id {
      return Err(SenderIsNotParticipant);
    }
    var found := store.GetParticipant(id);
    if found.None? {
      return Err(ParticipantNotFound);
    }
    store.SetParticipant(id, found.value.(isActive := false));
    r := Ok([ParticipantDeactivated(id)]);
  }
}

/** rc-state/src/modules/settlement.rs */
module SettlementModule {
  import opened Types
  import opened Store
  import Rules
  import TokenModule
  import TrustScore

  method Record(store: Store, sender: Id, participantId: Id, data: SettlementData, timestamp: i64, reward: u64)
    returns (r: Result<seq<Event>>)
    modifies store`participants, store`settlements, store`balances
    ensures Rules.Outcome(store.State(), r)
         == Rules.Settle(old(store.State()), sender, participantId, data, timestamp, reward)
  {
    if sender != participantId {
      return Err(SenderIsNotParticipant);
    }
    var found := store.GetParticipant(participantId);
    if found.None? {
      return Err(ParticipantNotFound);
    }
    var p := found.value;

    var record := SettlementRecord(data.recordId, participantId, data.grossAmount, data.platformFee, data.netAmount,
                                   data.currency, data.settledAt, timestamp);
    store.SetSettlement(data.recordId, record);

    p := p.(totalTx := SatAdd(p.totalTx, 1));
    p := p.(successTx := SatAdd(p.successTx, 1));
    p := p.(totalVolume := SatAdd(p.totalVolume, data.grossAmount));
    p := p.(totalSettled := SatAdd(p.totalSettled, data.netAmount));
    p := p.(lastActivityAt := timestamp);
    store.SetParticipant(participantId, p);

    var events := [SettlementRecorded(participantId, data.recordId)];
    if reward > 0 {
      var rewardEvents := TokenModule.Mint(store, participantId, reward, "settlement_reward");
      events := events + rewardEvents;
    } else {
      assert events + [] == events;
    }
    r := Ok(events);
  }

  method RecordRating(store: Store, participantId: Id, rating: u16, success: bool, timestamp: i64, reward: u64)
    returns (r: Result<seq<Event>>)
    modifies store`participants, store`balances
    ensures Rules.Outcome(store.State(), r)
         == Rules.Rate(old(store.State()), participantId, rating, success, timestamp, reward)
  {
    hide TrustScore.ComputeTrustScore, Rules.ParticipantsEvolve, Rules.Incidental, Rules.NoMilestones;
    var found := store.GetParticipant(participantId);
    if found.None? {
      return Err(ParticipantNotFound);
    }
    var p := found.value;
    if rating > 0 && rating <= 500 {
      p := p.(ratingSum := WrapAdd(p.ratingSum, rating));
      p := p.(ratingCount := WrapAdd(p.ratingCount, 1));
    }
    if !success {
      p := p.(totalTx := WrapAdd(p.totalTx, 1));
    }
    p := p.(lastActivityAt := timestamp);
    store.SetParticipant(participantId, p);

    var newScore := TrustScore.ComputeTrustScore(p);
    var events := [RatingRecorded(participantId, newScore)];
    if reward > 0 {
      var rewardEvents := TokenModule.Mint(store, participantId, reward, "rating_reward");
      events := events + rewardEvents;
    } else {
      assert events + [] == events;
    }
    r := Ok(events);
  }
}

/** rc-state/src/modules/escrow.rs */
module EscrowModule {
  import opened Types
  import opened Store
  import Rules
  import TokenModule

  method Create(store: Store, sender: Id, escrowId: Id, buyer: Id, seller: Id, amount: u64, expiresAt: i64,
                timestamp: i64)
    returns (r: Result<seq<Event>>)
    modifies store`escrows
    ensures Rules.Outcome(store.State(), r)
         == Rules.OpenEscrow(old(store.State()), sender, escrowId, buyer, seller, amount, expiresAt, timestamp)
  {
    if sender != buyer {
      return Err(OnlyBuyerCreates);
    }
    var existing := store.GetEscrow(escrowId);
    if existing.Some? {
      return Err(EscrowExists);
    }
    var foundBuyer := store.GetParticipant(buyer);
    if foundBuyer.None? {
      return Err(BuyerNotFound);
    }
    var foundSeller := store.GetParticipant(seller);
    if foundSeller.None? {
      return Err(SellerNotFound);
    }
    store.SetEscrow(escrowId, Escrow(escrowId, buyer, seller, amount, Created, timestamp, expiresAt, None, None));
    r := Ok([EscrowCreated(escrowId, buyer, seller, amount)]);
  }

  method Release(store: Store, sender: Id, escrowId: Id, evidenceHash: Hash, timestamp: i64, reward: u64)
    returns (r: Result<seq<Event>>)
    modifies store`escrows, store`participants, store`balances
    ensures Rules.Outcome(store.State(), r)
         == Rules.Release(old(store.State()), sender, escrowId, evidenceHash, timestamp, reward)
  {
    hide Rules.ParticipantsEvolve, Rules.EscrowsEvolve, Rules.Reports, Rules.Incidental, Rules.NoMilestones;
    var found := store.GetEscrow(escrowId);
    if found.None? {
      return Err(EscrowNotFound);
    }
    var escrow := found.value;
    if sender != escrow.buyer {
      return Err(OnlyBuyerReleases);
    }
    if escrow.state != Created && escrow.state != Funded {
      return Err(NotReleasable);
    }
    if timestamp > escrow.expiresAt {
      return Err(EscrowExpired);
    }
    escrow := escrow.(state := Released, evidenceHash := Some(evidenceHash));
    store.SetEscrow(escrowId, escrow);

    var foundBuyer := store.GetParticipant(escrow.buyer);
    if foundBuyer.None? {
      return Err(BuyerNotFound);
    }
    var buyer := foundBuyer.value;
    buyer := buyer.(totalTx := SatAdd(buyer.totalTx, 1));
    buyer := buyer.(successTx := SatAdd(buyer.successTx, 1));
    buyer := buyer.(lastActivityAt := timestamp);
    store.SetParticipant(escrow.buyer, buyer);

    var foundSeller := store.GetParticipant(escrow.seller);
    if foundSeller.None? {
      return Err(SellerNotFound);
    }
    var seller := foundSeller.value;
    seller := seller.(totalTx := SatAdd(seller.totalTx, 1));
    seller := seller.(successTx := SatAdd(seller.successTx, 1));
    seller := seller.(totalVolume := SatAdd(seller.totalVolume, escrow.amount));
    seller := seller.(lastActivityAt := timestamp);
    store.SetParticipant(escrow.seller, seller);

    var events := [EscrowReleased(escrowId)];
    if reward > 0 {
      var buyerRewards := TokenModule.Mint(store, escrow.buyer, reward, "escrow_complete");
      var sellerRewards := TokenModule.Mint(store, escrow.seller, reward, "escrow_complete");
      events := events + buyerRewards;
      events := events + sellerRewards;
    } else {
      assert events + [] + [] == events;
    }
    r := Ok(events);
  }

  method Refund(store: Store, sender: Id, escrowId: Id, timestamp: i64) returns (r: Result<seq<Event>>)
    modifies store`escrows, store`participants
    ensures Rules.Outcome(store.State(), r) == Rules.Refund(old(store.State()), sender, escrowId, timestamp)
  {
    hide Rules.ParticipantsEvolve, Rules.EscrowsEvolve, Rules.Reports, Rules.Incidental, Rules.NoMilestones;
    var found := store.GetEscrow(escrowId);
    if found.None? {
      return Err(EscrowNotFound);
    }
    var escrow := found.value;
    var isBuyer := sender == escrow.buyer;
    var isExpired := timestamp > escrow.expiresAt;
    if !isBuyer && !isExpired {
      return Err(OnlyBuyerRefunds);
    }
    if escrow.state != Created && escrow.state != Funded {
      return Err(NotRefundable);
    }
    escrow := escrow.(state := EscrowState.Refunded);
    store.SetEscrow(escrowId, escrow);

    var foundSeller := store.GetParticipant(escrow.seller);
    if foundSeller.None? {
      return Err(SellerNotFound);
    }
    var seller := foundSeller.value;
    seller := seller.(totalTx := SatAdd(seller.totalTx, 1));
    seller := seller.(lastActivityAt := timestamp);
    store.SetParticipant(escrow.seller, seller);
    r := Ok([EscrowRefunded(escrowId)]);
  }
}

/** rc-state/src/modules/dispute.rs */
module DisputeModule {
  import opened Types
  import opened Store
  import Rules
  import TokenModule

  method Raise(store: Store, disputeId: Id, escrowId: Id, raisedBy: Id, reason: DisputeReason, evidenceHash: Hash,
               timestamp: i64)
    returns (r: Result<seq<Event>>)
    modifies store`escrows, store`disputes, store`participants
    ensures Rules.Outcome(store.State(), r)
         == Rules.Raise(old(store.State()), disputeId, escrowId, raisedBy, reason, evidenceHash, timestamp)
  {
    hide Rules.ParticipantsEvolve, Rules.EscrowsEvolve, Rules.Reports, Rules.Incidental, Rules.NoMilestones;
    var found := store.GetEscrow(escrowId);
    if found.None? {
      return Err(EscrowNotFound);
    }
    var escrow := found.value;
    if raisedBy != escrow.buyer && raisedBy != escrow.seller {
      return Err(OnlyPartiesDispute);
    }
    if escrow.state == Released || escrow.state == EscrowState.Refunded {
      return Err(EscrowSettled);
    }
    escrow := escrow.(state := Disputed, disputeId := Some(disputeId));
    store.SetEscrow(escrowId, escrow);

    // Whatever is stored under this id is overwritten.
    store.SetDispute(disputeId, Dispute(disputeId, escrowId, raisedBy, reason.Code(), [evidenceHash], [], Raised, None,
                                        timestamp, None));

    var otherParty := if raisedBy == escrow.buyer then escrow.seller else escrow.buyer;
    var other := store.GetParticipant(otherParty);
    if other.Some? {
      var p := other.value;
      store.SetParticipant(otherParty, p.(disputeCount := SatAdd(p.disputeCount, 1)));
    }
    r := Ok([DisputeRaised(disputeId, escrowId)]);
  }

  method SubmitEvidence(store: Store, sender: Id, disputeId: Id, evidenceHash: Hash) returns (r: Result<seq<Event>>)
    modifies store`disputes
    ensures Rules.Outcome(store.State(), r)
         == Rules.AddEvidence(old(store.State()), sender, disputeId, evidenceHash)
  {
    var found := store.GetDispute(disputeId);
    if found.None? {
      return Err(DisputeNotFound);
    }
    var dispute := found.value;
    var foundEscrow := store.GetEscrow(dispute.escrowId);
    if foundEscrow.None? {
      return Err(EscrowNotFound);
    }
    if sender != foundEscrow.value.buyer && sender != foundEscrow.value.seller {
      return Err(OnlyPartiesSubmitEvidence);
    }
    if dispute.state != Raised && dispute.state != Evidence {
      return Err(NotInEvidencePhase);
    }
    if dispute.state == Raised {
      dispute := dispute.(state := Evidence);
    }
    dispute := dispute.(evidenceHashes := dispute.evidenceHashes + [evidenceHash]);
    store.SetDispute(disputeId, dispute);
    r := Ok([]);
  }

  /** The tally loop of `vote`, with its two u32 counters. */
  method Tally(votes: seq<DisputeVote>) returns (resolution: u8)
    ensures resolution == Rules.Resolution(votes)
  {
    var favorBuyer: u32, favorSeller: u32 := 0, 0;
    for i := 0 to |votes|
      invariant favorBuyer == Rules.VotesFor(votes[..i], 0) % U32_LIMIT
      invariant favorSeller == Rules.VotesFor(votes[..i], 1) % U32_LIMIT
    {
      assert votes[..i + 1][..i] == votes[..i];
      Rules.CountStep(Rules.VotesFor(votes[..i], 0));
      Rules.CountStep(Rules.VotesFor(votes[..i], 1));
      match votes[i].decision {
        case 0 => favorBuyer := (favorBuyer + 1) % U32_LIMIT;
        case 1 => favorSeller := (favorSeller + 1) % U32_LIMIT;
        case 2 =>
          favorBuyer := (favorBuyer + 1) % U32_LIMIT;
          favorSeller := (favorSeller + 1) % U32_LIMIT;
        case _ =>
      }
    }
    assert votes[..|votes|] == votes;
    resolution := if favorBuyer > favorSeller then 0 else if favorSeller > favorBuyer then 1 else 2;
  }

  /** The bookkeeping of a resolution that is not a split. */
  method Award(store: Store, dispute: Dispute, escrow: Escrow, resolution: u8, reward: u64)
    returns (events: seq<Event>)
    modifies store`participants, store`balances
    ensures Rules.Rewarded(store.State(), events)
         == Rules.Award(old(store.State()), dispute, escrow, resolution, reward)
  {
    hide Rules.ParticipantsEvolve, Rules.NoMilestones;
    var winner := if resolution == 0 then escrow.buyer else escrow.seller;
    var loser := if resolution == 0 then escrow.seller else escrow.buyer;

    var foundWinner := store.GetParticipant(winner);
    if foundWinner.Some? {
      var p := foundWinner.value;
      p := p.(disputeWon := SatAdd(p.disputeWon, 1));
      if dispute.raisedBy != winner {
        p := p.(disputeCount := SatSub(p.disputeCount, 1));
      }
      store.SetParticipant(winner, p);
    }

    var foundLoser := store.GetParticipant(loser);
    if foundLoser.Some? {
      var p := foundLoser.value;
      var penalty := if dispute.raisedBy == loser then 2 else 1;
      store.SetParticipant(loser, p.(disputeCount := SatAdd(p.disputeCount, penalty)));
    }

    events := [];
    if reward > 0 {
      events := TokenModule.Mint(store, winner, reward, "dispute_won");
    }
  }

  method Vote(store: Store, disputeId: Id, voter: Id, decision: DisputeDecision, timestamp: i64, reward: u64,
              threshold: u64)
    returns (r: Result<seq<Event>>)
    modifies store`disputes, store`participants, store`balances
    ensures Rules.Outcome(store.State(), r)
         == Rules.Vote(old(store.State()), disputeId, voter, decision, timestamp, reward, threshold)
  {
    hide Rules.ParticipantsEvolve, Rules.Award, Rules.Resolution;
    var found := store.GetDispute(disputeId);
    if found.None? {
      return Err(DisputeNotFound);
    }
    var dispute := found.value;
    var foundVoter := store.GetParticipant(voter);
    if foundVoter.None? {
      return Err(VoterNotFound);
    }
    if foundVoter.value.pType != Arbiter.Code() {
      return Err(OnlyArbitersVote);
    }
    if dispute.state == Raised || dispute.state == Evidence {
      dispute := dispute.(state := Voting);
    }
    if dispute.state != Voting {
      return Err(NotInVotingPhase);
    }
    if Rules.HasVoted(dispute.votes, voter) {
      return Err(AlreadyVoted);
    }
    dispute := dispute.(votes := dispute.votes + [DisputeVote(voter, decision.Code(), timestamp)]);

    var events := [];
    if |dispute.votes| >= threshold {
      var resolution := Tally(dispute.votes);
      dispute := dispute.(state := Resolved, resolution := Some(resolution), resolvedAt := Some(timestamp));
      var foundEscrow := store.GetEscrow(dispute.escrowId);
      if foundEscrow.None? {
        return Err(EscrowNotFound);
      }
      if resolution != 2 {
        events := Award(store, dispute, foundEscrow.value, resolution, reward);
      }
      events := events + [DisputeResolved(disputeId, resolution)];
    }
    store.SetDispute(disputeId, dispute);
    r := Ok(events);
  }
}
