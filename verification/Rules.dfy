/** What each payload does to the tables, as functions: the specification of the rc-state modules.

    A rule returns the tables it leaves behind together with its result, because a Rust `Err` returned after a
    `store.set_…` leaves the write in place. */
module Rules {
  import opened Types
  import TrustScore

  datatype Outcome = Outcome(tables: Tables, result: Result<seq<Event>>)

  datatype Rewarded = Rewarded(tables: Tables, events: seq<Event>)

  datatype Executed = Executed(ledger: Ledger, result: Result<seq<Event>>)

  function Fail(t: Tables, e: Error): Outcome {
    Outcome(t, Err(e))
  }

  function SetParticipant(t: Tables, id: Id, p: Participant): Tables {
    t.(participants := t.participants[id := p])
  }

  function SetEscrow(t: Tables, id: Id, e: Escrow): Tables {
    t.(escrows := t.escrows[id := e])
  }

  function SetDispute(t: Tables, id: Id, d: Dispute): Tables {
    t.(disputes := t.disputes[id := d])
  }

  // ── Evolution: what a rule may do to records that exist ──

  predicate MayBecome(s: EscrowState, s': EscrowState) {
    s == s' || ((s == Created || s == Funded) && (s' == Released || s' == EscrowState.Refunded || s' == Disputed))
  }

  /** Identity, parties, amount and dates are fixed at creation; the state only moves forward. */
  predicate EscrowEvolves(e: Escrow, e': Escrow) {
    && e'.id == e.id && e'.buyer == e.buyer && e'.seller == e.seller && e'.amount == e.amount
    && e'.createdAt == e.createdAt && e'.expiresAt == e.expiresAt
    && MayBecome(e.state, e'.state)
  }

  /** A new escrow is Created, undisputed, and has registered parties. */
  ghost predicate EscrowsEvolve(t: Tables, m': map<Id, Escrow>) {
    && (forall id | id in t.escrows :: id in m' && EscrowEvolves(t.escrows[id], m'[id]))
    && (forall id | id in m' && id !in t.escrows ::
          m'[id].state == Created && m'[id].buyer in t.participants && m'[id].seller in t.participants)
  }

  /** Rewrites an escrow that exists. */
  function MoveEscrow(t: Tables, id: Id, e: Escrow): (t': Tables)
    requires id in t.escrows && EscrowEvolves(t.escrows[id], e)
    ensures t' == t.(escrows := t.escrows[id := e])
    ensures EscrowsEvolve(t, t'.escrows)
  {
    SetEscrow(t, id, e)
  }

  /** `counts`, `successes` and `ratings` say whether the dispute counts, the success count and the ratings may move. */
  predicate ParticipantEvolves(p: Participant, p': Participant, counts: bool, successes: bool, ratings: bool) {
    && p'.id == p.id && p'.pType == p.pType && p'.registeredAt == p.registeredAt
    && (counts || (p'.disputeCount == p.disputeCount && p'.disputeWon == p.disputeWon))
    && (successes || p'.successTx == p.successTx)
    && (ratings || (p'.ratingSum == p.ratingSum && p'.ratingCount == p.ratingCount))
    && (ratings || p.successTx > p.totalTx || p'.successTx <= p'.totalTx)
  }

  /** Participants are never removed, and a new one starts from zero. */
  ghost predicate ParticipantsEvolve(m: map<Id, Participant>, m': map<Id, Participant>, counts: bool, successes: bool,
                                     ratings: bool)
  {
    && (forall id | id in m :: id in m' && ParticipantEvolves(m[id], m'[id], counts, successes, ratings))
    && (forall id | id in m' && id !in m ::
          m'[id].disputeCount == 0 && m'[id].disputeWon == 0 && m'[id].successTx == 0 && m'[id].ratingSum == 0)
  }

  // ── Events of a rule ──

  /** Events that settle an escrow or record a settlement; `History` counts them. */
  predicate Milestone(e: Event) {
    e.EscrowReleased? || e.EscrowRefunded? || e.SettlementRecorded?
  }

  predicate NoMilestones(events: seq<Event>) {
    forall i | 0 <= i < |events| :: !Milestone(events[i])
  }

  predicate Incidental(o: Outcome) {
    o.result.Ok? ==> NoMilestones(o.result.value)
  }

  /** A success reports the milestone `e` first, and no other. */
  predicate Reports(o: Outcome, e: Event) {
    o.result.Ok? ==> |o.result.value| > 0 && o.result.value[0] == e && NoMilestones(o.result.value[1..])
  }

  /** Neither mints nor spends. */
  predicate TokenFree(o: Outcome) {
    o.result.Ok? ==>
      forall i | 0 <= i < |o.result.value| :: !o.result.value[i].RCWMinted? && !o.result.value[i].RCWSpent?
  }

  // ── Token ──

  /** `Store::get_balance`: an absent account reads as an empty one. */
  function BalanceOf(balances: map<Id, Balance>, owner: Id): Balance {
    if owner in balances then balances[owner] else Balance(owner, 0, 0)
  }

  function Credited(balances: map<Id, Balance>, to: Id, amount: u64): map<Id, Balance> {
    var b := BalanceOf(balances, to);
    balances[to := b.(earned := WrapAdd(b.earned, amount))]
  }

  /** Earned tokens are spent before purchased ones. */
  function Debit(b: Balance, amount: u64): Balance {
    if b.earned >= amount then b.(earned := b.earned - amount)
    else b.(earned := 0, purchased := WrapSub(b.purchased, amount - b.earned))
  }

  /** A reward of zero is not minted at all. */
  function Reward(t: Tables, to: Id, amount: u64, reason: string): (r: Rewarded)
    ensures r.tables == t.(balances := r.tables.balances)
    ensures NoMilestones(r.events)
  {
    if amount > 0 then Rewarded(t.(balances := Credited(t.balances, to, amount)), [RCWMinted(to, amount, reason)])
    else Rewarded(t, [])
  }

  function Transfer(t: Tables, from: Id, to: Id, amount: u64): (o: Outcome)
    ensures o.tables == t.(balances := o.tables.balances)
    ensures Incidental(o)
  {
    var b := BalanceOf(t.balances, from);
    if amount == 0 then Fail(t, AmountIsZero)
    else if b.Total() < amount then Fail(t, InsufficientBalance)
    else
      var debited := t.balances[from := Debit(b, amount)];
      Outcome(t.(balances := Credited(debited, to, amount)), Ok([RCWTransferred(from, to, amount)]))
  }

  function Spend(t: Tables, from: Id, amount: u64, purpose: Text): (o: Outcome)
    ensures o.tables == t.(balances := o.tables.balances)
    ensures Incidental(o)
  {
    var b := BalanceOf(t.balances, from);
    if amount == 0 then Fail(t, AmountIsZero)
    else if b.Total() < amount then Fail(t, InsufficientBalance)
    else Outcome(t.(balances := t.balances[from := Debit(b, amount)]), Ok([RCWSpent(from, amount, purpose)]))
  }

  // ── Participant ──

  function Register(t: Tables, sender: Id, id: Id, pType: ParticipantType, metadata: Text, ts: i64): (o: Outcome)
    ensures o.tables == t.(participants := o.tables.participants)
    ensures Incidental(o) && TokenFree(o)
    ensures ParticipantsEvolve(t.participants, o.tables.participants, false, false, false)
  {
    if sender != id then Fail(t, SenderIsNotParticipant)
    else if id in t.participants then Fail(t, ParticipantExists)
    else
      var p := Participant(id, pType.Code(), metadata, 0, 0, 0, 0, 0, 0, 0, 0, ts, ts, true);
      Outcome(SetParticipant(t, id, p), Ok([ParticipantRegistered(id, pType.Code())]))
  }

  function Update(t: Tables, sender: Id, id: Id, metadata: Text, ts: i64): (o: Outcome)
    ensures o.tables == t.(participants := o.tables.participants)
    ensures Incidental(o) && TokenFree(o)
    ensures ParticipantsEvolve(t.participants, o.tables.participants, false, false, false)
  {
    if sender != id then Fail(t, SenderIsNotParticipant)
    else if id !in t.participants then Fail(t, ParticipantNotFound)
    else
      var p := t.participants[id].(metadata := metadata, lastActivityAt := ts);
      Outcome(SetParticipant(t, id, p), Ok([ParticipantUpdated(id)]))
  }

  function Deactivate(t: Tables, sender: Id, id: Id): (o: Outcome)
    ensures o.tables == t.(participants := o.tables.participants)
    ensures Incidental(o) && TokenFree(o)
    ensures ParticipantsEvolve(t.participants, o.tables.participants, false, false, false)
  {
    if sender != id then Fail(t, SenderIsNotParticipant)
    else if id !in t.participants then Fail(t, ParticipantNotFound)
    else Outcome(SetParticipant(t, id, t.participants[id].(isActive := false)), Ok([ParticipantDeactivated(id)]))
  }

  // ── Settlement ──

  /** One more transaction at time `ts`, successful and worth `volume`. */
  function Succeeded(p: Participant, volume: u64, ts: i64): Participant {
    p.(totalTx := SatAdd(p.totalTx, 1), successTx := SatAdd(p.successTx, 1),
       totalVolume := SatAdd(p.totalVolume, volume), lastActivityAt := ts)
  }

  /** Books a success on a participant that exists. */
  function Succeed(t: Tables, id: Id, volume: u64, ts: i64): (t': Tables)
    requires id in t.participants
    ensures t' == t.(participants := t.participants[id := Succeeded(t.participants[id], volume, ts)])
    ensures ParticipantsEvolve(t.participants, t'.participants, false, true, false)
  {
    SetParticipant(t, id, Succeeded(t.participants[id], volume, ts))
  }

  function RecordOf(participantId: Id, data: SettlementData, ts: i64): SettlementRecord {
    SettlementRecord(data.recordId, participantId, data.grossAmount, data.platformFee, data.netAmount, data.currency,
                     data.settledAt, ts)
  }

  function Settle(t: Tables, sender: Id, participantId: Id, data: SettlementData, ts: i64, reward: u64): (o: Outcome)
    ensures o.tables == t.(participants := o.tables.participants, settlements := o.tables.settlements,
                           balances := o.tables.balances)
    ensures Reports(o, SettlementRecorded(participantId, data.recordId))
    ensures ParticipantsEvolve(t.participants, o.tables.participants, false, true, false)
  {
    if sender != participantId then Fail(t, SenderIsNotParticipant)
    else if participantId !in t.participants then Fail(t, ParticipantNotFound)
    else
      var p := t.participants[participantId];
      var p' := Succeeded(p, data.grossAmount, ts).(totalSettled := SatAdd(p.totalSettled, data.netAmount));
      var t1 := t.(settlements := t.settlements[data.recordId := RecordOf(participantId, data, ts)]);
      var r := Reward(SetParticipant(t1, participantId, p'), participantId, reward, "settlement_reward");
      Outcome(r.tables, Ok([SettlementRecorded(participantId, data.recordId)] + r.events))
  }

  /** The rating and failure counters are plain additions, which wrap. */
  function Rated(p: Participant, rating: u16, success: bool, ts: i64): Participant {
    var counted := 0 < rating <= 500;
    p.(ratingSum := if counted then WrapAdd(p.ratingSum, rating) else p.ratingSum,
       ratingCount := if counted then WrapAdd(p.ratingCount, 1) else p.ratingCount,
       totalTx := if success then p.totalTx else WrapAdd(p.totalTx, 1),
       lastActivityAt := ts)
  }

  function Rate(t: Tables, participantId: Id, rating: u16, success: bool, ts: i64, reward: u64): (o: Outcome)
    ensures o.tables == t.(participants := o.tables.participants, balances := o.tables.balances)
    ensures Incidental(o)
    ensures ParticipantsEvolve(t.participants, o.tables.participants, false, false, true)
  {
    if participantId !in t.participants then Fail(t, ParticipantNotFound)
    else
      var p := Rated(t.participants[participantId], rating, success, ts);
      var r := Reward(SetParticipant(t, participantId, p), participantId, reward, "rating_reward");
      Outcome(r.tables, Ok([RatingRecorded(participantId, TrustScore.ComputeTrustScore(p))] + r.events))
  }

  // ── Escrow ──

  function OpenEscrow(t: Tables, sender: Id, escrowId: Id, buyer: Id, seller: Id, amount: u64, expiresAt: i64,
                      ts: i64): (o: Outcome)
    ensures o.tables == t.(escrows := o.tables.escrows)
    ensures Incidental(o) && TokenFree(o)
    ensures EscrowsEvolve(t, o.tables.escrows)
  {
    if sender != buyer then Fail(t, OnlyBuyerCreates)
    else if escrowId in t.escrows then Fail(t, EscrowExists)
    else if buyer !in t.participants then Fail(t, BuyerNotFound)
    else if seller !in t.participants then Fail(t, SellerNotFound)
    else
      var e := Escrow(escrowId, buyer, seller, amount, Created, ts, expiresAt, None, None);
      Outcome(SetEscrow(t, escrowId, e), Ok([EscrowCreated(escrowId, buyer, seller, amount)]))
  }

  function Release(t: Tables, sender: Id, escrowId: Id, evidence: Hash, ts: i64, reward: u64): (o: Outcome)
    ensures o.tables == t.(participants := o.tables.participants, escrows := o.tables.escrows,
                           balances := o.tables.balances)
    ensures Reports(o, EscrowReleased(escrowId))
    ensures EscrowsEvolve(t, o.tables.escrows)
    ensures ParticipantsEvolve(t.participants, o.tables.participants, false, true, false)
  {
    if escrowId !in t.escrows then Fail(t, EscrowNotFound)
    else
      var e := t.escrows[escrowId];
      if sender != e.buyer then Fail(t, OnlyBuyerReleases)
      else if e.state != Created && e.state != Funded then Fail(t, NotReleasable)
      else if ts > e.expiresAt then Fail(t, EscrowExpired)
      else
        var t1 := MoveEscrow(t, escrowId, e.(state := Released, evidenceHash := Some(evidence)));
        if e.buyer !in t1.participants then Fail(t1, BuyerNotFound)
        else
          var t2 := Succeed(t1, e.buyer, 0, ts);
          if e.seller !in t2.participants then Fail(t2, SellerNotFound)
          else
            var t3 := Succeed(t2, e.seller, e.amount, ts);
            var r1 := Reward(t3, e.buyer, reward, "escrow_complete");
            var r2 := Reward(r1.tables, e.seller, reward, "escrow_complete");
            Outcome(r2.tables, Ok([EscrowReleased(escrowId)] + r1.events + r2.events))
  }

  function Refund(t: Tables, sender: Id, escrowId: Id, ts: i64): (o: Outcome)
    ensures o.tables == t.(participants := o.tables.participants, escrows := o.tables.escrows)
    ensures Reports(o, EscrowRefunded(escrowId)) && TokenFree(o)
    ensures EscrowsEvolve(t, o.tables.escrows)
    ensures ParticipantsEvolve(t.participants, o.tables.participants, false, false, false)
  {
    if escrowId !in t.escrows then Fail(t, EscrowNotFound)
    else
      var e := t.escrows[escrowId];
      if sender != e.buyer && ts <= e.expiresAt then Fail(t, OnlyBuyerRefunds)
      else if e.state != Created && e.state != Funded then Fail(t, NotRefundable)
      else
        var t1 := MoveEscrow(t, escrowId, e.(state := EscrowState.Refunded));
        if e.seller !in t1.participants then Fail(t1, SellerNotFound)
        else
          var p := t1.participants[e.seller];
          var p' := p.(totalTx := SatAdd(p.totalTx, 1), lastActivityAt := ts);
          Outcome(SetParticipant(t1, e.seller, p'), Ok([EscrowRefunded(escrowId)]))
  }

  // ── Dispute ──

  /** The party of an escrow that did not raise the dispute. */
  function OtherParty(e: Escrow, raisedBy: Id): Id {
    if raisedBy == e.buyer then e.seller else e.buyer
  }

  function Penalized(t: Tables, id: Id, amount: u64): (t': Tables)
    ensures t' == t.(participants := t'.participants)
    ensures ParticipantsEvolve(t.participants, t'.participants, true, false, false)
  {
    if id in t.participants then
      var p := t.participants[id];
      SetParticipant(t, id, p.(disputeCount := SatAdd(p.disputeCount, amount)))
    else t
  }

  function Raise(t: Tables, disputeId: Id, escrowId: Id, raisedBy: Id, reason: DisputeReason, evidence: Hash,
                 ts: i64): (o: Outcome)
    ensures o.tables == t.(participants := o.tables.participants, escrows := o.tables.escrows,
                           disputes := o.tables.disputes)
    ensures Incidental(o) && TokenFree(o)
    ensures EscrowsEvolve(t, o.tables.escrows)
    ensures ParticipantsEvolve(t.participants, o.tables.participants, true, false, false)
  {
    if escrowId !in t.escrows then Fail(t, EscrowNotFound)
    else
      var e := t.escrows[escrowId];
      if raisedBy != e.buyer && raisedBy != e.seller then Fail(t, OnlyPartiesDispute)
      else if e.state == Released || e.state == Refunded then Fail(t, EscrowSettled)
      else
        var t1 := MoveEscrow(t, escrowId, e.(state := Disputed, disputeId := Some(disputeId)));
        var d := Dispute(disputeId, escrowId, raisedBy, reason.Code(), [evidence], [], Raised, None, ts, None);
        var t2 := SetDispute(t1, disputeId, d);
        Outcome(Penalized(t2, OtherParty(e, raisedBy), 1), Ok([DisputeRaised(disputeId, escrowId)]))
  }

  function AddEvidence(t: Tables, sender: Id, disputeId: Id, evidence: Hash): (o: Outcome)
    ensures o.tables == t.(disputes := o.tables.disputes)
    ensures Incidental(o) && TokenFree(o)
  {
    if disputeId !in t.disputes then Fail(t, DisputeNotFound)
    else
      var d := t.disputes[disputeId];
      if d.escrowId !in t.escrows then Fail(t, EscrowNotFound)
      else
        var e := t.escrows[d.escrowId];
        if sender != e.buyer && sender != e.seller then Fail(t, OnlyPartiesSubmitEvidence)
        else if d.state != Raised && d.state != Evidence then Fail(t, NotInEvidencePhase)
        else Outcome(SetDispute(t, disputeId, d.(state := Evidence, evidenceHashes := d.evidenceHashes + [evidence])),
                     Ok([]))
  }

  /** How many votes count for the buyer (`side` 0) or the seller (`side` 1); a Split vote (2) counts for both. */
  function VotesFor(votes: seq<DisputeVote>, side: u8): nat {
    if votes == [] then 0
    else
      var last := votes[|votes| - 1];
      VotesFor(votes[..|votes| - 1], side) + if last.decision == side || last.decision == 2 then 1 else 0
  }

  /** The tally of the code, which counts in u32. */
  function Resolution(votes: seq<DisputeVote>): u8 {
    var buyer, seller := VotesFor(votes, 0) % U32_LIMIT, VotesFor(votes, 1) % U32_LIMIT;
    if buyer > seller then 0 else if seller > buyer then 1 else 2
  }

  /** Counting in u32 counts modulo 2^32. */
  lemma CountStep(n: nat)
    ensures (n % U32_LIMIT + 1) % U32_LIMIT == (n + 1) % U32_LIMIT
  {
  }

  function HasVoted(votes: seq<DisputeVote>, voter: Id): bool {
    exists i :: 0 <= i < |votes| && votes[i].voter == voter
  }

  /** One more dispute won; the count taken when the dispute was raised is given back to the party it was taken from. */
  function Won(p: Participant, raisedByOther: bool): Participant {
    p.(disputeWon := SatAdd(p.disputeWon, 1),
       disputeCount := if raisedByOther then SatSub(p.disputeCount, 1) else p.disputeCount)
  }

  function WonBy(t: Tables, id: Id, raisedByOther: bool): (t': Tables)
    ensures t' == t.(participants := t'.participants)
    ensures ParticipantsEvolve(t.participants, t'.participants, true, false, false)
  {
    if id in t.participants then SetParticipant(t, id, Won(t.participants[id], raisedByOther)) else t
  }

  /** Books a resolution that is not a split. */
  function Award(t: Tables, d: Dispute, e: Escrow, resolution: u8, reward: u64): (r: Rewarded)
    ensures r.tables == t.(participants := r.tables.participants, balances := r.tables.balances)
    ensures ParticipantsEvolve(t.participants, r.tables.participants, true, false, false)
    ensures NoMilestones(r.events)
  {
    var winner := if resolution == 0 then e.buyer else e.seller;
    var loser := if resolution == 0 then e.seller else e.buyer;
    var t1 := WonBy(t, winner, d.raisedBy != winner);
    var t2 := Penalized(t1, loser, if d.raisedBy == loser then 2 else 1);
    Reward(t2, winner, reward, "dispute_won")
  }

  /** The last vote is in: tally, book the resolution and close the dispute. */
  function Resolve(t: Tables, disputeId: Id, d: Dispute, ts: i64, reward: u64): (o: Outcome)
    ensures o.tables == t.(participants := o.tables.participants, disputes := o.tables.disputes,
                           balances := o.tables.balances)
    ensures Incidental(o)
    ensures ParticipantsEvolve(t.participants, o.tables.participants, true, false, false)
  {
    if d.escrowId !in t.escrows then Fail(t, EscrowNotFound)
    else
      var res := Resolution(d.votes);
      var d' := d.(state := Resolved, resolution := Some(res), resolvedAt := Some(ts));
      var r := if res == 2 then Rewarded(t, []) else Award(t, d', t.escrows[d.escrowId], res, reward);
      Outcome(SetDispute(r.tables, disputeId, d'), Ok(r.events + [DisputeResolved(disputeId, res)]))
  }

  function Vote(t: Tables, disputeId: Id, voter: Id, decision: DisputeDecision, ts: i64, reward: u64,
                threshold: u64): (o: Outcome)
    ensures o.tables == t.(participants := o.tables.participants, disputes := o.tables.disputes,
                           balances := o.tables.balances)
    ensures Incidental(o)
    ensures ParticipantsEvolve(t.participants, o.tables.participants, true, false, false)
  {
    if disputeId !in t.disputes then Fail(t, DisputeNotFound)
    else
      var d := t.disputes[disputeId];
      if voter !in t.participants then Fail(t, VoterNotFound)
      else if t.participants[voter].pType != Arbiter.Code() then Fail(t, OnlyArbitersVote)
      else if d.state == Resolved then Fail(t, NotInVotingPhase)
      else if HasVoted(d.votes, voter) then Fail(t, AlreadyVoted)
      else
        var d1 := d.(state := Voting, votes := d.votes + [DisputeVote(voter, decision.Code(), ts)]);
        if |d1.votes| < threshold then Outcome(SetDispute(t, disputeId, d1), Ok([]))
        else Resolve(t, disputeId, d1, ts, reward)
  }

  // ── Anchor ──

  function Anchor(t: Tables, sender: Id, a: AnchorRecord, platformKeys: seq<Id>): (o: Outcome)
    ensures o.tables == t.(anchors := o.tables.anchors)
    ensures Incidental(o) && TokenFree(o)
  {
    if sender !in platformKeys then Fail(t, OnlyPlatformAnchors)
    else if a.batchId in t.anchors then Fail(t, AnchorExists)
    else Outcome(t.(anchors := t.anchors[a.batchId := a]),
                 Ok([AnchorRecorded(a.batchId, a.merkleRoot, a.entryCount)]))
  }

  // ── Dispatch ──

  /** The effect of a payload once its nonce has passed. */
  function Perform(cfg: Config, t: Tables, sender: Id, payload: Payload, ts: i64): Outcome {
    match payload
    case RegisterParticipant(id, pType, metadata) => Register(t, sender, id, pType, metadata, ts)
    case UpdateParticipant(id, metadata) => Update(t, sender, id, metadata, ts)
    case DeactivateParticipant(id) => Deactivate(t, sender, id)
    case RecordSettlement(pid, record) => Settle(t, sender, pid, record, ts, cfg.settlementReward)
    case RecordRating(pid, rating, success) => Rate(t, pid, rating, success, ts, cfg.ratingReward)
    case CreateEscrow(eid, buyer, seller, amount, expiresAt) =>
      OpenEscrow(t, sender, eid, buyer, seller, amount, expiresAt, ts)
    case ReleaseEscrow(eid, evidence) => Release(t, sender, eid, evidence, ts, cfg.escrowReward)
    case RefundEscrow(eid) => Refund(t, sender, eid, ts)
    case RaiseDispute(did, eid, reason, evidence) => Raise(t, did, eid, sender, reason, evidence, ts)
    case SubmitEvidence(did, evidence) => AddEvidence(t, sender, did, evidence)
    case VoteDispute(did, decision) => Vote(t, did, sender, decision, ts, cfg.disputeReward, cfg.voteThreshold)
    case TransferRCW(to, amount, _) => Transfer(t, sender, to, amount)
    case SpendRCW(amount, purpose) => Spend(t, sender, amount, purpose)
    case AnchorMerkleRoot(batchId, root, entries, from, to) =>
      Anchor(t, sender, AnchorRecord(batchId, root, entries, from, to, ts), cfg.platformKeys)
  }

  /** A transaction consumes its nonce before its payload runs, and a failing payload does not give it back. */
  function Execute(cfg: Config, l: Ledger, tx: Transaction, ts: i64): Executed {
    if tx.nonce <= l.Nonce(tx.sender) then Executed(l, Err(NonceTooLow))
    else
      var o := Perform(cfg, l.tables, tx.sender, tx.payload, ts);
      Executed(Ledger(o.tables, l.nonces[tx.sender := tx.nonce]), o.result)
  }

  // ── Lists of transactions ──

  datatype Replayed = Replayed(ledger: Ledger, events: seq<Event>)

  /** The loop of `apply_block`: transactions with a bad signature are skipped, failing ones are ignored. */
  function Replay(prims: Primitives, cfg: Config, l: Ledger, txs: seq<Transaction>, ts: i64): Replayed {
    if txs == [] then Replayed(l, [])
    else
      var before := Replay(prims, cfg, l, txs[..|txs| - 1], ts);
      var tx := txs[|txs| - 1];
      if !prims.verifyTx(tx) then before
      else
        var x := Execute(cfg, before.ledger, tx, ts);
        Replayed(x.ledger, before.events + if x.result.Ok? then x.result.value else [])
  }

  datatype Led = Led(ledger: Ledger, kept: seq<Transaction>, events: seq<Event>)

  /** The loop of the block producer: signatures are not looked at, and only successful transactions are kept. */
  function Lead(cfg: Config, l: Ledger, txs: seq<Transaction>, ts: i64): Led {
    if txs == [] then Led(l, [], [])
    else
      var before := Lead(cfg, l, txs[..|txs| - 1], ts);
      var tx := txs[|txs| - 1];
      var x := Execute(cfg, before.ledger, tx, ts);
      if x.result.Ok? then Led(x.ledger, before.kept + [tx], before.events + x.result.value)
      else Led(x.ledger, before.kept, before.events)
  }

  /** The root check of `apply_block`; a header without a root is not checked. */
  predicate RootMatches(prims: Primitives, header: BlockHeader, l: Ledger) {
    header.stateRoot == EMPTY_HASH || prims.stateRoot(l) == header.stateRoot
  }
}
