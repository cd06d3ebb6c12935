/** Who may do what, and when: the exact condition under which each payload succeeds in a reachable state. */
module Permissions {
  import opened Types
  import opened Rules
  import opened Invariants
  import opened History
  import opened Tokens
  import opened Provenance

  predicate Holds(t: Tables, owner: Id, amount: u64) {
    0 < amount <= BalanceOf(t.balances, owner).Total()
  }

  predicate HasVotedOn(t: Tables, did: Id, voter: Id) {
    did in t.disputes && exists i :: 0 <= i < |t.disputes[did].votes| && t.disputes[did].votes[i].voter == voter
  }

  /** The escrow is still open: neither released nor refunded nor disputed. */
  predicate OpenEscrowAt(t: Tables, eid: Id) {
    eid in t.escrows && t.escrows[eid].state == Created
  }

  /** Whether `sender` may do this at time `ts`. */
  predicate May(cfg: Config, t: Tables, sender: Id, payload: Payload, ts: i64) {
    match payload
    case RegisterParticipant(id, _, _) => sender == id && id !in t.participants
    case UpdateParticipant(id, _) => sender == id && id in t.participants
    case DeactivateParticipant(id) => sender == id && id in t.participants
    case RecordSettlement(id, _) => sender == id && id in t.participants
    case RecordRating(id, _, _) => id in t.participants
    case CreateEscrow(eid, buyer, seller, _, _) =>
      sender == buyer && eid !in t.escrows && buyer in t.participants && seller in t.participants
    case ReleaseEscrow(eid, _) =>
      OpenEscrowAt(t, eid) && sender == t.escrows[eid].buyer && ts <= t.escrows[eid].expiresAt
    case RefundEscrow(eid) =>
      OpenEscrowAt(t, eid) && (sender == t.escrows[eid].buyer || ts > t.escrows[eid].expiresAt)
    case RaiseDispute(_, eid, _, _) =>
      IsParty(t, eid, sender) && (t.escrows[eid].state == Created || t.escrows[eid].state == Disputed)
    case SubmitEvidence(did, _) =>
      && did in t.disputes && IsParty(t, t.disputes[did].escrowId, sender)
      && (t.disputes[did].state == Raised || t.disputes[did].state == Evidence)
    case VoteDispute(did, _) =>
      && did in t.disputes && t.disputes[did].state != Resolved && !HasVotedOn(t, did, sender)
      && sender in t.participants && t.participants[sender].pType == Arbiter.Code()
    case TransferRCW(_, amount, _) => Holds(t, sender, amount)
    case SpendRCW(amount, _) => Holds(t, sender, amount)
    case AnchorMerkleRoot(batchId, _, _, _, _) => sender in cfg.platformKeys && batchId !in t.anchors
  }

  lemma MayRelease(t: Tables, sender: Id, eid: Id, evidence: Hash, ts: i64, reward: u64)
    requires Consistent(t)
    ensures Release(t, sender, eid, evidence, ts, reward).result.Ok?
       <==> OpenEscrowAt(t, eid) && sender == t.escrows[eid].buyer && ts <= t.escrows[eid].expiresAt
  {
    hide ParticipantsEvolve, EscrowsEvolve, Reports, NoMilestones, Succeeded, Reward, DisputesRefer;
  }

  lemma MayRefund(t: Tables, sender: Id, eid: Id, ts: i64)
    requires Consistent(t)
    ensures Refund(t, sender, eid, ts).result.Ok?
       <==> OpenEscrowAt(t, eid) && (sender == t.escrows[eid].buyer || ts > t.escrows[eid].expiresAt)
  {
    hide ParticipantsEvolve, EscrowsEvolve, Reports, NoMilestones, TokenFree, DisputesRefer;
  }

  lemma MayVote(t: Tables, did: Id, voter: Id, decision: DisputeDecision, ts: i64, reward: u64, threshold: u64)
    requires Consistent(t)
    ensures Vote(t, did, voter, decision, ts, reward, threshold).result.Ok?
       <==> did in t.disputes && t.disputes[did].state != Resolved && !HasVotedOn(t, did, voter)
            && voter in t.participants && t.participants[voter].pType == Arbiter.Code()
  {
    hide ParticipantsEvolve, Incidental, NoMilestones, Award, Resolution, NeverFunded, PartiesRegistered;
  }

  lemma MayRaise(t: Tables, did: Id, eid: Id, raiser: Id, reason: DisputeReason, evidence: Hash, ts: i64)
    requires Consistent(t)
    ensures Raise(t, did, eid, raiser, reason, evidence, ts).result.Ok?
       <==> IsParty(t, eid, raiser) && (t.escrows[eid].state == Created || t.escrows[eid].state == Disputed)
  {
    hide ParticipantsEvolve, EscrowsEvolve, Incidental, TokenFree, NoMilestones, Penalized, DisputesRefer;
  }

  /** In every state whose references are consistent, so in every reachable one, a payload succeeds exactly when its
      sender may do that at that time. */
  lemma SucceedsIff(cfg: Config, t: Tables, sender: Id, payload: Payload, ts: i64)
    requires Consistent(t)
    ensures Perform(cfg, t, sender, payload, ts).result.Ok? <==> May(cfg, t, sender, payload, ts)
  {
    hide Release, Refund, Raise, Vote, NeverFunded, PartiesRegistered;
    hide ParticipantsEvolve, EscrowsEvolve, Reward, Succeeded, TokenFree, Incidental, Reports, NoMilestones, Rated,
         Debit, Credited;
    match payload {
      case ReleaseEscrow(eid, evidence) => MayRelease(t, sender, eid, evidence, ts, cfg.escrowReward);
      case RefundEscrow(eid) => MayRefund(t, sender, eid, ts);
      case RaiseDispute(did, eid, reason, evidence) => MayRaise(t, did, eid, sender, reason, evidence, ts);
      case VoteDispute(did, decision) =>
        MayVote(t, did, sender, decision, ts, cfg.disputeReward, cfg.voteThreshold);
      case _ =>
    }
  }

  /** Over every run: a transaction succeeds if and only if its nonce is above the stored one and its sender may do what
      it says at that time. */
  lemma SucceedsInRunsIff(cfg: Config, ins: seq<Input>, k: nat)
    requires k < |ins|
    ensures Succeeds(cfg, ins, k)
       <==> ins[k].tx.nonce > RunFrom(cfg, GENESIS, ins[..k]).ledger.Nonce(ins[k].tx.sender)
            && May(cfg, TablesAt(cfg, ins, k), ins[k].tx.sender, ins[k].tx.payload, ins[k].ts)
  {
    hide Perform, RunFrom, Consistent, May;
    ReachableConsistent(cfg, ins[..k]);
    SucceedsIff(cfg, TablesAt(cfg, ins, k), ins[k].tx.sender, ins[k].tx.payload, ins[k].ts);
  }

  // ── Release or refund ──

  /** The buyer can release until the expiry, and anyone else can refund from then on. */
  predicate OneWayOut(cfg: Config, t: Tables, eid: Id, evidence: Hash, other: Id, ts: i64)
    requires eid in t.escrows
  {
    var buyer, expiresAt := t.escrows[eid].buyer, t.escrows[eid].expiresAt;
    var released := Perform(cfg, t, buyer, ReleaseEscrow(eid, evidence), ts).result;
    var refunded := Perform(cfg, t, other, RefundEscrow(eid), ts).result;
    && (released.Ok? <==> ts <= expiresAt)
    && Perform(cfg, t, buyer, RefundEscrow(eid), ts).result.Ok?
    && (other != buyer ==>
          && Perform(cfg, t, other, ReleaseEscrow(eid, evidence), ts).result == Err(OnlyBuyerReleases)
          && (refunded.Ok? <==> ts > expiresAt)
          && refunded.Ok? != released.Ok?)
  }

  lemma OpenHasOneWayOut(cfg: Config, t: Tables, eid: Id, evidence: Hash, other: Id, ts: i64)
    requires Consistent(t) && OpenEscrowAt(t, eid)
    ensures OneWayOut(cfg, t, eid, evidence, other, ts)
  {
    hide Perform, Release, Refund, ParticipantsEvolve, EscrowsEvolve, Reports, Consistent, TokenFree;
    var buyer := t.escrows[eid].buyer;
    MayRelease(t, buyer, eid, evidence, ts, cfg.escrowReward);
    MayRefund(t, buyer, eid, ts);
    MayRefund(t, other, eid, ts);
    EscrowPayloads(cfg, t, buyer, eid, evidence, ts);
    EscrowPayloads(cfg, t, other, eid, evidence, ts);
    if other != buyer {
      OthersMayNotRelease(t, other, eid, evidence, ts, cfg.escrowReward);
    }
  }

  lemma EscrowPayloads(cfg: Config, t: Tables, sender: Id, eid: Id, evidence: Hash, ts: i64)
    ensures Perform(cfg, t, sender, ReleaseEscrow(eid, evidence), ts)
         == Release(t, sender, eid, evidence, ts, cfg.escrowReward)
    ensures Perform(cfg, t, sender, RefundEscrow(eid), ts) == Refund(t, sender, eid, ts)
  {
    hide Release, Refund;
  }

  /** At every time, and for every escrow still open in a reachable state: its buyer can release it if and only if it
      has not expired, a third party can refund it if and only if it has, so exactly one of the two is possible. The
      buyer can refund it at any time, and nobody else can ever release it. */
  lemma ReleaseOrRefund(cfg: Config, ins: seq<Input>, eid: Id, evidence: Hash, other: Id, ts: i64)
    ensures var t := RunFrom(cfg, GENESIS, ins).ledger.tables;
            OpenEscrowAt(t, eid) ==> OneWayOut(cfg, t, eid, evidence, other, ts)
  {
    hide Perform, RunFrom, Consistent, OneWayOut;
    ReachableConsistent(cfg, ins);
    var t := RunFrom(cfg, GENESIS, ins).ledger.tables;
    if OpenEscrowAt(t, eid) {
      OpenHasOneWayOut(cfg, t, eid, evidence, other, ts);
    }
  }

  lemma OthersMayNotRelease(t: Tables, other: Id, eid: Id, evidence: Hash, ts: i64, reward: u64)
    requires eid in t.escrows && other != t.escrows[eid].buyer
    ensures Release(t, other, eid, evidence, ts, reward).result == Err(OnlyBuyerReleases)
  {
    hide ParticipantsEvolve, EscrowsEvolve, Reports, NoMilestones, Succeed, Reward;
  }

  /** Who is told that the escrow has expired: its buyer, while it is open and the time is past. */
  lemma ExpiredIff(cfg: Config, t: Tables, sender: Id, eid: Id, evidence: Hash, ts: i64)
    requires Consistent(t)
    ensures Perform(cfg, t, sender, ReleaseEscrow(eid, evidence), ts).result == Err(EscrowExpired)
       <==> OpenEscrowAt(t, eid) && sender == t.escrows[eid].buyer && ts > t.escrows[eid].expiresAt
  {
    hide ParticipantsEvolve, EscrowsEvolve, Reports, NoMilestones, Succeed, Reward, DisputesRefer;
  }

  lemma {:induction false} CountsMember(p: Event -> bool, events: seq<Event>, e: Event)
    requires e in events && p(e)
    ensures Count(p, events) >= 1
  {
    var n := |events| - 1;
    if events[n] != e {
      CountsMember(p, events[..n], e);
    }
  }

  function EventsAt(cfg: Config, ins: seq<Input>, k: nat): seq<Event>
    requires k < |ins|
  {
    EventsOf(Execute(cfg, RunFrom(cfg, GENESIS, ins[..k]).ledger, ins[k].tx, ins[k].ts).result)
  }

  /** A milestone is reported only by a successful payload of its kind. */
  lemma MilestoneIsReported(cfg: Config, ins: seq<Input>, k: nat, e: Event)
    requires k < |ins| && e in EventsAt(cfg, ins, k) && Milestone(e)
    ensures Succeeds(cfg, ins, k) && MilestoneOf(ins[k].tx.payload) == Some(e)
  {
    hide Perform, RunFrom, Milestone;
    var same := (x: Event) => x == e;
    MilestonesOfStep(cfg, TablesAt(cfg, ins, k), ins[k].tx.sender, ins[k].tx.payload, ins[k].ts, same);
    CountsMember(same, EventsAt(cfg, ins, k), e);
  }

  /** No run reports a release after the expiry of the escrow, or one that its buyer did not send; and a refund that the
      buyer did not send is reported only after the expiry. */
  lemma SettledInTime(cfg: Config, ins: seq<Input>, k: nat, eid: Id)
    requires k < |ins|
    ensures EscrowReleased(eid) in EventsAt(cfg, ins, k) || EscrowRefunded(eid) in EventsAt(cfg, ins, k) ==>
              eid in TablesAt(cfg, ins, k).escrows
    ensures EscrowReleased(eid) in EventsAt(cfg, ins, k) ==>
              var e := TablesAt(cfg, ins, k).escrows[eid]; ins[k].ts <= e.expiresAt && ins[k].tx.sender == e.buyer
    ensures EscrowRefunded(eid) in EventsAt(cfg, ins, k) ==>
              var e := TablesAt(cfg, ins, k).escrows[eid]; ins[k].ts > e.expiresAt || ins[k].tx.sender == e.buyer
  {
    SucceedsInRunsIff(cfg, ins, k);
    hide Succeeds, RunFrom, EventsAt;
    if EscrowReleased(eid) in EventsAt(cfg, ins, k) {
      MilestoneIsReported(cfg, ins, k, EscrowReleased(eid));
    }
    if EscrowRefunded(eid) in EventsAt(cfg, ins, k) {
      MilestoneIsReported(cfg, ins, k, EscrowRefunded(eid));
    }
  }

  // ── Spending ──

  lemma MaySpend(cfg: Config, t: Tables, owner: Id, to: Id, amount: u64, memo: Text, ts: i64)
    ensures Perform(cfg, t, owner, SpendRCW(amount, memo), ts).result.Ok? <==> Holds(t, owner, amount)
    ensures Perform(cfg, t, owner, TransferRCW(to, amount, memo), ts).result.Ok? <==> Holds(t, owner, amount)
  {
    hide Debit, Credited, Incidental;
  }

  /** While everything ever minted fits in 64 bits, tokens can be spent or sent if and only if they are held: the sum of
      both balances is available, and no more. */
  lemma SpendableIff(cfg: Config, ins: seq<Input>, owner: Id, to: Id, amount: u64, memo: Text, ts: i64)
    requires Sum(RunFrom(cfg, GENESIS, ins).events, Mints) < U64_LIMIT
    ensures var t := RunFrom(cfg, GENESIS, ins).ledger.tables;
            var available := Holding(BalanceOf(t.balances, owner));
            && (Perform(cfg, t, owner, SpendRCW(amount, memo), ts).result.Ok? <==> 0 < amount <= available)
            && (Perform(cfg, t, owner, TransferRCW(to, amount, memo), ts).result.Ok? <==> 0 < amount <= available)
  {
    assert Supply(GENESIS.tables.balances) == 0;
    ReachableConsistent(cfg, []);
    hide RunFrom, Sum, Supply, Consistent, CreditsIn, Wraps, Perform;
    TokensConserved(cfg, GENESIS, ins, owner);
    MaySpend(cfg, RunFrom(cfg, GENESIS, ins).ledger.tables, owner, to, amount, memo, ts);
  }
}
