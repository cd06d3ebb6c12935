/** What every transaction keeps, and why a failing one leaves nothing behind but its nonce. */
module Invariants {
  import opened Types
  import opened Rules

  predicate MovesDisputeCounts(payload: Payload) {
    payload.RaiseDispute? || payload.VoteDispute?
  }

  predicate MovesSuccesses(payload: Payload) {
    payload.RecordSettlement? || payload.ReleaseEscrow?
  }

  ghost predicate Evolves(t: Tables, t': Tables, counts: bool, successes: bool, ratings: bool) {
    && ParticipantsEvolve(t.participants, t'.participants, counts, successes, ratings)
    && EscrowsEvolve(t, t'.escrows)
  }

  /** Every payload, whether it succeeds or fails, only lets participants and escrows evolve. */
  lemma PerformEvolves(cfg: Config, t: Tables, sender: Id, payload: Payload, ts: i64)
    ensures Evolves(t, Perform(cfg, t, sender, payload, ts).tables, MovesDisputeCounts(payload),
                    MovesSuccesses(payload),
                    payload.RecordRating?)
  {
    hide Register, Update, Deactivate, Settle, Rate, OpenEscrow, Release, Refund, Raise, AddEvidence, Vote, Transfer,
         Spend, Anchor;
  }

  // ── References between tables ──

  ghost predicate PartiesRegistered(t: Tables) {
    forall id | id in t.escrows :: t.escrows[id].buyer in t.participants && t.escrows[id].seller in t.participants
  }

  /** A dispute belongs to a disputed escrow and was raised by one of its parties. */
  predicate DisputeRefers(escrows: map<Id, Escrow>, d: Dispute) {
    && d.escrowId in escrows
    && escrows[d.escrowId].state == Disputed
    && (d.raisedBy == escrows[d.escrowId].buyer || d.raisedBy == escrows[d.escrowId].seller)
  }

  ghost predicate DisputesRefer(t: Tables) {
    forall id | id in t.disputes :: DisputeRefers(t.escrows, t.disputes[id])
  }

  ghost predicate NeverFunded(t: Tables) {
    forall id | id in t.escrows :: t.escrows[id].state != Funded
  }

  ghost predicate Consistent(t: Tables) {
    PartiesRegistered(t) && DisputesRefer(t) && NeverFunded(t)
  }

  /** A failing payload writes nothing: the "not found" errors that follow writes cannot occur. */
  lemma PerformIsAtomic(cfg: Config, t: Tables, sender: Id, payload: Payload, ts: i64)
    requires Consistent(t)
    ensures var o := Perform(cfg, t, sender, payload, ts); o.result.Err? ==> o.tables == t
  {
    hide ParticipantsEvolve, EscrowsEvolve, Incidental, Reports, TokenFree, NoMilestones;
  }

  lemma OnlyTheNonceCheckBlamesTheNonce(cfg: Config, t: Tables, sender: Id, payload: Payload, ts: i64)
    ensures Perform(cfg, t, sender, payload, ts).result != Err(NonceTooLow)
  {
    hide ParticipantsEvolve, EscrowsEvolve, Incidental, Reports, TokenFree, NoMilestones;
  }

  /** The same dispute under `id`, as far as its escrow and its raiser go. */
  predicate SameOrigin(m: map<Id, Dispute>, m': map<Id, Dispute>, id: Id) {
    id in m' ==> id in m && m'[id].escrowId == m[id].escrowId && m'[id].raisedBy == m[id].raisedBy
  }

  lemma RaiseOrigin(t: Tables, did: Id, eid: Id, raiser: Id, reason: DisputeReason, evidence: Hash, ts: i64, id: Id)
    ensures var t' := Raise(t, did, eid, raiser, reason, evidence, ts).tables;
            if id == did && t'.disputes != t.disputes
            then id in t'.disputes ==> DisputeRefers(t'.escrows, t'.disputes[id])
            else SameOrigin(t.disputes, t'.disputes, id)
  {
    hide Penalized, ParticipantsEvolve, EscrowsEvolve, Incidental, TokenFree;
  }

  lemma EvidenceOrigin(t: Tables, sender: Id, did: Id, evidence: Hash, id: Id)
    ensures SameOrigin(t.disputes, AddEvidence(t, sender, did, evidence).tables.disputes, id)
  {
    hide Incidental, TokenFree;
  }

  lemma VoteOrigin(t: Tables, did: Id, voter: Id, decision: DisputeDecision, ts: i64, reward: u64, threshold: u64,
                   id: Id)
    ensures SameOrigin(t.disputes, Vote(t, did, voter, decision, ts, reward, threshold).tables.disputes, id)
  {
    hide Award, Resolution, HasVoted, ParticipantsEvolve, Incidental, NoMilestones;
  }

  /** What one payload does to one dispute: nothing, unless it raises it anew, adds evidence or votes. */
  lemma DisputeStep(cfg: Config, t: Tables, sender: Id, payload: Payload, ts: i64, id: Id)
    ensures var t' := Perform(cfg, t, sender, payload, ts).tables;
            id in t'.disputes ==>
              if payload.RaiseDispute? && payload.disputeId == id && t'.disputes != t.disputes
              then DisputeRefers(t'.escrows, t'.disputes[id])
              else id in t.disputes && t'.disputes[id].escrowId == t.disputes[id].escrowId
                   && t'.disputes[id].raisedBy == t.disputes[id].raisedBy
  {
    hide Register, Update, Deactivate, Settle, Rate, OpenEscrow, Release, Refund, Raise, AddEvidence, Vote, Transfer,
         Spend, Anchor, DisputeRefers, ParticipantsEvolve, EscrowsEvolve, Incidental, Reports, TokenFree;
    match payload {
      case RaiseDispute(did, eid, reason, evidence) => RaiseOrigin(t, did, eid, sender, reason, evidence, ts, id);
      case SubmitEvidence(did, evidence) => EvidenceOrigin(t, sender, did, evidence, id);
      case VoteDispute(did, decision) =>
        VoteOrigin(t, did, sender, decision, ts, cfg.disputeReward, cfg.voteThreshold, id);
      case _ =>
    }
  }

  lemma PerformKeepsConsistent(cfg: Config, t: Tables, sender: Id, payload: Payload, ts: i64)
    requires Consistent(t)
    ensures Consistent(Perform(cfg, t, sender, payload, ts).tables)
  {
    hide Perform;
    PerformEvolves(cfg, t, sender, payload, ts);
    var t' := Perform(cfg, t, sender, payload, ts).tables;
    forall id | id in t'.disputes ensures DisputeRefers(t'.escrows, t'.disputes[id]) {
      DisputeStep(cfg, t, sender, payload, ts, id);
    }
  }
}
