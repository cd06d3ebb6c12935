/** Where the records of a reachable state come from: every field of every stored record is traced to the successful
    transaction of the run that wrote it. */
module Provenance {
  import opened Types
  import opened Rules
  import opened Invariants
  import opened History

  /** A successful transaction: the tables it found, who sent it, what it said and when. */
  datatype Act = Act(tables: Tables, sender: Id, payload: Payload, ts: i64)

  /** The successful transactions of a run, in order. */
  function Successes(cfg: Config, ins: seq<Input>): seq<Act> {
    if ins == [] then []
    else
      var before, last := RunFrom(cfg, GENESIS, ins[..|ins| - 1]).ledger, ins[|ins| - 1];
      Successes(cfg, ins[..|ins| - 1])
      + if Execute(cfg, before, last.tx, last.ts).result.Ok?
        then [Act(before.tables, last.tx.sender, last.tx.payload, last.ts)] else []
  }

  // ── The last transaction of a kind ──

  datatype Kind =
    | Registers | Describes | Deactivates | Touches
    | Settles
    | Creates | Releases | Refunds | Contests
    | Raises
    | Anchors

  predicate IsParty(t: Tables, eid: Id, id: Id) {
    eid in t.escrows && (t.escrows[eid].buyer == id || t.escrows[eid].seller == id)
  }

  /** Activity of participant `id`: what it sends about itself, ratings it gets, releases on either side, refunds it
      has to give as the seller. */
  predicate IsActivity(a: Act, id: Id) {
    match a.payload
    case RegisterParticipant(pid, _, _) => pid == id
    case UpdateParticipant(pid, _) => pid == id
    case RecordSettlement(pid, _) => pid == id
    case RecordRating(pid, _, _) => pid == id
    case ReleaseEscrow(eid, _) => IsParty(a.tables, eid, id)
    case RefundEscrow(eid) => eid in a.tables.escrows && a.tables.escrows[eid].seller == id
    case _ => false
  }

  /** The act is of this kind, on the record stored under `id`. */
  predicate Is(a: Act, kind: Kind, id: Id) {
    match kind
    case Registers => a.payload.RegisterParticipant? && a.payload.id == id
    case Describes => (a.payload.RegisterParticipant? || a.payload.UpdateParticipant?) && a.payload.id == id
    case Deactivates => a.payload.DeactivateParticipant? && a.payload.id == id
    case Touches => IsActivity(a, id)
    case Settles => a.payload.RecordSettlement? && a.payload.record.recordId == id
    case Creates => a.payload.CreateEscrow? && a.payload.escrowId == id
    case Releases => a.payload.ReleaseEscrow? && a.payload.escrowId == id
    case Refunds => a.payload.RefundEscrow? && a.payload.escrowId == id
    case Contests => a.payload.RaiseDispute? && a.payload.escrowId == id
    case Raises => a.payload.RaiseDispute? && a.payload.disputeId == id
    case Anchors => a.payload.AnchorMerkleRoot? && a.payload.batchId == id
  }

  function Last(acts: seq<Act>, kind: Kind, id: Id): (r: Option<Act>)
    ensures r.Some? ==> r.value in acts && Is(r.value, kind, id)
    ensures r.None? <==> forall a | a in acts :: !Is(a, kind, id)
  {
    if acts == [] then None
    else if Is(acts[|acts| - 1], kind, id) then Some(acts[|acts| - 1])
    else Last(acts[..|acts| - 1], kind, id)
  }

  lemma LastNext(acts: seq<Act>, a: Act, kind: Kind, id: Id)
    ensures Last(acts + [a], kind, id) == if Is(a, kind, id) then Some(a) else Last(acts, kind, id)
  {
    assert (acts + [a])[..|acts + [a]| - 1] == acts;
  }

  // ── What is traced ──

  /** What is said about a participant, apart from its counters. */
  datatype Profile = Profile(id: Id, pType: u8, metadata: Text, registeredAt: i64, lastActivityAt: i64, isActive: bool)

  function ProfileOf(m: map<Id, Participant>, id: Id): Option<Profile> {
    if id !in m then None
    else Some(Profile(m[id].id, m[id].pType, m[id].metadata, m[id].registeredAt, m[id].lastActivityAt, m[id].isActive))
  }

  /** The participant stored under `id` registered itself, and every descriptive field is as last written. */
  predicate ParticipantTraced(acts: seq<Act>, m: map<Id, Participant>, id: Id) {
    ProfileFrom(ProfileOf(m, id), id, Last(acts, Registers, id), Last(acts, Describes, id),
                Last(acts, Kind.Deactivates, id), Last(acts, Touches, id))
  }

  predicate ProfileFrom(stored: Option<Profile>, id: Id, registered: Option<Act>, described: Option<Act>,
                        deactivated: Option<Act>, touched: Option<Act>)
    requires registered.Some? ==> Is(registered.value, Registers, id)
    requires described.Some? ==> Is(described.value, Describes, id)
  {
    if registered.None? then stored.None? && described.None? && deactivated.None?
    else
      && stored.Some? && described.Some? && touched.Some?
      && registered.value.sender == id
      && stored.value == Profile(id, registered.value.payload.pType.Code(), described.value.payload.metadata,
                                 registered.value.ts, touched.value.ts, deactivated.None?)
  }

  /** The settlement stored under `id` is the one recorded last under that id, whoever recorded it. */
  predicate SettlementTraced(acts: seq<Act>, m: map<Id, SettlementRecord>, id: Id) {
    SettlementFrom(Lookup(m, id), id, Last(acts, Settles, id))
  }

  predicate SettlementFrom(stored: Option<SettlementRecord>, id: Id, settled: Option<Act>)
    requires settled.Some? ==> Is(settled.value, Settles, id)
  {
    match settled
    case None => stored.None?
    case Some(a) =>
      && a.payload.participantId == a.sender
      && var data := a.payload.record;
      && stored == Some(SettlementRecord(id, a.sender, data.grossAmount, data.platformFee, data.netAmount,
                                         data.currency, data.settledAt, a.ts))
  }

  /** The escrow stored under `id` was created by its buyer, and released, refunded or contested if and only if there
      was such a transaction. */
  predicate EscrowTraced(acts: seq<Act>, m: map<Id, Escrow>, id: Id) {
    EscrowFrom(Lookup(m, id), id, Last(acts, Creates, id), Last(acts, Releases, id), Last(acts, Refunds, id),
               Last(acts, Contests, id))
  }

  predicate EscrowFrom(stored: Option<Escrow>, id: Id, created: Option<Act>, released: Option<Act>,
                       refunded: Option<Act>, contested: Option<Act>)
    requires created.Some? ==> Is(created.value, Creates, id)
    requires released.Some? ==> Is(released.value, Releases, id)
    requires contested.Some? ==> Is(contested.value, Contests, id)
  {
    if created.None? then stored.None? && released.None? && refunded.None? && contested.None?
    else
      && stored.Some?
      && var c, e := created.value, stored.value;
      && e.id == id && e.buyer == c.sender == c.payload.buyer && e.seller == c.payload.seller
      && e.amount == c.payload.amount && e.createdAt == c.ts && e.expiresAt == c.payload.expiresAt
      && (e.state == Released <==> released.Some?)
      && (e.state == EscrowState.Refunded <==> refunded.Some?)
      && (e.state == Disputed <==> contested.Some?)
      && e.state != Funded
      && (e.evidenceHash == if released.Some? then Some(released.value.payload.evidenceHash) else None)
      && (e.disputeId == if contested.Some? then Some(contested.value.payload.disputeId) else None)
      && (released.Some? ==> released.value.sender == e.buyer && released.value.ts <= e.expiresAt)
      && (refunded.Some? ==> refunded.value.sender == e.buyer || refunded.value.ts > e.expiresAt)
      && (contested.Some? ==> contested.value.sender == e.buyer || contested.value.sender == e.seller)
  }

  /** The batch stored under `id` is the one a platform key anchored. */
  predicate AnchorTraced(platformKeys: seq<Id>, acts: seq<Act>, m: map<Id, AnchorRecord>, id: Id) {
    AnchorFrom(platformKeys, Lookup(m, id), id, Last(acts, Anchors, id))
  }

  predicate AnchorFrom(platformKeys: seq<Id>, stored: Option<AnchorRecord>, id: Id, anchored: Option<Act>)
    requires anchored.Some? ==> Is(anchored.value, Anchors, id)
  {
    match anchored
    case None => stored.None?
    case Some(a) =>
      && a.sender in platformKeys
      && stored == Some(AnchorRecord(id, a.payload.merkleRoot, a.payload.entryCount, a.payload.fromEntryId,
                                     a.payload.toEntryId, a.ts))
  }

  // ── Disputes ──

  /** The evidence submitted on a dispute since it was last raised, the raiser's first. */
  function EvidenceIn(acts: seq<Act>, did: Id): seq<Hash> {
    if acts == [] then []
    else
      var before, a := EvidenceIn(acts[..|acts| - 1], did), acts[|acts| - 1];
      if Is(a, Raises, did) then [a.payload.evidenceHash]
      else if a.payload.SubmitEvidence? && a.payload.disputeId == did then before + [a.payload.evidenceHash]
      else before
  }

  /** The votes cast on it since then. */
  function VotesIn(acts: seq<Act>, did: Id): seq<Act> {
    if acts == [] then []
    else
      var before, a := VotesIn(acts[..|acts| - 1], did), acts[|acts| - 1];
      if Is(a, Raises, did) then []
      else if a.payload.VoteDispute? && a.payload.disputeId == did then before + [a]
      else before
  }

  lemma DisputeActsNext(acts: seq<Act>, a: Act, did: Id)
    ensures EvidenceIn(acts + [a], did)
         == if Is(a, Raises, did) then [a.payload.evidenceHash]
            else if a.payload.SubmitEvidence? && a.payload.disputeId == did
            then EvidenceIn(acts, did) + [a.payload.evidenceHash]
            else EvidenceIn(acts, did)
    ensures VotesIn(acts + [a], did)
         == if Is(a, Raises, did) then []
            else if a.payload.VoteDispute? && a.payload.disputeId == did then VotesIn(acts, did) + [a]
            else VotesIn(acts, did)
  {
    assert (acts + [a])[..|acts + [a]| - 1] == acts;
  }

  /** The stored vote is the one that was cast. */
  predicate Casts(v: DisputeVote, a: Act) {
    a.payload.VoteDispute? && v == DisputeVote(a.sender, a.payload.decision.Code(), a.ts)
  }

  ghost predicate VotesTraced(votes: seq<DisputeVote>, cast: seq<Act>) {
    |votes| == |cast| && forall i | 0 <= i < |votes| :: Casts(votes[i], cast[i])
  }

  /** The dispute stored under `id` is the one raised last under that id, with the evidence and the votes since then. */
  ghost predicate DisputeTraced(acts: seq<Act>, m: map<Id, Dispute>, id: Id) {
    DisputeFrom(Lookup(m, id), id, Last(acts, Raises, id), EvidenceIn(acts, id), VotesIn(acts, id))
  }

  ghost predicate DisputeFrom(stored: Option<Dispute>, id: Id, raised: Option<Act>, evidence: seq<Hash>, cast: seq<Act>)
    requires raised.Some? ==> Is(raised.value, Raises, id)
  {
    if raised.None? then stored.None?
    else
      && stored.Some?
      && var a, d := raised.value, stored.value;
      && d.id == id && d.escrowId == a.payload.escrowId && d.raisedBy == a.sender
      && d.reason == a.payload.reason.Code() && d.raisedAt == a.ts
      && d.evidenceHashes == evidence && |evidence| >= 1
      && VotesTraced(d.votes, cast)
      && (d.state == Raised <==> cast == [] && |evidence| == 1)
      && (d.state == Evidence <==> cast == [] && |evidence| > 1)
      && (d.state == Resolved ==> cast != [] && d.resolvedAt == Some(cast[|cast| - 1].ts))
  }

  ghost predicate Traced(platformKeys: seq<Id>, acts: seq<Act>, t: Tables, id: Id) {
    && ParticipantTraced(acts, t.participants, id)
    && SettlementTraced(acts, t.settlements, id)
    && EscrowTraced(acts, t.escrows, id)
    && DisputeTraced(acts, t.disputes, id)
    && AnchorTraced(platformKeys, acts, t.anchors, id)
  }

  // ── One act, participants ──

  function TouchedAt(p: Option<Profile>, ts: i64): Option<Profile> {
    if p.None? then None else Some(p.value.(lastActivityAt := ts))
  }

  lemma SettleProfile(t: Tables, sender: Id, pid: Id, data: SettlementData, ts: i64, reward: u64, id: Id)
    requires Settle(t, sender, pid, data, ts, reward).result.Ok?
    ensures pid in t.participants
    ensures var p := ProfileOf(t.participants, id);
            ProfileOf(Settle(t, sender, pid, data, ts, reward).tables.participants, id)
            == if id == pid then TouchedAt(p, ts) else p
  {
    hide ParticipantsEvolve, Reports, NoMilestones;
  }

  lemma RateProfile(t: Tables, pid: Id, rating: u16, success: bool, ts: i64, reward: u64, id: Id)
    requires Rate(t, pid, rating, success, ts, reward).result.Ok?
    ensures pid in t.participants
    ensures var p := ProfileOf(t.participants, id);
            ProfileOf(Rate(t, pid, rating, success, ts, reward).tables.participants, id)
            == if id == pid then TouchedAt(p, ts) else p
  {
    hide ParticipantsEvolve, Incidental, NoMilestones, TrustScore.ComputeTrustScore;
  }

  lemma ReleaseProfile(t: Tables, sender: Id, eid: Id, evidence: Hash, ts: i64, reward: u64, id: Id)
    requires Release(t, sender, eid, evidence, ts, reward).result.Ok?
    ensures IsParty(t, eid, id) ==> id in t.participants
    ensures var p := ProfileOf(t.participants, id);
            ProfileOf(Release(t, sender, eid, evidence, ts, reward).tables.participants, id)
            == if IsParty(t, eid, id) then TouchedAt(p, ts) else p
  {
    hide ParticipantsEvolve, EscrowsEvolve, Reports, NoMilestones;
  }

  lemma RefundProfile(t: Tables, sender: Id, eid: Id, ts: i64, id: Id)
    requires Refund(t, sender, eid, ts).result.Ok?
    ensures eid in t.escrows && t.escrows[eid].seller in t.participants
    ensures var p := ProfileOf(t.participants, id);
            ProfileOf(Refund(t, sender, eid, ts).tables.participants, id)
            == if t.escrows[eid].seller == id then TouchedAt(p, ts) else p
  {
    hide ParticipantsEvolve, EscrowsEvolve, Reports, NoMilestones, TokenFree;
  }

  lemma PenaltyProfile(t: Tables, other: Id, amount: u64, id: Id)
    ensures ProfileOf(Penalized(t, other, amount).participants, id) == ProfileOf(t.participants, id)
  {
  }

  lemma RaiseProfile(t: Tables, did: Id, eid: Id, raiser: Id, reason: DisputeReason, evidence: Hash, ts: i64, id: Id)
    requires Raise(t, did, eid, raiser, reason, evidence, ts).result.Ok?
    ensures ProfileOf(Raise(t, did, eid, raiser, reason, evidence, ts).tables.participants, id)
         == ProfileOf(t.participants, id)
  {
    hide ParticipantsEvolve, EscrowsEvolve, Incidental, NoMilestones, TokenFree;
  }

  lemma WinProfile(t: Tables, winner: Id, raisedByOther: bool, id: Id)
    ensures ProfileOf(WonBy(t, winner, raisedByOther).participants, id) == ProfileOf(t.participants, id)
  {
  }

  lemma AwardProfile(t: Tables, d: Dispute, e: Escrow, resolution: u8, reward: u64, id: Id)
    ensures ProfileOf(Award(t, d, e, resolution, reward).tables.participants, id) == ProfileOf(t.participants, id)
  {
    hide ParticipantsEvolve, NoMilestones, WonBy, Penalized, ProfileOf;
    var winner := if resolution == 0 then e.buyer else e.seller;
    var loser := if resolution == 0 then e.seller else e.buyer;
    WinProfile(t, winner, d.raisedBy != winner, id);
    PenaltyProfile(WonBy(t, winner, d.raisedBy != winner), loser, if d.raisedBy == loser then 2 else 1, id);
  }

  lemma VoteProfile(t: Tables, did: Id, voter: Id, decision: DisputeDecision, ts: i64, reward: u64, threshold: u64,
                    id: Id)
    requires Vote(t, did, voter, decision, ts, reward, threshold).result.Ok?
    ensures ProfileOf(Vote(t, did, voter, decision, ts, reward, threshold).tables.participants, id)
         == ProfileOf(t.participants, id)
  {
    hide ParticipantsEvolve, Incidental, NoMilestones, Award, Resolution, HasVoted, ProfileOf;
    var d := t.disputes[did];
    var d1 := d.(state := Voting, votes := d.votes + [DisputeVote(voter, decision.Code(), ts)]);
    if |d1.votes| >= threshold {
      var res := Resolution(d1.votes);
      var d' := d1.(state := Resolved, resolution := Some(res), resolvedAt := Some(ts));
      if res != 2 {
        AwardProfile(t, d', t.escrows[d.escrowId], res, reward, id);
      }
    }
  }

  /** How a successful payload changes what is said about a participant. */
  predicate ProfileChanges(a: Act, id: Id, p: Option<Profile>, p': Option<Profile>) {
    if Is(a, Registers, id) then
      a.sender == id && p.None?
      && p' == Some(Profile(id, a.payload.pType.Code(), a.payload.metadata, a.ts, a.ts, true))
    else if Is(a, Describes, id) then
      p.Some? && p' == Some(p.value.(metadata := a.payload.metadata, lastActivityAt := a.ts))
    else if Is(a, Kind.Deactivates, id) then p.Some? && p' == Some(p.value.(isActive := false))
    else if Is(a, Touches, id) then p.Some? && p' == Some(p.value.(lastActivityAt := a.ts))
    else p' == p
  }

  lemma ProfileStep(cfg: Config, a: Act, id: Id)
    requires Perform(cfg, a.tables, a.sender, a.payload, a.ts).result.Ok?
    ensures ProfileChanges(a, id, ProfileOf(a.tables.participants, id),
                           ProfileOf(Perform(cfg, a.tables, a.sender, a.payload, a.ts).tables.participants, id))
  {
    hide Settle, Rate, OpenEscrow, Release, Refund, Raise, AddEvidence, Vote, Transfer, Spend, Anchor,
         ParticipantsEvolve, EscrowsEvolve, TokenFree, Incidental, Reports;
    var t, ts := a.tables, a.ts;
    match a.payload {
      case RecordSettlement(pid, data) => SettleProfile(t, a.sender, pid, data, ts, cfg.settlementReward, id);
      case RecordRating(pid, rating, success) => RateProfile(t, pid, rating, success, ts, cfg.ratingReward, id);
      case ReleaseEscrow(eid, evidence) => ReleaseProfile(t, a.sender, eid, evidence, ts, cfg.escrowReward, id);
      case RefundEscrow(eid) => RefundProfile(t, a.sender, eid, ts, id);
      case RaiseDispute(did, eid, reason, evidence) => RaiseProfile(t, did, eid, a.sender, reason, evidence, ts, id);
      case VoteDispute(did, decision) =>
        VoteProfile(t, did, a.sender, decision, ts, cfg.disputeReward, cfg.voteThreshold, id);
      case _ =>
    }
  }

  lemma ProfileFromStep(a: Act, id: Id, p: Option<Profile>, p': Option<Profile>, registered: Option<Act>,
                        described: Option<Act>, deactivated: Option<Act>, touched: Option<Act>)
    requires registered.Some? ==> Is(registered.value, Registers, id)
    requires described.Some? ==> Is(described.value, Describes, id)
    requires ProfileFrom(p, id, registered, described, deactivated, touched) && ProfileChanges(a, id, p, p')
    ensures ProfileFrom(p', id, if Is(a, Registers, id) then Some(a) else registered,
                        if Is(a, Describes, id) then Some(a) else described,
                        if Is(a, Kind.Deactivates, id) then Some(a) else deactivated,
                        if Is(a, Touches, id) then Some(a) else touched)
  {
  }

  lemma ParticipantTracedStep(cfg: Config, acts: seq<Act>, a: Act, id: Id)
    requires Perform(cfg, a.tables, a.sender, a.payload, a.ts).result.Ok?
    requires ParticipantTraced(acts, a.tables.participants, id)
    ensures ParticipantTraced(acts + [a], Perform(cfg, a.tables, a.sender, a.payload, a.ts).tables.participants, id)
  {
    ProfileStep(cfg, a, id);
    hide Perform, Last, Is, ProfileFrom, ProfileChanges, ProfileOf;
    LastNext(acts, a, Registers, id);
    LastNext(acts, a, Describes, id);
    LastNext(acts, a, Kind.Deactivates, id);
    LastNext(acts, a, Touches, id);
    ProfileFromStep(a, id, ProfileOf(a.tables.participants, id),
                    ProfileOf(Perform(cfg, a.tables, a.sender, a.payload, a.ts).tables.participants, id),
                    Last(acts, Registers, id), Last(acts, Describes, id), Last(acts, Kind.Deactivates, id),
                    Last(acts, Touches, id));
  }

  // ── One act, escrows ──

  /** The four transactions that write an escrow: when they succeed, and what they write. */
  predicate EscrowChanges(a: Act, e: Option<Escrow>, e': Option<Escrow>) {
    match a.payload
    case CreateEscrow(eid, buyer, seller, amount, expiresAt) =>
      && e.None? && a.sender == buyer
      && e' == Some(Escrow(eid, buyer, seller, amount, Created, a.ts, expiresAt, None, None))
    case ReleaseEscrow(_, evidence) =>
      && e.Some? && a.sender == e.value.buyer && IsOpen(e.value.state) && a.ts <= e.value.expiresAt
      && e' == Some(e.value.(state := Released, evidenceHash := Some(evidence)))
    case RefundEscrow(_) =>
      && e.Some? && (a.sender == e.value.buyer || a.ts > e.value.expiresAt) && IsOpen(e.value.state)
      && e' == Some(e.value.(state := EscrowState.Refunded))
    case RaiseDispute(did, _, _, _) =>
      && e.Some? && (a.sender == e.value.buyer || a.sender == e.value.seller)
      && e.value.state != Released && e.value.state != EscrowState.Refunded
      && e' == Some(e.value.(state := Disputed, disputeId := Some(did)))
    case _ => false
  }

  predicate IsOpen(s: EscrowState) {
    s == Created || s == Funded
  }

  predicate WritesEscrow(a: Act, id: Id) {
    Is(a, Creates, id) || Is(a, Releases, id) || Is(a, Refunds, id) || Is(a, Contests, id)
  }

  lemma OpenWrites(t: Tables, sender: Id, eid: Id, buyer: Id, seller: Id, amount: u64, expiresAt: i64, ts: i64, id: Id)
    requires OpenEscrow(t, sender, eid, buyer, seller, amount, expiresAt, ts).result.Ok?
    ensures var a := Act(t, sender, CreateEscrow(eid, buyer, seller, amount, expiresAt), ts);
            var m' := OpenEscrow(t, sender, eid, buyer, seller, amount, expiresAt, ts).tables.escrows;
            if id == eid then EscrowChanges(a, Lookup(t.escrows, id), Lookup(m', id))
            else Lookup(m', id) == Lookup(t.escrows, id)
  {
    hide EscrowsEvolve, TokenFree, Incidental;
  }

  lemma ReleaseWrites(t: Tables, sender: Id, eid: Id, evidence: Hash, ts: i64, reward: u64, id: Id)
    requires Release(t, sender, eid, evidence, ts, reward).result.Ok?
    ensures var a := Act(t, sender, ReleaseEscrow(eid, evidence), ts);
            var m' := Release(t, sender, eid, evidence, ts, reward).tables.escrows;
            if id == eid then EscrowChanges(a, Lookup(t.escrows, id), Lookup(m', id))
            else Lookup(m', id) == Lookup(t.escrows, id)
  {
    hide ParticipantsEvolve, EscrowsEvolve, Reward, Succeeded, Reports, NoMilestones;
  }

  lemma RefundWrites(t: Tables, sender: Id, eid: Id, ts: i64, id: Id)
    requires Refund(t, sender, eid, ts).result.Ok?
    ensures var a := Act(t, sender, RefundEscrow(eid), ts);
            var m' := Refund(t, sender, eid, ts).tables.escrows;
            if id == eid then EscrowChanges(a, Lookup(t.escrows, id), Lookup(m', id))
            else Lookup(m', id) == Lookup(t.escrows, id)
  {
    hide ParticipantsEvolve, EscrowsEvolve, TokenFree, Reports, NoMilestones;
  }

  lemma RaiseWrites(t: Tables, did: Id, eid: Id, raiser: Id, reason: DisputeReason, evidence: Hash, ts: i64, id: Id)
    requires Raise(t, did, eid, raiser, reason, evidence, ts).result.Ok?
    ensures var a := Act(t, raiser, RaiseDispute(did, eid, reason, evidence), ts);
            var m' := Raise(t, did, eid, raiser, reason, evidence, ts).tables.escrows;
            if id == eid then EscrowChanges(a, Lookup(t.escrows, id), Lookup(m', id))
            else Lookup(m', id) == Lookup(t.escrows, id)
  {
    hide ParticipantsEvolve, EscrowsEvolve, Penalized, TokenFree, Incidental, NoMilestones;
  }

  lemma EscrowStep(cfg: Config, a: Act, id: Id)
    requires Perform(cfg, a.tables, a.sender, a.payload, a.ts).result.Ok?
    ensures var e := Lookup(a.tables.escrows, id);
            var e' := Lookup(Perform(cfg, a.tables, a.sender, a.payload, a.ts).tables.escrows, id);
            if WritesEscrow(a, id) then EscrowChanges(a, e, e') else e' == e
  {
    hide Register, Update, Deactivate, Settle, Rate, OpenEscrow, Release, Refund, Raise, AddEvidence, Vote, Transfer,
         Spend, Anchor, ParticipantsEvolve, EscrowsEvolve, TokenFree, Incidental, Reports, Lookup, EscrowChanges,
         IsActivity;
    match a.payload {
      case CreateEscrow(eid, buyer, seller, amount, expiresAt) =>
        OpenWrites(a.tables, a.sender, eid, buyer, seller, amount, expiresAt, a.ts, id);
      case ReleaseEscrow(eid, evidence) =>
        ReleaseWrites(a.tables, a.sender, eid, evidence, a.ts, cfg.escrowReward, id);
      case RefundEscrow(eid) => RefundWrites(a.tables, a.sender, eid, a.ts, id);
      case RaiseDispute(did, eid, reason, evidence) =>
        RaiseWrites(a.tables, did, eid, a.sender, reason, evidence, a.ts, id);
      case _ =>
    }
  }

  lemma EscrowFromStep(a: Act, id: Id, e: Option<Escrow>, e': Option<Escrow>, created: Option<Act>,
                       released: Option<Act>, refunded: Option<Act>, contested: Option<Act>)
    requires created.Some? ==> Is(created.value, Creates, id)
    requires released.Some? ==> Is(released.value, Releases, id)
    requires contested.Some? ==> Is(contested.value, Contests, id)
    requires EscrowFrom(e, id, created, released, refunded, contested)
    requires WritesEscrow(a, id) && EscrowChanges(a, e, e')
    ensures EscrowFrom(e', id, if Is(a, Creates, id) then Some(a) else created,
                       if Is(a, Releases, id) then Some(a) else released,
                       if Is(a, Refunds, id) then Some(a) else refunded,
                       if Is(a, Contests, id) then Some(a) else contested)
  {
    hide IsActivity;
  }

  lemma EscrowTracedStep(cfg: Config, acts: seq<Act>, a: Act, id: Id)
    requires Perform(cfg, a.tables, a.sender, a.payload, a.ts).result.Ok?
    requires EscrowTraced(acts, a.tables.escrows, id)
    ensures EscrowTraced(acts + [a], Perform(cfg, a.tables, a.sender, a.payload, a.ts).tables.escrows, id)
  {
    EscrowStep(cfg, a, id);
    hide Perform, Last, Is, EscrowFrom, EscrowChanges, Lookup;
    LastNext(acts, a, Creates, id);
    LastNext(acts, a, Releases, id);
    LastNext(acts, a, Refunds, id);
    LastNext(acts, a, Contests, id);
    if WritesEscrow(a, id) {
      EscrowFromStep(a, id, Lookup(a.tables.escrows, id),
                     Lookup(Perform(cfg, a.tables, a.sender, a.payload, a.ts).tables.escrows, id),
                     Last(acts, Creates, id), Last(acts, Releases, id), Last(acts, Refunds, id),
                     Last(acts, Contests, id));
    }
  }

  // ── One act, disputes ──

  /** The three transactions that write a dispute, and what they write. */
  predicate DisputeChanges(a: Act, d: Option<Dispute>, d': Option<Dispute>) {
    match a.payload
    case RaiseDispute(did, eid, reason, evidence) =>
      d' == Some(Dispute(did, eid, a.sender, reason.Code(), [evidence], [], Raised, None, a.ts, None))
    case SubmitEvidence(_, evidence) =>
      && d.Some? && (d.value.state == Raised || d.value.state == Evidence)
      && d' == Some(d.value.(state := Evidence, evidenceHashes := d.value.evidenceHashes + [evidence]))
    case VoteDispute(_, decision) =>
      && d.Some? && d.value.state != Resolved
      && d'.Some? && (d'.value.state == Voting || (d'.value.state == Resolved && d'.value.resolvedAt == Some(a.ts)))
      && d'.value == d.value.(state := d'.value.state, resolution := d'.value.resolution,
                              resolvedAt := d'.value.resolvedAt,
                              votes := d.value.votes + [DisputeVote(a.sender, decision.Code(), a.ts)])
    case _ => false
  }

  predicate WritesDispute(a: Act, id: Id) {
    (a.payload.RaiseDispute? || a.payload.SubmitEvidence? || a.payload.VoteDispute?) && a.payload.disputeId == id
  }

  lemma RaiseWritesDispute(t: Tables, did: Id, eid: Id, raiser: Id, reason: DisputeReason, evidence: Hash, ts: i64,
                           id: Id)
    requires Raise(t, did, eid, raiser, reason, evidence, ts).result.Ok?
    ensures var a := Act(t, raiser, RaiseDispute(did, eid, reason, evidence), ts);
            var m' := Raise(t, did, eid, raiser, reason, evidence, ts).tables.disputes;
            if id == did then DisputeChanges(a, Lookup(t.disputes, id), Lookup(m', id))
            else Lookup(m', id) == Lookup(t.disputes, id)
  {
    hide ParticipantsEvolve, EscrowsEvolve, Penalized, TokenFree, Incidental, NoMilestones;
  }

  lemma EvidenceWritesDispute(t: Tables, sender: Id, did: Id, evidence: Hash, ts: i64, id: Id)
    requires AddEvidence(t, sender, did, evidence).result.Ok?
    ensures var a := Act(t, sender, SubmitEvidence(did, evidence), ts);
            var m' := AddEvidence(t, sender, did, evidence).tables.disputes;
            if id == did then DisputeChanges(a, Lookup(t.disputes, id), Lookup(m', id))
            else Lookup(m', id) == Lookup(t.disputes, id)
  {
    hide TokenFree, Incidental;
  }

  lemma VoteWritesDispute(t: Tables, did: Id, voter: Id, decision: DisputeDecision, ts: i64, reward: u64,
                          threshold: u64, id: Id)
    requires Vote(t, did, voter, decision, ts, reward, threshold).result.Ok?
    ensures var a := Act(t, voter, VoteDispute(did, decision), ts);
            var m' := Vote(t, did, voter, decision, ts, reward, threshold).tables.disputes;
            if id == did then DisputeChanges(a, Lookup(t.disputes, id), Lookup(m', id))
            else Lookup(m', id) == Lookup(t.disputes, id)
  {
    hide ParticipantsEvolve, Award, Resolution, HasVoted, Incidental, NoMilestones;
  }

  lemma DisputeStep(cfg: Config, a: Act, id: Id)
    requires Perform(cfg, a.tables, a.sender, a.payload, a.ts).result.Ok?
    ensures var d := Lookup(a.tables.disputes, id);
            var d' := Lookup(Perform(cfg, a.tables, a.sender, a.payload, a.ts).tables.disputes, id);
            if WritesDispute(a, id) then DisputeChanges(a, d, d') else d' == d
  {
    hide Register, Update, Deactivate, Settle, Rate, OpenEscrow, Release, Refund, Raise, AddEvidence, Vote, Transfer,
         Spend, Anchor, ParticipantsEvolve, EscrowsEvolve, TokenFree, Incidental, Reports, Lookup, DisputeChanges;
    match a.payload {
      case RaiseDispute(did, eid, reason, evidence) =>
        RaiseWritesDispute(a.tables, did, eid, a.sender, reason, evidence, a.ts, id);
      case SubmitEvidence(did, evidence) => EvidenceWritesDispute(a.tables, a.sender, did, evidence, a.ts, id);
      case VoteDispute(did, decision) =>
        VoteWritesDispute(a.tables, did, a.sender, decision, a.ts, cfg.disputeReward, cfg.voteThreshold, id);
      case _ =>
    }
  }

  /** What the act adds to the evidence and the votes. */
  lemma DisputeFromStep(a: Act, id: Id, d: Option<Dispute>, d': Option<Dispute>, raised: Option<Act>,
                        evidence: seq<Hash>, cast: seq<Act>)
    requires raised.Some? ==> Is(raised.value, Raises, id)
    requires DisputeFrom(d, id, raised, evidence, cast) && WritesDispute(a, id) && DisputeChanges(a, d, d')
    ensures match a.payload
            case RaiseDispute(_, _, _, hash) => DisputeFrom(d', id, Some(a), [hash], [])
            case SubmitEvidence(_, hash) => DisputeFrom(d', id, raised, evidence + [hash], cast)
            case VoteDispute(_, _) => DisputeFrom(d', id, raised, evidence, cast + [a])
            case _ => true
  {
    hide IsActivity;
  }

  lemma DisputeTracedStep(cfg: Config, acts: seq<Act>, a: Act, id: Id)
    requires Perform(cfg, a.tables, a.sender, a.payload, a.ts).result.Ok?
    requires DisputeTraced(acts, a.tables.disputes, id)
    ensures DisputeTraced(acts + [a], Perform(cfg, a.tables, a.sender, a.payload, a.ts).tables.disputes, id)
  {
    DisputeStep(cfg, a, id);
    hide Perform, Last, EvidenceIn, VotesIn, DisputeFrom, DisputeChanges, Lookup, IsActivity;
    LastNext(acts, a, Kind.Raises, id);
    DisputeActsNext(acts, a, id);
    if WritesDispute(a, id) {
      DisputeFromStep(a, id, Lookup(a.tables.disputes, id),
                      Lookup(Perform(cfg, a.tables, a.sender, a.payload, a.ts).tables.disputes, id),
                      Last(acts, Kind.Raises, id), EvidenceIn(acts, id), VotesIn(acts, id));
    }
  }

  // ── One act, settlements and anchors ──

  lemma SettleWrites(t: Tables, sender: Id, pid: Id, data: SettlementData, ts: i64, reward: u64, id: Id)
    requires Settle(t, sender, pid, data, ts, reward).result.Ok?
    ensures var a := Act(t, sender, RecordSettlement(pid, data), ts);
            var m' := Settle(t, sender, pid, data, ts, reward).tables.settlements;
            if id == data.recordId then SettlementFrom(Lookup(m', id), id, Some(a))
            else Lookup(m', id) == Lookup(t.settlements, id)
  {
    hide ParticipantsEvolve, Reports, NoMilestones;
  }

  lemma SettlementStep(cfg: Config, a: Act, id: Id)
    requires Perform(cfg, a.tables, a.sender, a.payload, a.ts).result.Ok?
    ensures var m, m' := a.tables.settlements, Perform(cfg, a.tables, a.sender, a.payload, a.ts).tables.settlements;
            if Is(a, Settles, id) then SettlementFrom(Lookup(m', id), id, Some(a)) else Lookup(m', id) == Lookup(m, id)
  {
    hide Register, Update, Deactivate, Settle, Rate, OpenEscrow, Release, Refund, Raise, AddEvidence, Vote, Transfer,
         Spend, Anchor, ParticipantsEvolve, EscrowsEvolve, TokenFree, Incidental, Reports, IsActivity, SettlementFrom,
         Lookup;
    if a.payload.RecordSettlement? {
      SettleWrites(a.tables, a.sender, a.payload.participantId, a.payload.record, a.ts, cfg.settlementReward, id);
    }
  }

  lemma SettlementTracedStep(cfg: Config, acts: seq<Act>, a: Act, id: Id)
    requires Perform(cfg, a.tables, a.sender, a.payload, a.ts).result.Ok?
    requires SettlementTraced(acts, a.tables.settlements, id)
    ensures SettlementTraced(acts + [a], Perform(cfg, a.tables, a.sender, a.payload, a.ts).tables.settlements, id)
  {
    SettlementStep(cfg, a, id);
    hide Perform, Last, Is, SettlementFrom, Lookup;
    LastNext(acts, a, Settles, id);
  }

  lemma AnchorWrites(t: Tables, sender: Id, r: AnchorRecord, platformKeys: seq<Id>, id: Id)
    requires Anchor(t, sender, r, platformKeys).result.Ok?
    ensures var a := Act(t, sender, AnchorMerkleRoot(r.batchId, r.merkleRoot, r.entryCount, r.fromEntryId,
                                                     r.toEntryId), r.anchoredAt);
            var m' := Anchor(t, sender, r, platformKeys).tables.anchors;
            if id == r.batchId then id !in t.anchors && AnchorFrom(platformKeys, Lookup(m', id), id, Some(a))
            else Lookup(m', id) == Lookup(t.anchors, id)
  {
    hide TokenFree, Incidental;
  }

  lemma AnchorStep(cfg: Config, a: Act, id: Id)
    requires Perform(cfg, a.tables, a.sender, a.payload, a.ts).result.Ok?
    ensures var m, m' := a.tables.anchors, Perform(cfg, a.tables, a.sender, a.payload, a.ts).tables.anchors;
            if Is(a, Anchors, id) then id !in m && AnchorFrom(cfg.platformKeys, Lookup(m', id), id, Some(a))
            else Lookup(m', id) == Lookup(m, id)
  {
    hide Register, Update, Deactivate, Settle, Rate, OpenEscrow, Release, Refund, Raise, AddEvidence, Vote, Transfer,
         Spend, Anchor, ParticipantsEvolve, EscrowsEvolve, TokenFree, Incidental, Reports, IsActivity, AnchorFrom,
         Lookup;
    if a.payload.AnchorMerkleRoot? {
      var p := a.payload;
      AnchorWrites(a.tables, a.sender,
                   AnchorRecord(p.batchId, p.merkleRoot, p.entryCount, p.fromEntryId, p.toEntryId, a.ts),
                   cfg.platformKeys, id);
    }
  }

  lemma AnchorTracedStep(cfg: Config, acts: seq<Act>, a: Act, id: Id)
    requires Perform(cfg, a.tables, a.sender, a.payload, a.ts).result.Ok?
    requires AnchorTraced(cfg.platformKeys, acts, a.tables.anchors, id)
    ensures AnchorTraced(cfg.platformKeys, acts + [a],
                         Perform(cfg, a.tables, a.sender, a.payload, a.ts).tables.anchors, id)
  {
    AnchorStep(cfg, a, id);
    hide Perform, Last, Is, AnchorFrom, Lookup;
    LastNext(acts, a, Anchors, id);
  }

  // ── Runs ──

  lemma TracedStep(cfg: Config, acts: seq<Act>, a: Act, id: Id)
    requires Perform(cfg, a.tables, a.sender, a.payload, a.ts).result.Ok?
    requires Traced(cfg.platformKeys, acts, a.tables, id)
    ensures Traced(cfg.platformKeys, acts + [a], Perform(cfg, a.tables, a.sender, a.payload, a.ts).tables, id)
  {
    hide Perform, ParticipantTraced, SettlementTraced, EscrowTraced, DisputeTraced, AnchorTraced;
    ParticipantTracedStep(cfg, acts, a, id);
    SettlementTracedStep(cfg, acts, a, id);
    EscrowTracedStep(cfg, acts, a, id);
    DisputeTracedStep(cfg, acts, a, id);
    AnchorTracedStep(cfg, acts, a, id);
  }

  /** One more transaction: an act if it succeeds, and nothing but a nonce if it fails. */
  lemma SuccessesNext(cfg: Config, ins: seq<Input>)
    requires ins != []
    ensures var n := |ins| - 1;
            var before, last := RunFrom(cfg, GENESIS, ins[..n]).ledger.tables, ins[n];
            var a := Act(before, last.tx.sender, last.tx.payload, last.ts);
            if Succeeds(cfg, ins, n) then
              && Perform(cfg, before, a.sender, a.payload, a.ts).result.Ok?
              && Successes(cfg, ins) == Successes(cfg, ins[..n]) + [a]
              && RunFrom(cfg, GENESIS, ins).ledger.tables == Perform(cfg, before, a.sender, a.payload, a.ts).tables
            else
              && Successes(cfg, ins) == Successes(cfg, ins[..n])
              && RunFrom(cfg, GENESIS, ins).ledger.tables == before
  {
    hide Perform, Consistent;
    var n := |ins| - 1;
    var before, last := RunFrom(cfg, GENESIS, ins[..n]).ledger, ins[n];
    ReachableConsistent(cfg, ins[..n]);
    PerformIsAtomic(cfg, before.tables, last.tx.sender, last.tx.payload, last.ts);
  }

  /** Every record of every reachable state, in any of the five tables, is what the successful transactions of the run
      wrote, field by field; and where none wrote one, there is none. */
  lemma {:induction false} RecordsAreTraced(cfg: Config, ins: seq<Input>, id: Id)
    ensures Traced(cfg.platformKeys, Successes(cfg, ins), RunFrom(cfg, GENESIS, ins).ledger.tables, id)
  {
    if ins == [] {
    } else {
      hide Traced, Perform, RunFrom, Successes, Succeeds;
      var n := |ins| - 1;
      var before := RunFrom(cfg, GENESIS, ins[..n]).ledger.tables;
      SuccessesNext(cfg, ins);
      RecordsAreTraced(cfg, ins[..n], id);
      if Succeeds(cfg, ins, n) {
        TracedStep(cfg, Successes(cfg, ins[..n]), Act(before, ins[n].tx.sender, ins[n].tx.payload, ins[n].ts), id);
      }
    }
  }

  // ── Written once ──

  function Number(acts: seq<Act>, kind: Kind, id: Id): nat {
    if acts == [] then 0
    else Number(acts[..|acts| - 1], kind, id) + if Is(acts[|acts| - 1], kind, id) then 1 else 0
  }

  predicate Once(acts: seq<Act>, kind: Kind, id: Id, stored: bool) {
    Number(acts, kind, id) == if stored then 1 else 0
  }

  lemma OnceStep(cfg: Config, acts: seq<Act>, a: Act, id: Id)
    requires Perform(cfg, a.tables, a.sender, a.payload, a.ts).result.Ok?
    ensures var t, t' := a.tables, Perform(cfg, a.tables, a.sender, a.payload, a.ts).tables;
            && (Once(acts, Registers, id, id in t.participants) ==>
                  Once(acts + [a], Registers, id, id in t'.participants))
            && (Once(acts, Creates, id, id in t.escrows) ==> Once(acts + [a], Creates, id, id in t'.escrows))
            && (Once(acts, Anchors, id, id in t.anchors) ==> Once(acts + [a], Anchors, id, id in t'.anchors))
  {
    ProfileStep(cfg, a, id);
    EscrowStep(cfg, a, id);
    AnchorStep(cfg, a, id);
    hide Perform, IsActivity;
    assert (acts + [a])[..|acts + [a]| - 1] == acts;
  }

  /** A participant registers once, an escrow is created once and a batch is anchored once: later attempts fail. */
  lemma {:induction false} WrittenOnce(cfg: Config, ins: seq<Input>, id: Id)
    ensures var acts, t := Successes(cfg, ins), RunFrom(cfg, GENESIS, ins).ledger.tables;
            && Once(acts, Registers, id, id in t.participants)
            && Once(acts, Creates, id, id in t.escrows)
            && Once(acts, Anchors, id, id in t.anchors)
  {
    if ins == [] {
    } else {
      hide Once, Perform, RunFrom, Successes, Succeeds;
      var n := |ins| - 1;
      var before := RunFrom(cfg, GENESIS, ins[..n]).ledger.tables;
      SuccessesNext(cfg, ins);
      WrittenOnce(cfg, ins[..n], id);
      if Succeeds(cfg, ins, n) {
        OnceStep(cfg, Successes(cfg, ins[..n]), Act(before, ins[n].tx.sender, ins[n].tx.payload, ins[n].ts), id);
      }
    }
  }
}
