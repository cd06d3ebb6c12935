/** What a successful transaction reports: its events describe the records it leaves behind, and their token flows
    balance the accounts. */
module Announcements {
  import opened Types
  import opened Rules
  import opened Invariants
  import opened History
  import opened Provenance
  import opened Totals
  import opened Accounts
  import TrustScore

  predicate OnlyMints(events: seq<Event>, reason: string) {
    forall i | 0 <= i < |events| :: events[i].RCWMinted? && events[i].reason == reason
  }

  /** The events are this one, and mints for that reason. */
  predicate Leads(events: seq<Event>, e: Event, reason: string) {
    |events| > 0 && events[0] == e && OnlyMints(events[1..], reason)
  }

  /** What the events say about the tables after the transaction. */
  predicate Announces(a: Act, t': Tables, events: seq<Event>) {
    match a.payload
    case RegisterParticipant(id, _, _) =>
      id in t'.participants && events == [ParticipantRegistered(id, t'.participants[id].pType)]
    case UpdateParticipant(id, _) => events == [ParticipantUpdated(id)]
    case DeactivateParticipant(id) => events == [ParticipantDeactivated(id)]
    case RecordSettlement(_, data) =>
      data.recordId in t'.settlements
      && Leads(events, SettlementRecorded(t'.settlements[data.recordId].participantId, data.recordId),
               "settlement_reward")
    case RecordRating(id, _, _) =>
      id in t'.participants
      && Leads(events, RatingRecorded(id, TrustScore.ComputeTrustScore(t'.participants[id])), "rating_reward")
    case CreateEscrow(eid, _, _, _, _) =>
      eid in t'.escrows
      && events == [EscrowCreated(eid, t'.escrows[eid].buyer, t'.escrows[eid].seller, t'.escrows[eid].amount)]
    case ReleaseEscrow(eid, _) => Leads(events, EscrowReleased(eid), "escrow_complete")
    case RefundEscrow(eid) => events == [EscrowRefunded(eid)]
    case RaiseDispute(did, _, _, _) =>
      did in t'.disputes && events == [DisputeRaised(did, t'.disputes[did].escrowId)]
    case SubmitEvidence(_, _) => events == []
    case VoteDispute(did, _) =>
      && did in t'.disputes
      && if t'.disputes[did].state != Resolved then events == []
         else
           && |events| > 0 && OnlyMints(events[..|events| - 1], "dispute_won")
           && t'.disputes[did].resolution.Some?
           && events[|events| - 1] == DisputeResolved(did, t'.disputes[did].resolution.value)
    case TransferRCW(to, amount, _) => events == [RCWTransferred(a.sender, to, amount)]
    case SpendRCW(amount, purpose) => events == [RCWSpent(a.sender, amount, purpose)]
    case AnchorMerkleRoot(batchId, _, _, _, _) =>
      batchId in t'.anchors
      && events == [AnchorRecorded(batchId, t'.anchors[batchId].merkleRoot, t'.anchors[batchId].entryCount)]
  }

  lemma RewardMints(t: Tables, to: Id, amount: u64, reason: string)
    ensures OnlyMints(Reward(t, to, amount, reason).events, reason)
  {
  }

  lemma OneThenMints(e: Event, a: seq<Event>, b: seq<Event>, reason: string)
    requires OnlyMints(a, reason) && OnlyMints(b, reason)
    ensures Leads([e] + a, e, reason) && Leads([e] + a + b, e, reason)
  {
    assert ([e] + a)[1..] == a && ([e] + a + b)[1..] == a + b;
  }

  lemma SettleAnnounces(t: Tables, sender: Id, pid: Id, data: SettlementData, ts: i64, reward: u64)
    requires Settle(t, sender, pid, data, ts, reward).result.Ok?
    ensures var o := Settle(t, sender, pid, data, ts, reward);
            Announces(Act(t, sender, RecordSettlement(pid, data), ts), o.tables, o.result.value)
  {
    hide ParticipantsEvolve, Reports, NoMilestones, OnlyMints, Succeeded, Credited;
    var p := t.participants[pid];
    var p' := Succeeded(p, data.grossAmount, ts).(totalSettled := SatAdd(p.totalSettled, data.netAmount));
    var t1 := t.(settlements := t.settlements[data.recordId := RecordOf(pid, data, ts)]);
    RewardMints(SetParticipant(t1, pid, p'), pid, reward, "settlement_reward");
    OneThenMints(SettlementRecorded(pid, data.recordId),
                 Reward(SetParticipant(t1, pid, p'), pid, reward, "settlement_reward").events, [], "settlement_reward");
  }

  lemma RateAnnounces(t: Tables, sender: Id, pid: Id, rating: u16, success: bool, ts: i64, reward: u64)
    requires Rate(t, pid, rating, success, ts, reward).result.Ok?
    ensures var o := Rate(t, pid, rating, success, ts, reward);
            Announces(Act(t, sender, RecordRating(pid, rating, success), ts), o.tables, o.result.value)
  {
    hide ParticipantsEvolve, Incidental, NoMilestones, OnlyMints, Rated, TrustScore.ComputeTrustScore, Credited;
    var p := Rated(t.participants[pid], rating, success, ts);
    var t1 := SetParticipant(t, pid, p);
    RewardMints(t1, pid, reward, "rating_reward");
    OneThenMints(RatingRecorded(pid, TrustScore.ComputeTrustScore(p)),
                 Reward(t1, pid, reward, "rating_reward").events, [], "rating_reward");
  }

  lemma ReleaseAnnounces(t: Tables, sender: Id, eid: Id, evidence: Hash, ts: i64, reward: u64)
    requires Release(t, sender, eid, evidence, ts, reward).result.Ok?
    ensures var o := Release(t, sender, eid, evidence, ts, reward);
            Announces(Act(t, sender, ReleaseEscrow(eid, evidence), ts), o.tables, o.result.value)
  {
    hide ParticipantsEvolve, EscrowsEvolve, Reports, NoMilestones, OnlyMints, Reward;
    var e := t.escrows[eid];
    var t1 := MoveEscrow(t, eid, e.(state := Released, evidenceHash := Some(evidence)));
    var t2 := Succeed(t1, e.buyer, 0, ts);
    var t3 := Succeed(t2, e.seller, e.amount, ts);
    var r1 := Reward(t3, e.buyer, reward, "escrow_complete");
    var r2 := Reward(r1.tables, e.seller, reward, "escrow_complete");
    RewardMints(t3, e.buyer, reward, "escrow_complete");
    RewardMints(r1.tables, e.seller, reward, "escrow_complete");
    OneThenMints(EscrowReleased(eid), r1.events, r2.events, "escrow_complete");
  }

  lemma AwardMints(t: Tables, d: Dispute, e: Escrow, resolution: u8, reward: u64)
    ensures OnlyMints(Award(t, d, e, resolution, reward).events, "dispute_won")
  {
    hide ParticipantsEvolve, NoMilestones, Penalized, WonBy;
  }

  lemma VoteAnnounces(t: Tables, did: Id, voter: Id, decision: DisputeDecision, ts: i64, reward: u64, threshold: u64)
    requires Vote(t, did, voter, decision, ts, reward, threshold).result.Ok?
    ensures var o := Vote(t, did, voter, decision, ts, reward, threshold);
            Announces(Act(t, voter, VoteDispute(did, decision), ts), o.tables, o.result.value)
  {
    hide ParticipantsEvolve, Incidental, NoMilestones, Award, Resolution, HasVoted, OnlyMints;
    var d := t.disputes[did];
    var d1 := d.(state := Voting, votes := d.votes + [DisputeVote(voter, decision.Code(), ts)]);
    if |d1.votes| >= threshold {
      var res, e := Resolution(d1.votes), t.escrows[d.escrowId];
      var d' := d1.(state := Resolved, resolution := Some(res), resolvedAt := Some(ts));
      AwardMints(t, d', e, res, reward);
      var mints := if res == 2 then [] else Award(t, d', e, res, reward).events;
      assert OnlyMints([], "dispute_won") by { NoMints(); }
      assert (mints + [DisputeResolved(did, res)])[..|mints|] == mints;
    }
  }

  lemma NoMints()
    ensures OnlyMints([], "dispute_won")
  {
  }

  /** In every state, the events of a success describe the records as they then are: the type registered, the score now
      computed, the parties and the amount of the escrow, the escrow disputed, the resolution stored, the batch
      anchored; and beside them it reports nothing but mints for the reason of that payload. */
  lemma EventsDescribeRecords(cfg: Config, a: Act)
    requires Perform(cfg, a.tables, a.sender, a.payload, a.ts).result.Ok?
    ensures var o := Perform(cfg, a.tables, a.sender, a.payload, a.ts);
            Announces(a, o.tables, o.result.value)
  {
    var t, ts := a.tables, a.ts;
    if a.payload.RecordSettlement? || a.payload.RecordRating? || a.payload.ReleaseEscrow? || a.payload.VoteDispute? {
      hide Settle, Rate, Release, Vote, Announces;
      match a.payload {
        case RecordSettlement(pid, data) => SettleAnnounces(t, a.sender, pid, data, ts, cfg.settlementReward);
        case RecordRating(pid, rating, success) =>
          RateAnnounces(t, a.sender, pid, rating, success, ts, cfg.ratingReward);
        case ReleaseEscrow(eid, evidence) => ReleaseAnnounces(t, a.sender, eid, evidence, ts, cfg.escrowReward);
        case VoteDispute(did, decision) =>
          VoteAnnounces(t, did, a.sender, decision, ts, cfg.disputeReward, cfg.voteThreshold);
      }
    } else {
      PlainEvents(cfg, a);
    }
  }

  lemma PlainEvents(cfg: Config, a: Act)
    requires !a.payload.RecordSettlement? && !a.payload.RecordRating? && !a.payload.ReleaseEscrow?
    requires !a.payload.VoteDispute? && Perform(cfg, a.tables, a.sender, a.payload, a.ts).result.Ok?
    ensures var o := Perform(cfg, a.tables, a.sender, a.payload, a.ts);
            Announces(a, o.tables, o.result.value)
  {
    hide Settle, Rate, Release, Vote, ParticipantsEvolve, EscrowsEvolve, Incidental, Reports, TokenFree, NoMilestones,
         OnlyMints, Leads, Debit, Credited;
  }

  // ── Token events ──

  /** What the events say an account received and paid. */
  function FlowTo(events: seq<Event>, id: Id): nat {
    if events == [] then 0
    else
      FlowTo(events[..|events| - 1], id)
      + match events[|events| - 1]
        case RCWMinted(to, amount, _) => if to == id then amount else 0
        case RCWTransferred(_, to, amount) => if to == id then amount else 0
        case _ => 0
  }

  function FlowFrom(events: seq<Event>, id: Id): nat {
    if events == [] then 0
    else
      FlowFrom(events[..|events| - 1], id)
      + match events[|events| - 1]
        case RCWTransferred(from, _, amount) => if from == id then amount else 0
        case RCWSpent(from, amount, _) => if from == id then amount else 0
        case _ => 0
  }

  lemma {:induction false} FlowConcat(a: seq<Event>, b: seq<Event>, id: Id)
    ensures FlowTo(a + b, id) == FlowTo(a, id) + FlowTo(b, id)
    ensures FlowFrom(a + b, id) == FlowFrom(a, id) + FlowFrom(b, id)
  {
    if b == [] {
      assert a + b == a;
    } else {
      assert (a + b)[..|a + b| - 1] == a + b[..|b| - 1];
      FlowConcat(a, b[..|b| - 1], id);
    }
  }

  lemma FlowOfOne(e: Event, id: Id)
    ensures FlowTo([e], id) == match e case RCWMinted(to, amount, _) => if to == id then amount else 0
                                      case RCWTransferred(_, to, amount) => if to == id then amount else 0
                                      case _ => 0
    ensures FlowFrom([e], id) == match e case RCWTransferred(from, _, amount) => if from == id then amount else 0
                                        case RCWSpent(from, amount, _) => if from == id then amount else 0
                                        case _ => 0
  {
    assert [e][..0] == [];
  }

  predicate Flows(events: seq<Event>, id: Id, received: nat, paid: nat) {
    FlowTo(events, id) == received && FlowFrom(events, id) == paid
  }

  lemma FlowOfReward(t: Tables, to: Id, amount: u64, reason: string, id: Id)
    ensures Flows(Reward(t, to, amount, reason).events, id, if to == id then amount else 0, 0)
  {
    FlowOfOne(RCWMinted(to, amount, reason), id);
    hide NoMilestones;
  }

  lemma SettleFlows(t: Tables, sender: Id, pid: Id, data: SettlementData, ts: i64, reward: u64, id: Id)
    requires Settle(t, sender, pid, data, ts, reward).result.Ok?
    ensures Flows(Settle(t, sender, pid, data, ts, reward).result.value, id, if pid == id then reward else 0, 0)
  {
    hide ParticipantsEvolve, Reports, NoMilestones, Reward, FlowTo, FlowFrom;
    var p := t.participants[pid];
    var p' := Succeeded(p, data.grossAmount, ts).(totalSettled := SatAdd(p.totalSettled, data.netAmount));
    var t1 := t.(settlements := t.settlements[data.recordId := RecordOf(pid, data, ts)]);
    var e := SettlementRecorded(pid, data.recordId);
    FlowOfOne(e, id);
    FlowOfReward(SetParticipant(t1, pid, p'), pid, reward, "settlement_reward", id);
    FlowConcat([e], Reward(SetParticipant(t1, pid, p'), pid, reward, "settlement_reward").events, id);
  }

  lemma RateFlows(t: Tables, pid: Id, rating: u16, success: bool, ts: i64, reward: u64, id: Id)
    requires Rate(t, pid, rating, success, ts, reward).result.Ok?
    ensures Flows(Rate(t, pid, rating, success, ts, reward).result.value, id, if pid == id then reward else 0, 0)
  {
    hide ParticipantsEvolve, Incidental, NoMilestones, Reward, Rated, TrustScore.ComputeTrustScore, FlowTo, FlowFrom;
    var p := Rated(t.participants[pid], rating, success, ts);
    var e := RatingRecorded(pid, TrustScore.ComputeTrustScore(p));
    FlowOfOne(e, id);
    FlowOfReward(SetParticipant(t, pid, p), pid, reward, "rating_reward", id);
    FlowConcat([e], Reward(SetParticipant(t, pid, p), pid, reward, "rating_reward").events, id);
  }

  lemma ReleaseFlows(t: Tables, sender: Id, eid: Id, evidence: Hash, ts: i64, reward: u64, id: Id)
    requires Release(t, sender, eid, evidence, ts, reward).result.Ok?
    ensures Flows(Release(t, sender, eid, evidence, ts, reward).result.value, id, Shares(t, eid, id, reward), 0)
  {
    hide ParticipantsEvolve, EscrowsEvolve, Reports, NoMilestones, Reward, FlowTo, FlowFrom;
    var e := t.escrows[eid];
    var t1 := MoveEscrow(t, eid, e.(state := Released, evidenceHash := Some(evidence)));
    var t2 := Succeed(t1, e.buyer, 0, ts);
    var t3 := Succeed(t2, e.seller, e.amount, ts);
    var r1 := Reward(t3, e.buyer, reward, "escrow_complete");
    var r2 := Reward(r1.tables, e.seller, reward, "escrow_complete");
    FlowOfOne(EscrowReleased(eid), id);
    FlowOfReward(t3, e.buyer, reward, "escrow_complete", id);
    FlowOfReward(r1.tables, e.seller, reward, "escrow_complete", id);
    FlowConcat([EscrowReleased(eid)], r1.events, id);
    FlowConcat([EscrowReleased(eid)] + r1.events, r2.events, id);
  }

  lemma VoteFlows(cfg: Config, a: Act, id: Id)
    requires a.payload.VoteDispute?
    requires var r := Vote(a.tables, a.payload.disputeId, a.sender, a.payload.decision, a.ts, cfg.disputeReward,
                           cfg.voteThreshold).result; r.Ok?
    ensures Flows(Vote(a.tables, a.payload.disputeId, a.sender, a.payload.decision, a.ts, cfg.disputeReward,
                       cfg.voteThreshold).result.value,
                  id, if WinnerOf(cfg, a) == Some(id) then cfg.disputeReward else 0, 0)
  {
    hide ParticipantsEvolve, Incidental, NoMilestones, Reward, Resolution, HasVoted, Penalized, WonBy, FlowTo, FlowFrom;
    var t, did := a.tables, a.payload.disputeId;
    var d := t.disputes[did];
    var d1 := d.(state := Voting, votes := d.votes + [DisputeVote(a.sender, a.payload.decision.Code(), a.ts)]);
    NoFlows(id);
    if |d1.votes| >= cfg.voteThreshold {
      var res, e := Resolution(d1.votes), t.escrows[d.escrowId];
      var closing := DisputeResolved(did, res);
      FlowOfOne(closing, id);
      if res == 2 {
        assert [] + [closing] == [closing];
      } else {
        var winner := if res == 0 then e.buyer else e.seller;
        var loser := if res == 0 then e.seller else e.buyer;
        var t2 := Penalized(WonBy(t, winner, d.raisedBy != winner), loser, if d.raisedBy == loser then 2 else 1);
        FlowOfReward(t2, winner, cfg.disputeReward, "dispute_won", id);
        FlowConcat(Reward(t2, winner, cfg.disputeReward, "dispute_won").events, [closing], id);
      }
    }
  }

  lemma NoFlows(id: Id)
    ensures Flows([], id, 0, 0)
  {
  }

  lemma {:induction false} FlowsOfOthers(events: seq<Event>, id: Id)
    requires forall i | 0 <= i < |events| :: !events[i].RCWMinted? && !events[i].RCWTransferred? && !events[i].RCWSpent?
    ensures Flows(events, id, 0, 0)
  {
    if events != [] {
      FlowsOfOthers(events[..|events| - 1], id);
    }
  }

  lemma PlainFlows(cfg: Config, a: Act, id: Id)
    requires !a.payload.RecordSettlement? && !a.payload.RecordRating? && !a.payload.ReleaseEscrow?
    requires !a.payload.VoteDispute? && Perform(cfg, a.tables, a.sender, a.payload, a.ts).result.Ok?
    ensures Flows(Perform(cfg, a.tables, a.sender, a.payload, a.ts).result.value, id, Received(cfg, a, id), Paid(a, id))
  {
    PlainEvents(cfg, a);
    hide Perform, FlowTo, FlowFrom;
    var events := Perform(cfg, a.tables, a.sender, a.payload, a.ts).result.value;
    if a.payload.TransferRCW? || a.payload.SpendRCW? {
      FlowOfOne(events[0], id);
    } else {
      FlowsOfOthers(events, id);
    }
  }

  lemma StepFlows(cfg: Config, a: Act, id: Id)
    requires Perform(cfg, a.tables, a.sender, a.payload, a.ts).result.Ok?
    ensures Flows(Perform(cfg, a.tables, a.sender, a.payload, a.ts).result.value, id, Received(cfg, a, id), Paid(a, id))
  {
    var t, ts := a.tables, a.ts;
    if a.payload.RecordSettlement? || a.payload.RecordRating? || a.payload.ReleaseEscrow? || a.payload.VoteDispute? {
      hide Settle, Rate, Release, Vote, Flows, WinnerOf, Shares;
      match a.payload {
        case RecordSettlement(pid, data) => SettleFlows(t, a.sender, pid, data, ts, cfg.settlementReward, id);
        case RecordRating(pid, rating, success) => RateFlows(t, pid, rating, success, ts, cfg.ratingReward, id);
        case ReleaseEscrow(eid, evidence) => ReleaseFlows(t, a.sender, eid, evidence, ts, cfg.escrowReward, id);
        case VoteDispute(did, decision) => VoteFlows(cfg, a, id);
      }
    } else {
      PlainFlows(cfg, a, id);
    }
  }

  /** Over every run the events are a complete account book: for everyone, what they say was received and paid is what
      the successful transactions moved. */
  lemma {:induction false} EventsBalanceAccounts(cfg: Config, ins: seq<Input>, id: Id)
    ensures Flows(RunFrom(cfg, GENESIS, ins).events, id, AllReceived(cfg, Successes(cfg, ins), id),
                  AllPaid(Successes(cfg, ins), id))
  {
    if ins == [] {
    } else {
      hide Perform, Received, Paid, FlowTo, FlowFrom;
      var n := |ins| - 1;
      var run := RunFrom(cfg, GENESIS, ins[..n]);
      var a := Act(run.ledger.tables, ins[n].tx.sender, ins[n].tx.payload, ins[n].ts);
      var x := Execute(cfg, run.ledger, ins[n].tx, ins[n].ts);
      EventsBalanceAccounts(cfg, ins[..n], id);
      FlowConcat(run.events, EventsOf(x.result), id);
      if x.result.Ok? {
        StepFlows(cfg, a, id);
      } else {
        NoFlows(id);
        assert Successes(cfg, ins[..n]) + [] == Successes(cfg, ins[..n]);
      }
    }
  }
}
