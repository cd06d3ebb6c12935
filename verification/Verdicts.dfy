/** Who wins a dispute, in terms of what the arbiters said. */
module Verdicts {
  import opened Types
  import opened Rules
  import opened Invariants
  import opened History
  import opened Disputes
  import opened Provenance

  // ── The decision ──

  /** How many of these votes said `decision`. */
  function Said(cast: seq<Act>, decision: DisputeDecision): nat {
    if cast == [] then 0
    else
      var a := cast[|cast| - 1];
      Said(cast[..|cast| - 1], decision) + if a.payload.VoteDispute? && a.payload.decision == decision then 1 else 0
  }

  /** The votes on a dispute since it was last raised that said `decision`. */
  function VotesSaying(cfg: Config, ins: seq<Input>, did: Id, decision: DisputeDecision): nat {
    Said(VotesIn(Successes(cfg, ins), did), decision)
  }

  /** The codes under which votes are stored and tallied: 0 is for the buyer, 1 for the seller. */
  lemma {:induction false} StoredAsSaid(votes: seq<DisputeVote>, cast: seq<Act>)
    requires VotesTraced(votes, cast)
    ensures Decided(votes, 0) == Said(cast, FavorBuyer) && Decided(votes, 1) == Said(cast, FavorSeller)
  {
    if votes != [] {
      var n := |votes| - 1;
      assert VotesTraced(votes[..n], cast[..n]) by {
        forall i | 0 <= i < n ensures Casts(votes[..n][i], cast[..n][i]) {
          assert Casts(votes[i], cast[i]);
        }
      }
      StoredAsSaid(votes[..n], cast[..n]);
      assert Casts(votes[n], cast[n]);
    }
  }

  /** The winning side, or none. */
  datatype Verdict = ForBuyer | ForSeller | Tied

  function VerdictOf(forBuyer: nat, forSeller: nat): Verdict {
    if forBuyer > forSeller then ForBuyer else if forSeller > forBuyer then ForSeller else Tied
  }

  /** In every reachable state with a vote threshold below 2^32: a resolved dispute was decided for the buyer if and
      only if more of the votes since it was last raised said FavorBuyer than FavorSeller, for the seller if and only
      if fewer did, and otherwise it was split. */
  lemma VerdictIsMajority(cfg: Config, ins: seq<Input>, did: Id)
    requires cfg.voteThreshold < U32_LIMIT
    ensures var disputes := RunFrom(cfg, GENESIS, ins).ledger.tables.disputes;
            did in disputes && disputes[did].state == Resolved ==>
              var verdict := VerdictOf(VotesSaying(cfg, ins, did, FavorBuyer), VotesSaying(cfg, ins, did, FavorSeller));
              && (disputes[did].resolution == Some(0) <==> verdict == ForBuyer)
              && (disputes[did].resolution == Some(1) <==> verdict == ForSeller)
              && (disputes[did].resolution == Some(2) <==> verdict == Tied)
  {
    hide RunFrom, Successes, VotesIn, EvidenceIn, Last, Decided, Said;
    ResolvedByMajority(cfg, ins, did);
    RecordsAreTraced(cfg, ins, did);
    hide ParticipantTraced, SettlementTraced, EscrowTraced, AnchorTraced, VotesTraced;
    var disputes := RunFrom(cfg, GENESIS, ins).ledger.tables.disputes;
    if did in disputes && disputes[did].state == Resolved {
      StoredAsSaid(disputes[did].votes, VotesIn(Successes(cfg, ins), did));
    }
  }

  // ── Codes ──

  /** What each stored code stands for. */
  function TypeOf(code: u8): Option<ParticipantType> {
    match code
    case 1 => Some(Seller)
    case 2 => Some(Buyer)
    case 10 => Some(Author)
    case 11 => Some(ContentWork)
    case 20 => Some(Franchisee)
    case 21 => Some(Investor)
    case 22 => Some(Host)
    case 30 => Some(Influencer)
    case 31 => Some(Brand)
    case 32 => Some(Agency)
    case 40 => Some(ServiceProvider)
    case 50 => Some(BuyerAgent)
    case 51 => Some(SellerAgent)
    case 52 => Some(MatchingAgent)
    case 54 => Some(Arbiter)
    case _ => None
  }

  function ReasonOf(code: u8): Option<DisputeReason> {
    match code
    case 0 => Some(NotDelivered)
    case 1 => Some(Damaged)
    case 2 => Some(NotAsDescribed)
    case 3 => Some(Unauthorized)
    case 99 => Some(Other)
    case _ => None
  }

  /** The stored type of a participant and the stored reason of a dispute read back as what was sent: the registration
      of the participant and the last raise of the dispute said so. */
  lemma CodesReadBack(cfg: Config, ins: seq<Input>, id: Id)
    ensures var acts, t := Successes(cfg, ins), RunFrom(cfg, GENESIS, ins).ledger.tables;
            && (id in t.participants ==>
                  Last(acts, Registers, id).Some?
                  && TypeOf(t.participants[id].pType) == Some(Last(acts, Registers, id).value.payload.pType))
            && (id in t.disputes ==>
                  Last(acts, Kind.Raises, id).Some?
                  && ReasonOf(t.disputes[id].reason) == Some(Last(acts, Kind.Raises, id).value.payload.reason))
  {
    hide RunFrom, Successes, Last, EvidenceIn, VotesIn;
    RecordsAreTraced(cfg, ins, id);
    hide SettlementTraced, EscrowTraced, AnchorTraced, VotesTraced;
  }

  /** Whoever voted on a dispute, in any reachable state, registered as an arbiter. */
  lemma VotersRegisteredAsArbiters(cfg: Config, ins: seq<Input>, did: Id, i: nat)
    ensures var acts, disputes := Successes(cfg, ins), RunFrom(cfg, GENESIS, ins).ledger.tables.disputes;
            did in disputes && i < |disputes[did].votes| ==>
              var registered := Last(acts, Registers, disputes[did].votes[i].voter);
              registered.Some? && registered.value.payload.pType == Arbiter
  {
    hide RunFrom, Successes, Last;
    var disputes := RunFrom(cfg, GENESIS, ins).ledger.tables.disputes;
    if did in disputes && i < |disputes[did].votes| {
      DisputesWellFormed(cfg, ins, did);
      CodesReadBack(cfg, ins, disputes[did].votes[i].voter);
    }
  }

  // ── What the decision earns ──

  function WinsOf(t: Tables, p: Id): u64 {
    if p in t.participants then t.participants[p].disputeWon else 0
  }

  /** The winner has won one more dispute and is minted the reward, if there is one; nobody else gains anything. */
  ghost predicate Rewards(t: Tables, t': Tables, events: seq<Event>, winner: Id, reward: u64, closing: Event) {
    && WinsOf(t', winner) == SatAdd(WinsOf(t, winner), 1)
    && (forall p: Id | p != winner :: WinsOf(t', p) == WinsOf(t, p))
    && t'.balances == (if reward > 0 then
                         var b := BalanceOf(t.balances, winner);
                         t.balances[winner := Balance(b.owner, WrapAdd(b.earned, reward), b.purchased)]
                       else t.balances)
    && events == (if reward > 0 then [RCWMinted(winner, reward, "dispute_won")] else []) + [closing]
  }

  /** A split changes nothing but the dispute. */
  predicate Splits(t: Tables, t': Tables, events: seq<Event>, closing: Event) {
    t'.participants == t.participants && t'.balances == t.balances && events == [closing]
  }

  ghost predicate Books(t: Tables, t': Tables, events: seq<Event>, did: Id, e: Escrow, verdict: Verdict, reward: u64) {
    match verdict
    case ForBuyer => Rewards(t, t', events, e.buyer, reward, DisputeResolved(did, 0))
    case ForSeller => Rewards(t, t', events, e.seller, reward, DisputeResolved(did, 1))
    case Tied => Splits(t, t', events, DisputeResolved(did, 2))
  }

  lemma AwardBooks(t: Tables, d: Dispute, e: Escrow, resolution: u8, reward: u64, did: Id)
    requires resolution < 2 && e.buyer in t.participants && e.seller in t.participants
    ensures var r := Award(t, d, e, resolution, reward);
            Books(t, r.tables, r.events + [DisputeResolved(did, resolution)], did, e,
                  if resolution == 0 then ForBuyer else ForSeller, reward)
  {
    hide ParticipantsEvolve, NoMilestones;
  }

  /** The dispute itself is not part of the books. */
  lemma BooksWith(t: Tables, t': Tables, disputes: map<Id, Dispute>, events: seq<Event>, did: Id, e: Escrow,
                  verdict: Verdict, reward: u64)
    requires Books(t, t', events, did, e, verdict, reward)
    ensures Books(t, t'.(disputes := disputes), events, did, e, verdict, reward)
  {
  }

  lemma SplitBooks(t: Tables, did: Id, e: Escrow, reward: u64)
    ensures Books(t, t, [] + [DisputeResolved(did, 2)], did, e, Tied, reward)
  {
  }

  lemma VoteBooks(t: Tables, did: Id, voter: Id, decision: DisputeDecision, ts: i64, reward: u64, threshold: u64)
    requires Grounded(t, did) && Vote(t, did, voter, decision, ts, reward, threshold).result.Ok?
    ensures var o := Vote(t, did, voter, decision, ts, reward, threshold);
            did in o.tables.disputes && o.tables.disputes[did].state == Resolved ==>
              var e, resolution := t.escrows[t.disputes[did].escrowId], o.tables.disputes[did].resolution;
              && resolution.Some? && resolution.value < 3
              && Books(t, o.tables, o.result.value, did, e,
                       if resolution == Some(0) then ForBuyer else if resolution == Some(1) then ForSeller else Tied,
                       reward)
  {
    hide ParticipantsEvolve, NoMilestones, Incidental, Award, Resolution, HasVoted, Books;
    var d := t.disputes[did];
    var d1 := d.(state := Voting, votes := d.votes + [DisputeVote(voter, decision.Code(), ts)]);
    if |d1.votes| >= threshold {
      var res := Resolution(d1.votes);
      ResolutionsAre(d1.votes);
      var d' := d1.(state := Resolved, resolution := Some(res), resolvedAt := Some(ts));
      var e := t.escrows[d.escrowId];
      var disputes' := t.disputes[did := d'];
      if res == 2 {
        SplitBooks(t, did, e, reward);
        BooksWith(t, t, disputes', [] + [DisputeResolved(did, 2)], did, e, Tied, reward);
      } else {
        var r := Award(t, d', e, res, reward);
        AwardBooks(t, d', e, res, reward, did);
        BooksWith(t, r.tables, disputes', r.events + [DisputeResolved(did, res)], did, e,
                  if res == 0 then ForBuyer else ForSeller, reward);
      }
    }
  }

  lemma ResolutionsAre(votes: seq<DisputeVote>)
    ensures Resolution(votes) < 3
  {
  }

  /** A successful vote that resolves its dispute. */
  predicate Closes(cfg: Config, ins: seq<Input>, j: nat, did: Id)
    requires j < |ins|
  {
    && ins[j].tx.payload.VoteDispute? && ins[j].tx.payload.disputeId == did && Succeeds(cfg, ins, j)
    && did in TablesAt(cfg, ins, j + 1).disputes
    && TablesAt(cfg, ins, j + 1).disputes[did].state == Resolved
  }

  /** What the side with more votes wins, at the vote that closes the dispute: the buyer of its escrow if more of the
      votes since it was last raised said FavorBuyer than FavorSeller, the seller if fewer did, and nobody otherwise. */
  lemma MajorityWins(cfg: Config, ins: seq<Input>, j: nat, did: Id)
    requires j < |ins| && Closes(cfg, ins, j, did) && cfg.voteThreshold < U32_LIMIT
    ensures var t := TablesAt(cfg, ins, j);
            && did in t.disputes && t.disputes[did].escrowId in t.escrows
            && var verdict := VerdictOf(VotesSaying(cfg, ins[..j + 1], did, FavorBuyer),
                                        VotesSaying(cfg, ins[..j + 1], did, FavorSeller));
               Books(t, TablesAt(cfg, ins, j + 1),
                     Execute(cfg, RunFrom(cfg, GENESIS, ins[..j]).ledger, ins[j].tx, ins[j].ts).result.value,
                     did, t.escrows[t.disputes[did].escrowId], verdict, cfg.disputeReward)
  {
    hide RunFrom, Books, VotesSaying, Resolve, ParticipantsEvolve, Incidental;
    var t := TablesAt(cfg, ins, j);
    TablesAfter(cfg, ins, j);
    ReachableConsistent(cfg, ins[..j]);
    assert Grounded(t, did);
    hide Consistent, Vote;
    VoteBooks(t, did, ins[j].tx.sender, ins[j].tx.payload.decision, ins[j].ts, cfg.disputeReward, cfg.voteThreshold);
    VerdictIsMajority(cfg, ins[..j + 1], did);
  }

  // ── Disputes won over a run ──

  /** The winner of the dispute that transaction `j` closes, if it closes one and does not split it. */
  function WonBy(cfg: Config, ins: seq<Input>, j: nat): Option<Id>
    requires j < |ins|
  {
    if !ins[j].tx.payload.VoteDispute? || !Closes(cfg, ins, j, ins[j].tx.payload.disputeId) then None
    else
      var did := ins[j].tx.payload.disputeId;
      var t := TablesAt(cfg, ins, j);
      if did !in t.disputes || t.disputes[did].escrowId !in t.escrows then None
      else
        var e := t.escrows[t.disputes[did].escrowId];
        match VerdictOf(VotesSaying(cfg, ins[..j + 1], did, FavorBuyer),
                        VotesSaying(cfg, ins[..j + 1], did, FavorSeller))
        case ForBuyer => Some(e.buyer)
        case ForSeller => Some(e.seller)
        case Tied => None
  }

  /** How many disputes `p` has won among the first `n` transactions. */
  function Wins(cfg: Config, ins: seq<Input>, n: nat, p: Id): nat
    requires n <= |ins|
  {
    if n == 0 then 0 else Wins(cfg, ins, n - 1, p) + if WonBy(cfg, ins, n - 1) == Some(p) then 1 else 0
  }

  lemma VoteWithoutClosing(t: Tables, did: Id, voter: Id, decision: DisputeDecision, ts: i64, reward: u64,
                           threshold: u64, p: Id)
    requires Vote(t, did, voter, decision, ts, reward, threshold).result.Ok?
    ensures var t' := Vote(t, did, voter, decision, ts, reward, threshold).tables;
            did in t'.disputes && (t'.disputes[did].state != Resolved ==> WinsOf(t', p) == WinsOf(t, p))
  {
    hide ParticipantsEvolve, Incidental, NoMilestones, Award, Resolution, HasVoted;
  }

  lemma RaiseKeepsWins(t: Tables, did: Id, eid: Id, raiser: Id, reason: DisputeReason, evidence: Hash, ts: i64, p: Id)
    ensures WinsOf(Raise(t, did, eid, raiser, reason, evidence, ts).tables, p) == WinsOf(t, p)
  {
    hide ParticipantsEvolve, EscrowsEvolve, Incidental, TokenFree, NoMilestones;
  }

  lemma OthersKeepWins(cfg: Config, t: Tables, sender: Id, payload: Payload, ts: i64, p: Id)
    requires !payload.VoteDispute?
    ensures WinsOf(Perform(cfg, t, sender, payload, ts).tables, p) == WinsOf(t, p)
  {
    if payload.RaiseDispute? {
      RaiseKeepsWins(t, payload.disputeId, payload.escrowId, sender, payload.reason, payload.evidenceHash, ts, p);
      hide Raise, WinsOf;
    } else {
      PerformEvolves(cfg, t, sender, payload, ts);
      hide Perform, EscrowsEvolve;
    }
  }

  lemma BooksCountWins(t: Tables, t': Tables, events: seq<Event>, did: Id, e: Escrow, verdict: Verdict, reward: u64,
                       p: Id)
    requires Books(t, t', events, did, e, verdict, reward)
    ensures var wins := (verdict == ForBuyer && p == e.buyer) || (verdict == ForSeller && p == e.seller);
            WinsOf(t', p) == Min(MAX_U64, WinsOf(t, p) + if wins then 1 else 0)
  {
  }

  lemma WinStep(cfg: Config, ins: seq<Input>, j: nat, p: Id)
    requires j < |ins| && cfg.voteThreshold < U32_LIMIT
    ensures WinsOf(TablesAt(cfg, ins, j + 1), p)
         == Min(MAX_U64, WinsOf(TablesAt(cfg, ins, j), p) + if WonBy(cfg, ins, j) == Some(p) then 1 else 0)
  {
    hide RunFrom, Perform, WinsOf, VotesSaying, TablesAt, Books;
    var tx, t := ins[j].tx, TablesAt(cfg, ins, j);
    TablesAfter(cfg, ins, j);
    FailureKeepsTables(cfg, ins, j);
    if Succeeds(cfg, ins, j) {
      if !tx.payload.VoteDispute? {
        OthersKeepWins(cfg, t, tx.sender, tx.payload, ins[j].ts, p);
      } else {
        VoteIsVote(cfg, t, tx.sender, tx.payload, ins[j].ts);
        VoteWithoutClosing(t, tx.payload.disputeId, tx.sender, tx.payload.decision, ins[j].ts, cfg.disputeReward,
                           cfg.voteThreshold, p);
        if Closes(cfg, ins, j, tx.payload.disputeId) {
          var did := tx.payload.disputeId;
          MajorityWins(cfg, ins, j, did);
          BooksCountWins(t, TablesAt(cfg, ins, j + 1),
                         Execute(cfg, RunFrom(cfg, GENESIS, ins[..j]).ledger, tx, ins[j].ts).result.value, did,
                         t.escrows[t.disputes[did].escrowId],
                         VerdictOf(VotesSaying(cfg, ins[..j + 1], did, FavorBuyer),
                                   VotesSaying(cfg, ins[..j + 1], did, FavorSeller)), cfg.disputeReward, p);
        }
      }
    }
  }

  lemma VoteIsVote(cfg: Config, t: Tables, sender: Id, payload: Payload, ts: i64)
    requires payload.VoteDispute?
    ensures Perform(cfg, t, sender, payload, ts)
         == Vote(t, payload.disputeId, sender, payload.decision, ts, cfg.disputeReward, cfg.voteThreshold)
  {
    hide Vote;
  }

  lemma FailureKeepsTables(cfg: Config, ins: seq<Input>, j: nat)
    requires j < |ins|
    ensures !Succeeds(cfg, ins, j) ==> TablesAt(cfg, ins, j + 1) == TablesAt(cfg, ins, j)
  {
    hide Perform, RunFrom;
    TablesAfter(cfg, ins, j);
    FailureLeavesOnlyTheNonce(cfg, ins[..j], ins[j].tx, ins[j].ts);
  }

  /** At every moment of every run, `dispute_won` is the number of disputes decided so far, by the votes since their
      last raise, for the side on which the participant was. */
  lemma {:induction false} WinsMatchVerdicts(cfg: Config, ins: seq<Input>, n: nat, p: Id)
    requires n <= |ins| && cfg.voteThreshold < U32_LIMIT
    ensures WinsOf(TablesAt(cfg, ins, n), p) == Min(MAX_U64, Wins(cfg, ins, n, p))
  {
    hide Perform, WonBy;
    if n == 0 {
      assert ins[..0] == [];
    } else {
      hide TablesAt, WinsOf, RunFrom;
      WinsMatchVerdicts(cfg, ins, n - 1, p);
      WinStep(cfg, ins, n - 1, p);
    }
  }
}
