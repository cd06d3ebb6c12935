/** Disputes over whole runs: their phases, their tally and their penalties. */
module Disputes {
  import opened Sets
  import opened Types
  import opened Rules
  import opened Invariants
  import opened History

  // ── Phases ──

  predicate VotersDistinct(votes: seq<DisputeVote>) {
    forall i, j | 0 <= i < j < |votes| :: votes[i].voter != votes[j].voter
  }

  predicate IsArbiter(participants: map<Id, Participant>, id: Id) {
    id in participants && participants[id].pType == Arbiter.Code()
  }

  predicate WellFormed(participants: map<Id, Participant>, d: Dispute, threshold: u64) {
    && VotersDistinct(d.votes)
    && (forall i | 0 <= i < |d.votes| :: IsArbiter(participants, d.votes[i].voter))
    && match d.state {
         case Raised => d.votes == [] && d.resolution == None && d.resolvedAt == None
         case Evidence => d.votes == [] && d.resolution == None && d.resolvedAt == None
         case Voting => 0 < |d.votes| < threshold && d.resolution == None && d.resolvedAt == None
         case Resolved =>
           |d.votes| == Max(threshold, 1) && d.resolution == Some(Resolution(d.votes)) && d.resolvedAt.Some?
       }
  }

  lemma VoteKeepsWellFormed(t: Tables, did: Id, voter: Id, decision: DisputeDecision, ts: i64, reward: u64,
                            threshold: u64)
    requires did in t.disputes ==> WellFormed(t.participants, t.disputes[did], threshold)
    ensures var t' := Vote(t, did, voter, decision, ts, reward, threshold).tables;
            did in t'.disputes ==> WellFormed(t'.participants, t'.disputes[did], threshold)
  {
    hide Award, Resolution, Incidental, NoMilestones;
  }

  /** Arbiters stay arbiters, so an untouched dispute stays well formed. */
  lemma UntouchedStaysWellFormed(t: Tables, t': Tables, id: Id, threshold: u64)
    requires ParticipantsEvolve(t.participants, t'.participants, true, true, true)
    requires id in t.disputes && id in t'.disputes && t'.disputes[id] == t.disputes[id]
    requires WellFormed(t.participants, t.disputes[id], threshold)
    ensures WellFormed(t'.participants, t'.disputes[id], threshold)
  {
    hide Resolution;
  }

  lemma RaisedIsWellFormed(t: Tables, did: Id, eid: Id, raiser: Id, reason: DisputeReason, evidence: Hash, ts: i64,
                           threshold: u64)
    requires did in t.disputes ==> WellFormed(t.participants, t.disputes[did], threshold)
    ensures var t' := Raise(t, did, eid, raiser, reason, evidence, ts).tables;
            did in t'.disputes ==> WellFormed(t'.participants, t'.disputes[did], threshold)
  {
    hide Penalized, ParticipantsEvolve, EscrowsEvolve, Incidental, TokenFree, Resolution;
  }

  lemma EvidenceKeepsWellFormed(t: Tables, sender: Id, did: Id, evidence: Hash, threshold: u64)
    requires did in t.disputes ==> WellFormed(t.participants, t.disputes[did], threshold)
    ensures var t' := AddEvidence(t, sender, did, evidence).tables;
            did in t'.disputes ==> WellFormed(t'.participants, t'.disputes[did], threshold)
  {
    hide Incidental, TokenFree, Resolution;
  }

  lemma OtherDisputesSame(cfg: Config, t: Tables, sender: Id, payload: Payload, ts: i64, id: Id)
    requires !(payload.RaiseDispute? || payload.SubmitEvidence? || payload.VoteDispute?) || payload.disputeId != id
    ensures var m, m' := t.disputes, Perform(cfg, t, sender, payload, ts).tables.disputes;
            id in m' ==> id in m && m'[id] == m[id]
  {
    hide Register, Update, Deactivate, Settle, Rate, OpenEscrow, Release, Refund, Transfer, Spend, Anchor, Award,
         Penalized, Resolution, HasVoted, ParticipantsEvolve, EscrowsEvolve, TokenFree, Incidental, Reports,
         NoMilestones;
  }

  lemma WellFormedStep(cfg: Config, t: Tables, sender: Id, payload: Payload, ts: i64, id: Id)
    requires id in t.disputes ==> WellFormed(t.participants, t.disputes[id], cfg.voteThreshold)
    ensures var t' := Perform(cfg, t, sender, payload, ts).tables;
            id in t'.disputes ==> WellFormed(t'.participants, t'.disputes[id], cfg.voteThreshold)
  {
    hide Register, Update, Deactivate, Settle, Rate, OpenEscrow, Release, Refund, Raise, AddEvidence, Vote, Transfer,
         Spend, Anchor, WellFormed, ParticipantsEvolve, EscrowsEvolve, TokenFree, Incidental, Reports;
    if (payload.RaiseDispute? || payload.SubmitEvidence? || payload.VoteDispute?) && payload.disputeId == id {
      match payload {
        case RaiseDispute(did, eid, reason, evidence) =>
          RaisedIsWellFormed(t, did, eid, sender, reason, evidence, ts, cfg.voteThreshold);
        case SubmitEvidence(did, evidence) => EvidenceKeepsWellFormed(t, sender, did, evidence, cfg.voteThreshold);
        case VoteDispute(did, decision) =>
          VoteKeepsWellFormed(t, did, sender, decision, ts, cfg.disputeReward, cfg.voteThreshold);
      }
    } else {
      hide Perform;
      OtherDisputesSame(cfg, t, sender, payload, ts, id);
      PerformEvolves(cfg, t, sender, payload, ts);
      var t' := Perform(cfg, t, sender, payload, ts).tables;
      if id in t'.disputes {
        EvolvesAtMost(t, t', MovesDisputeCounts(payload), MovesSuccesses(payload), payload.RecordRating?);
        UntouchedStaysWellFormed(t, t', id, cfg.voteThreshold);
      }
    }
  }

  lemma EvolvesAtMost(t: Tables, t': Tables, counts: bool, successes: bool, ratings: bool)
    requires ParticipantsEvolve(t.participants, t'.participants, counts, successes, ratings)
    ensures ParticipantsEvolve(t.participants, t'.participants, true, true, true)
  {
  }

  /** Every stored dispute is in one of four well-formed phases: no votes before voting, fewer than the threshold while
      voting, and exactly the threshold (or the one vote it takes) once resolved by the tally of those votes. */
  lemma {:induction false} DisputesWellFormed(cfg: Config, ins: seq<Input>, id: Id)
    ensures var t := RunFrom(cfg, GENESIS, ins).ledger.tables;
            id in t.disputes ==> WellFormed(t.participants, t.disputes[id], cfg.voteThreshold)
  {
    hide Perform, WellFormed;
    if ins != [] {
      var before := RunFrom(cfg, GENESIS, ins[..|ins| - 1]).ledger;
      var last := ins[|ins| - 1];
      DisputesWellFormed(cfg, ins[..|ins| - 1], id);
      WellFormedStep(cfg, before.tables, last.tx.sender, last.tx.payload, last.ts, id);
    }
  }

  // ── Tally ──

  /** How many votes carry exactly this decision. */
  function Decided(votes: seq<DisputeVote>, decision: u8): nat {
    if votes == [] then 0
    else Decided(votes[..|votes| - 1], decision) + if votes[|votes| - 1].decision == decision then 1 else 0
  }

  lemma {:induction false} VotesForBothSides(votes: seq<DisputeVote>, side: u8)
    requires side < 2
    ensures VotesFor(votes, side) == Decided(votes, side) + Decided(votes, 2) <= |votes|
  {
    if votes != [] {
      VotesForBothSides(votes[..|votes| - 1], side);
    }
  }

  /** The sign of FavorBuyer votes minus FavorSeller votes: Split votes cancel. */
  function Majority(votes: seq<DisputeVote>): u8 {
    if Decided(votes, 0) > Decided(votes, 1) then 0 else if Decided(votes, 0) < Decided(votes, 1) then 1 else 2
  }

  lemma ResolutionIsSign(votes: seq<DisputeVote>)
    requires |votes| < U32_LIMIT
    ensures Resolution(votes) == Majority(votes)
  {
    hide VotesFor, Decided;
    VotesForBothSides(votes, 0);
    VotesForBothSides(votes, 1);
  }

  /** `n` different arbiters, of whom the first `buyers` favor the buyer and the rest decide `rest`. */
  function Ballot(n: nat, buyers: nat, rest: u8): (votes: seq<DisputeVote>)
    requires n <= ID_LIMIT
    ensures |votes| == n && VotersDistinct(votes)
  {
    seq(n, i requires 0 <= i < n => DisputeVote(i, if i < buyers then 0 else rest, 0))
  }

  lemma {:induction false} BallotCounts(n: nat, buyers: nat, rest: u8, decision: u8)
    requires n <= ID_LIMIT && rest != 0
    ensures Decided(Ballot(n, buyers, rest), decision)
         == if decision == 0 then Min(n, buyers) else if decision == rest then n - Min(n, buyers) else 0
  {
    if n > 0 {
      BallotCounts(n - 1, buyers, rest, decision);
      assert Ballot(n, buyers, rest)[..n - 1] == Ballot(n - 1, buyers, rest);
    }
  }

  /** The u32 counters wrap: 2^32 arbiters favor the buyer, one favors the seller, and the seller wins. */
  lemma WrappedTallyElectsTheLoser()
    ensures var votes := Ballot(U32_LIMIT + 1, U32_LIMIT, 1);
            VotersDistinct(votes) && Decided(votes, 0) == U32_LIMIT && Decided(votes, 1) == 1 && Resolution(votes) == 1
  {
    var votes := Ballot(U32_LIMIT + 1, U32_LIMIT, 1);
    BallotCounts(U32_LIMIT + 1, U32_LIMIT, 1, 0);
    BallotCounts(U32_LIMIT + 1, U32_LIMIT, 1, 1);
    BallotCounts(U32_LIMIT + 1, U32_LIMIT, 1, 2);
    hide VotesFor, Decided, Ballot;
    VotesForBothSides(votes, 0);
    VotesForBothSides(votes, 1);
  }

  /** From 2^32 votes on, some ballot of that size is resolved wrongly: 2^32 votes for the buyer count for nothing. */
  lemma LargeBallotFails(n: nat)
    requires U32_LIMIT <= n <= ID_LIMIT
    ensures var votes := Ballot(n, U32_LIMIT, 2); Majority(votes) == 0 && Resolution(votes) == 2
  {
    var votes := Ballot(n, U32_LIMIT, 2);
    BallotCounts(n, U32_LIMIT, 2, 0);
    BallotCounts(n, U32_LIMIT, 2, 1);
    BallotCounts(n, U32_LIMIT, 2, 2);
    hide VotesFor, Decided, Ballot;
    VotesForBothSides(votes, 0);
    VotesForBothSides(votes, 1);
  }

  /** Which vote thresholds are safe: every ballot of `n` different arbiters is resolved by majority if and only if `n`
      fits a u32. */
  lemma ResolutionIsSignIff(n: nat)
    requires n <= ID_LIMIT
    ensures (forall votes: seq<DisputeVote> | |votes| == n && VotersDistinct(votes) ::
               Resolution(votes) == Majority(votes))
       <==> n < U32_LIMIT
  {
    hide Resolution, Majority, VotersDistinct;
    if n < U32_LIMIT {
      forall votes: seq<DisputeVote> | |votes| == n && VotersDistinct(votes)
        ensures Resolution(votes) == Majority(votes)
      {
        ResolutionIsSign(votes);
      }
    } else {
      LargeBallotFails(n);
      assert VotersDistinct(Ballot(n, U32_LIMIT, 2));
    }
  }

  /** Below that threshold every resolved dispute of every reachable state was resolved by majority. */
  lemma ResolvedByMajority(cfg: Config, ins: seq<Input>, id: Id)
    requires cfg.voteThreshold < U32_LIMIT
    ensures var disputes := RunFrom(cfg, GENESIS, ins).ledger.tables.disputes;
            id in disputes && disputes[id].state == Resolved ==>
              disputes[id].resolution == Some(Majority(disputes[id].votes))
  {
    hide RunFrom, Resolution, Majority;
    DisputesWellFormed(cfg, ins, id);
    var disputes := RunFrom(cfg, GENESIS, ins).ledger.tables.disputes;
    if id in disputes && disputes[id].state == Resolved {
      ResolutionIsSign(disputes[id].votes);
    }
  }

  lemma {:induction false} DecidedWithout(votes: seq<DisputeVote>, i: nat, decision: u8)
    requires i < |votes|
    ensures Decided(votes, decision)
         == Decided(votes[..i] + votes[i + 1..], decision) + if votes[i].decision == decision then 1 else 0
  {
    var n := |votes| - 1;
    if i == n {
      assert votes[..i] + votes[i + 1..] == votes[..n];
    } else {
      DecidedWithout(votes[..n], i, decision);
      assert (votes[..i] + votes[i + 1..])[..n - 1] == votes[..n][..i] + votes[..n][i + 1..];
    }
  }

  lemma MultisetWithout(votes: seq<DisputeVote>, i: nat)
    requires i < |votes|
    ensures multiset(votes[..i] + votes[i + 1..]) == multiset(votes) - multiset{votes[i]}
  {
    assert votes == votes[..i] + [votes[i]] + votes[i + 1..];
  }

  lemma {:induction false} DecidedIgnoresOrder(a: seq<DisputeVote>, b: seq<DisputeVote>, decision: u8)
    requires multiset(a) == multiset(b)
    ensures Decided(a, decision) == Decided(b, decision)
  {
    assert |multiset(a)| == |a| && |multiset(b)| == |b|;
    if a != [] {
      var n := |a| - 1;
      assert a[n] in multiset(a);
      var i :| 0 <= i < |b| && b[i] == a[n];
      assert a[..n] + a[n + 1..] == a[..n];
      MultisetWithout(a, n);
      MultisetWithout(b, i);
      DecidedWithout(b, i, decision);
      DecidedIgnoresOrder(a[..n], b[..i] + b[i + 1..], decision);
    }
  }

  /** The order in which arbiters vote is irrelevant. */
  lemma ResolutionIgnoresOrder(a: seq<DisputeVote>, b: seq<DisputeVote>)
    requires multiset(a) == multiset(b)
    ensures Resolution(a) == Resolution(b)
  {
    forall decision: u8 | decision < 3 ensures Decided(a, decision) == Decided(b, decision) {
      DecidedIgnoresOrder(a, b, decision);
    }
    VotesForBothSides(a, 0);
    VotesForBothSides(a, 1);
    VotesForBothSides(b, 0);
    VotesForBothSides(b, 1);
  }

  // ── Penalties ──

  /** The unresolved disputes in which `p` is the party that did not raise them. */
  function OpenAgainst(t: Tables, p: Id): set<Id> {
    set id | id in t.disputes && IsOpenAgainst(t, id, p)
  }

  predicate IsOpenAgainst(t: Tables, id: Id, p: Id) {
    && id in t.disputes
    && t.disputes[id].state != Resolved
    && t.disputes[id].escrowId in t.escrows
    && OtherParty(t.escrows[t.disputes[id].escrowId], t.disputes[id].raisedBy) == p
  }

  function CountOf(t: Tables, p: Id): u64 {
    if p in t.participants then t.participants[p].disputeCount else 0
  }

  /** Every unresolved dispute is on the books of the party that did not raise it. */
  predicate Covered(t: Tables, p: Id) {
    |t.disputes| <= MAX_U64 ==> |OpenAgainst(t, p)| <= CountOf(t, p)
  }

  function WinnerOf(e: Escrow, resolution: u8): Id {
    if resolution == 0 then e.buyer else e.seller
  }

  function LoserOf(e: Escrow, resolution: u8): Id {
    if resolution == 0 then e.seller else e.buyer
  }

  lemma PenalizedCount(t: Tables, id: Id, amount: u64, p: Id)
    ensures CountOf(Penalized(t, id, amount), p)
         == if p == id && id in t.participants then SatAdd(CountOf(t, p), amount) else CountOf(t, p)
  {
  }

  lemma WonByCount(t: Tables, id: Id, raisedByOther: bool, p: Id)
    ensures CountOf(WonBy(t, id, raisedByOther), p)
         == if p == id && raisedByOther then SatSub(CountOf(t, p), 1) else CountOf(t, p)
  {
  }

  /** How booking a resolution moves the dispute count of `p` from `c` to `c'`. */
  predicate AwardMoves(e: Escrow, raisedBy: Id, resolution: u8, p: Id, c: u64, c': u64) {
    var other := OtherParty(e, raisedBy);
    && (p != other ==> c <= c')
    && (p == other ==> c <= c' + 1)
    && (e.buyer != e.seller && p == LoserOf(e, resolution) ==> c' == SatAdd(c, if p == other then 1 else 2))
    && (e.buyer != e.seller && p == WinnerOf(e, resolution) ==> c' == if p == other then SatSub(c, 1) else c)
  }

  lemma AwardCounts(t: Tables, d: Dispute, e: Escrow, resolution: u8, reward: u64, p: Id)
    requires d.raisedBy == e.buyer || d.raisedBy == e.seller
    requires e.buyer in t.participants && e.seller in t.participants
    ensures AwardMoves(e, d.raisedBy, resolution, p, CountOf(t, p),
                       CountOf(Award(t, d, e, resolution, reward).tables, p))
  {
    hide Reward, NoMilestones, Penalized, WonBy;
    var winner, loser := WinnerOf(e, resolution), LoserOf(e, resolution);
    var t1 := WonBy(t, winner, d.raisedBy != winner);
    WonByCount(t, winner, d.raisedBy != winner, p);
    PenalizedCount(t1, loser, if d.raisedBy == loser then 2 else 1, p);
  }

  /** A raise charges the other party once. */
  lemma RaiseCounts(t: Tables, did: Id, eid: Id, raiser: Id, reason: DisputeReason, evidence: Hash, ts: i64, p: Id)
    requires Consistent(t) && Raise(t, did, eid, raiser, reason, evidence, ts).result.Ok?
    ensures var t' := Raise(t, did, eid, raiser, reason, evidence, ts).tables;
            CountOf(t', p)
            == if p == OtherParty(t.escrows[eid], raiser) then SatAdd(CountOf(t, p), 1) else CountOf(t, p)
  {
    hide Penalized, ParticipantsEvolve, NoMilestones, TokenFree, Incidental, EscrowsEvolve;
    var t' := Raise(t, did, eid, raiser, reason, evidence, ts).tables;
    var charged := t'.(participants := t.participants);
    assert t' == Penalized(charged, OtherParty(t.escrows[eid], raiser), 1);
    PenalizedCount(charged, OtherParty(t.escrows[eid], raiser), 1, p);
  }

  /** A raise opens one dispute against the other party; it may close one that it overwrites. */
  lemma RaiseOpens(t: Tables, did: Id, eid: Id, raiser: Id, reason: DisputeReason, evidence: Hash, ts: i64, p: Id)
    requires Raise(t, did, eid, raiser, reason, evidence, ts).result.Ok?
    ensures var t' := Raise(t, did, eid, raiser, reason, evidence, ts).tables;
            && OpenAgainst(t', p)
               <= OpenAgainst(t, p) + (if p == OtherParty(t.escrows[eid], raiser) then {did} else {})
            && t'.disputes.Keys == t.disputes.Keys + {did}
  {
    hide Penalized, ParticipantsEvolve, NoMilestones, TokenFree, Incidental, EscrowsEvolve;
  }

  lemma StaysCovered(t: Tables, t': Tables, did: Id, p: Id, charged: bool)
    requires Covered(t, p) && t'.disputes.Keys == t.disputes.Keys + {did}
    requires OpenAgainst(t', p) <= OpenAgainst(t, p) + if charged then {did} else {}
    requires CountOf(t', p) == if charged then SatAdd(CountOf(t, p), 1) else CountOf(t, p)
    ensures Covered(t', p)
  {
    hide IsOpenAgainst, CountOf;
    SubsetSize(t.disputes.Keys, t'.disputes.Keys);
    SubsetSize(OpenAgainst(t', p), t'.disputes.Keys);
    SubsetSize(OpenAgainst(t', p), OpenAgainst(t, p) + if charged then {did} else {});
  }

  lemma RaiseCovers(t: Tables, did: Id, eid: Id, raiser: Id, reason: DisputeReason, evidence: Hash, ts: i64, p: Id)
    requires Consistent(t) && Covered(t, p) && Raise(t, did, eid, raiser, reason, evidence, ts).result.Ok?
    ensures Covered(Raise(t, did, eid, raiser, reason, evidence, ts).tables, p)
  {
    assert eid in t.escrows;
    hide Raise, ParticipantsEvolve, EscrowsEvolve, Incidental, TokenFree, IsOpenAgainst, CountOf, Consistent, Covered,
         OpenAgainst;
    RaiseCounts(t, did, eid, raiser, reason, evidence, ts, p);
    RaiseOpens(t, did, eid, raiser, reason, evidence, ts, p);
    StaysCovered(t, Raise(t, did, eid, raiser, reason, evidence, ts).tables, did, p,
                 p == OtherParty(t.escrows[eid], raiser));
  }

  /** What `Consistent` says of the dispute stored under `did`. */
  predicate Grounded(t: Tables, did: Id) {
    && did in t.disputes && DisputeRefers(t.escrows, t.disputes[did])
    && t.escrows[t.disputes[did].escrowId].buyer in t.participants
    && t.escrows[t.disputes[did].escrowId].seller in t.participants
  }

  /** A vote moves dispute counts only when it resolves the dispute, and then as `AwardMoves` says. */
  predicate VoteMoves(e: Escrow, d: Dispute, p: Id, c: u64, c': u64) {
    if d.state != Resolved || d.resolution == Some(2) then c' == c
    else d.resolution.Some? && AwardMoves(e, d.raisedBy, d.resolution.value, p, c, c')
  }

  lemma ResolveCounts(t: Tables, did: Id, d: Dispute, ts: i64, reward: u64, p: Id)
    requires DisputeRefers(t.escrows, d)
    requires t.escrows[d.escrowId].buyer in t.participants && t.escrows[d.escrowId].seller in t.participants
    ensures var t' := Resolve(t, did, d, ts, reward).tables;
            && did in t'.disputes && t'.disputes[did].escrowId == d.escrowId && t'.disputes[did].raisedBy == d.raisedBy
            && t'.disputes[did].state == Resolved
            && VoteMoves(t.escrows[d.escrowId], t'.disputes[did], p, CountOf(t, p), CountOf(t', p))
  {
    hide Award, ParticipantsEvolve, NoMilestones, Incidental, Resolution, AwardMoves;
    var res := Resolution(d.votes);
    var d' := d.(state := Resolved, resolution := Some(res), resolvedAt := Some(ts));
    AwardCounts(t, d', t.escrows[d.escrowId], res, reward, p);
  }

  lemma VoteCounts(t: Tables, did: Id, voter: Id, decision: DisputeDecision, ts: i64, reward: u64, threshold: u64,
                   p: Id)
    requires Grounded(t, did) && Vote(t, did, voter, decision, ts, reward, threshold).result.Ok?
    ensures var t' := Vote(t, did, voter, decision, ts, reward, threshold).tables;
            var d, d' := t.disputes[did], t'.disputes[did];
            && d'.escrowId == d.escrowId && d'.raisedBy == d.raisedBy
            && VoteMoves(t.escrows[d.escrowId], d', p, CountOf(t, p), CountOf(t', p))
  {
    hide Resolve, ParticipantsEvolve, Incidental, HasVoted, AwardMoves;
    var d := t.disputes[did];
    ResolveCounts(t, did, d.(state := Voting, votes := d.votes + [DisputeVote(voter, decision.Code(), ts)]), ts,
                  reward, p);
  }

  /** A vote that resolves takes the dispute off the list of the party that did not raise it. */
  lemma VoteCloses(t: Tables, did: Id, voter: Id, decision: DisputeDecision, ts: i64, reward: u64, threshold: u64,
                   p: Id)
    requires Vote(t, did, voter, decision, ts, reward, threshold).result.Ok?
    ensures var t' := Vote(t, did, voter, decision, ts, reward, threshold).tables;
            && did in t'.disputes
            && OpenAgainst(t', p) == OpenAgainst(t, p) - (if t'.disputes[did].state == Resolved then {did} else {})
            && |t'.disputes| == |t.disputes|
  {
    hide Award, ParticipantsEvolve, NoMilestones, Incidental, Resolution, HasVoted;
    assert Vote(t, did, voter, decision, ts, reward, threshold).tables.disputes.Keys == t.disputes.Keys;
  }

  lemma OnTheList(t: Tables, did: Id, p: Id)
    requires Grounded(t, did) && t.disputes[did].state != Resolved
    ensures did in OpenAgainst(t, p) <==> p == OtherParty(t.escrows[t.disputes[did].escrowId], t.disputes[did].raisedBy)
  {
  }

  lemma VoteCovers(t: Tables, did: Id, voter: Id, decision: DisputeDecision, ts: i64, reward: u64, threshold: u64,
                   p: Id)
    requires Grounded(t, did) && t.disputes[did].state != Resolved
    requires Covered(t, p) && Vote(t, did, voter, decision, ts, reward, threshold).result.Ok?
    ensures Covered(Vote(t, did, voter, decision, ts, reward, threshold).tables, p)
  {
    hide Vote, IsOpenAgainst, CountOf, ParticipantsEvolve, Incidental;
    VoteCounts(t, did, voter, decision, ts, reward, threshold, p);
    VoteCloses(t, did, voter, decision, ts, reward, threshold, p);
    OnTheList(t, did, p);
  }

  /** The same dispute as far as penalties are concerned. */
  predicate SameCharge(d: Dispute, d': Dispute) {
    d'.escrowId == d.escrowId && d'.raisedBy == d.raisedBy && (d'.state == Resolved <==> d.state == Resolved)
  }

  ghost predicate SameCharges(m: map<Id, Dispute>, m': map<Id, Dispute>) {
    m'.Keys == m.Keys && forall id | id in m :: SameCharge(m[id], m'[id])
  }

  lemma SameChargesSameList(t: Tables, t': Tables, p: Id)
    requires SameCharges(t.disputes, t'.disputes) && EscrowsEvolve(t, t'.escrows) && DisputesRefer(t)
    ensures OpenAgainst(t', p) == OpenAgainst(t, p)
  {
  }

  lemma UntouchedCharges(cfg: Config, t: Tables, sender: Id, payload: Payload, ts: i64)
    requires !payload.RaiseDispute? && !payload.VoteDispute?
    ensures SameCharges(t.disputes, Perform(cfg, t, sender, payload, ts).tables.disputes)
  {
    hide Register, Update, Deactivate, Settle, Rate, OpenEscrow, Release, Refund, Raise, Vote, Transfer, Spend, Anchor;
    hide ParticipantsEvolve, EscrowsEvolve, TokenFree, Incidental, Reports;
  }

  lemma UntouchedCovers(cfg: Config, t: Tables, sender: Id, payload: Payload, ts: i64, p: Id)
    requires !payload.RaiseDispute? && !payload.VoteDispute?
    requires Consistent(t) && Covered(t, p)
    ensures Covered(Perform(cfg, t, sender, payload, ts).tables, p)
  {
    hide Perform, EscrowsEvolve, IsOpenAgainst, OpenAgainst, DisputesRefer, PartiesRegistered, NeverFunded;
    var t' := Perform(cfg, t, sender, payload, ts).tables;
    PerformEvolves(cfg, t, sender, payload, ts);
    UntouchedCharges(cfg, t, sender, payload, ts);
    SameChargesSameList(t, t', p);
    assert |t'.disputes| == |t'.disputes.Keys| == |t.disputes|;
  }

  lemma CoveredStep(cfg: Config, t: Tables, sender: Id, payload: Payload, ts: i64, p: Id)
    requires Consistent(t) && Covered(t, p)
    ensures Covered(Perform(cfg, t, sender, payload, ts).tables, p)
  {
    hide Covered, ParticipantsEvolve, EscrowsEvolve, Raise, Register, Update, Deactivate, Settle, Rate, OpenEscrow,
         Release, Refund, AddEvidence, Transfer, Spend, Anchor, Resolve;
    PerformIsAtomic(cfg, t, sender, payload, ts);
    if Perform(cfg, t, sender, payload, ts).result.Ok? {
      match payload {
        case RaiseDispute(did, eid, reason, evidence) => RaiseCovers(t, did, eid, sender, reason, evidence, ts, p);
        case VoteDispute(did, decision) =>
          assert Grounded(t, did);
          VoteCovers(t, did, sender, decision, ts, cfg.disputeReward, cfg.voteThreshold, p);
        case _ => UntouchedCovers(cfg, t, sender, payload, ts, p);
      }
    }
  }

  /** As long as fewer than 2^64 disputes are stored, the dispute count of everyone is at least the number of
      unresolved disputes in which they are the party that did not raise them. */
  lemma {:induction false} PenaltiesCovered(cfg: Config, ins: seq<Input>, p: Id)
    ensures Covered(RunFrom(cfg, GENESIS, ins).ledger.tables, p)
  {
    hide Perform, Consistent;
    if ins == [] {
      assert OpenAgainst(GENESIS.tables, p) == {};
    } else {
      hide Covered;
      var before := RunFrom(cfg, GENESIS, ins[..|ins| - 1]).ledger;
      var last := ins[|ins| - 1];
      PenaltiesCovered(cfg, ins[..|ins| - 1], p);
      ReachableConsistent(cfg, ins[..|ins| - 1]);
      CoveredStep(cfg, before.tables, last.tx.sender, last.tx.payload, last.ts, p);
    }
  }

  // ── A raise and its resolution, anywhere in a run ──

  predicate Raises(payload: Payload, did: Id) {
    payload.RaiseDispute? && payload.disputeId == did
  }

  /** Until it is raised again, a dispute keeps its escrow and its raiser. */
  lemma {:induction false} SameDispute(cfg: Config, ins: seq<Input>, i: nat, j: nat, did: Id)
    requires i <= j <= |ins| && did in TablesAt(cfg, ins, j).disputes
    requires forall k | i <= k < j :: !Raises(ins[k].tx.payload, did)
    ensures var d, d' := TablesAt(cfg, ins, i).disputes, TablesAt(cfg, ins, j).disputes;
            did in d && d'[did].escrowId == d[did].escrowId && d'[did].raisedBy == d[did].raisedBy
  {
    hide Perform, DisputeRefers;
    if i < j {
      TablesAfter(cfg, ins, j - 1);
      DisputeStep(cfg, TablesAt(cfg, ins, j - 1), ins[j - 1].tx.sender, ins[j - 1].tx.payload, ins[j - 1].ts, did);
      SameDispute(cfg, ins, i, j - 1, did);
    }
  }

  lemma RaiseEffect(cfg: Config, ins: seq<Input>, i: nat, did: Id, p: Id)
    requires i < |ins| && Raises(ins[i].tx.payload, did) && Succeeds(cfg, ins, i)
    ensures var t, t' := TablesAt(cfg, ins, i), TablesAt(cfg, ins, i + 1);
            var eid, raiser := ins[i].tx.payload.escrowId, ins[i].tx.sender;
            && eid in t.escrows
            && did in t'.disputes && t'.disputes[did].escrowId == eid && t'.disputes[did].raisedBy == raiser
            && CountOf(t', p) == if p == OtherParty(t.escrows[eid], raiser) then SatAdd(CountOf(t, p), 1)
                                 else CountOf(t, p)
  {
    hide RunFrom, Succeeds, CountOf, ParticipantsEvolve, EscrowsEvolve, Incidental, TokenFree, Penalized, Consistent;
    TablesAfter(cfg, ins, i);
    ReachableConsistent(cfg, ins[..i]);
    var pl := ins[i].tx.payload;
    RaiseCounts(TablesAt(cfg, ins, i), did, pl.escrowId, ins[i].tx.sender, pl.reason, pl.evidenceHash, ins[i].ts, p);
  }

  /** A successful vote that resolves, and not as a split. */
  predicate Decides(cfg: Config, ins: seq<Input>, j: nat, did: Id)
    requires j < |ins|
  {
    && ins[j].tx.payload.VoteDispute? && ins[j].tx.payload.disputeId == did && Succeeds(cfg, ins, j)
    && did in TablesAt(cfg, ins, j + 1).disputes
    && TablesAt(cfg, ins, j + 1).disputes[did].state == Resolved
    && TablesAt(cfg, ins, j + 1).disputes[did].resolution != Some(2)
  }

  /** The deciding vote: exact dispute-count moves, with no saturation at zero. */
  lemma DecisionEffect(cfg: Config, ins: seq<Input>, j: nat, did: Id, p: Id)
    requires j < |ins| && Decides(cfg, ins, j, did)
    requires |TablesAt(cfg, ins, j).disputes| <= MAX_U64
    ensures var t, t' := TablesAt(cfg, ins, j), TablesAt(cfg, ins, j + 1);
            && did in t.disputes && t.disputes[did].escrowId in t.escrows
            && t'.disputes[did].resolution.Some?
            && var e := t.escrows[t.disputes[did].escrowId];
               var raiser := t.disputes[did].raisedBy;
               AwardMoves(e, raiser, t'.disputes[did].resolution.value, p, CountOf(t, p), CountOf(t', p))
               && (p == OtherParty(e, raiser) ==> CountOf(t, p) >= 1)
  {
    hide RunFrom, Succeeds, CountOf, Resolve, ParticipantsEvolve, Incidental, AwardMoves, OpenAgainst;
    var t := TablesAt(cfg, ins, j);
    TablesAfter(cfg, ins, j);
    ReachableConsistent(cfg, ins[..j]);
    PenaltiesCovered(cfg, ins[..j], p);
    assert Grounded(t, did);
    hide Consistent;
    OnTheList(t, did, p);
    VoteCounts(t, did, ins[j].tx.sender, ins[j].tx.payload.decision, ins[j].ts, cfg.disputeReward, cfg.voteThreshold,
               p);
    assert did in OpenAgainst(t, p) ==> |OpenAgainst(t, p)| >= 1;
  }

  /** Whatever happens in between, a raise and the resolution it leads to change the dispute count of the loser by
      exactly two and that of the winner not at all: who raised the dispute makes no difference. */
  lemma PenaltiesReverseExactly(cfg: Config, ins: seq<Input>, i: nat, j: nat, did: Id, p: Id)
    requires i < j < |ins|
    requires Raises(ins[i].tx.payload, did) && Succeeds(cfg, ins, i)
    requires forall k | i < k < j :: !Raises(ins[k].tx.payload, did)
    requires Decides(cfg, ins, j, did)
    requires |TablesAt(cfg, ins, j).disputes| <= MAX_U64
    requires CountOf(TablesAt(cfg, ins, i), p) < MAX_U64 && CountOf(TablesAt(cfg, ins, j), p) < MAX_U64 - 1
    ensures ins[i].tx.payload.escrowId in TablesAt(cfg, ins, i).escrows
    ensures var e := TablesAt(cfg, ins, i).escrows[ins[i].tx.payload.escrowId];
            var d := TablesAt(cfg, ins, j + 1).disputes[did];
            var atRaise := CountOf(TablesAt(cfg, ins, i + 1), p) - CountOf(TablesAt(cfg, ins, i), p);
            var atDecision := CountOf(TablesAt(cfg, ins, j + 1), p) - CountOf(TablesAt(cfg, ins, j), p);
            && d.resolution.Some?
            && (e.buyer != e.seller && p == LoserOf(e, d.resolution.value) ==> atRaise + atDecision == 2)
            && (e.buyer != e.seller && p == WinnerOf(e, d.resolution.value) ==> atRaise + atDecision == 0)
  {
    hide Execute, RunFrom, Succeeds, CountOf, Consistent;
    var eid := ins[i].tx.payload.escrowId;
    RaiseEffect(cfg, ins, i, did, p);
    DecisionEffect(cfg, ins, j, did, p);
    SameDispute(cfg, ins, i + 1, j, did);
    SameParties(cfg, ins, i, j, eid);
    RaiserIsParty(cfg, ins, i, did);
  }

  lemma SameParties(cfg: Config, ins: seq<Input>, i: nat, j: nat, eid: Id)
    requires i <= j <= |ins| && eid in TablesAt(cfg, ins, i).escrows
    ensures var e, e' := TablesAt(cfg, ins, i).escrows, TablesAt(cfg, ins, j).escrows;
            eid in e' && e'[eid].buyer == e[eid].buyer && e'[eid].seller == e[eid].seller
  {
    hide Execute;
    assert ins[..j][..i] == ins[..i];
    EscrowLifecycle(cfg, GENESIS, ins[..j], i, eid);
  }

  lemma RaiserIsParty(cfg: Config, ins: seq<Input>, i: nat, did: Id)
    requires i < |ins| && Raises(ins[i].tx.payload, did) && Succeeds(cfg, ins, i)
    ensures var t := TablesAt(cfg, ins, i);
            var eid := ins[i].tx.payload.escrowId;
            eid in t.escrows && (ins[i].tx.sender == t.escrows[eid].buyer || ins[i].tx.sender == t.escrows[eid].seller)
  {
    hide RunFrom, Succeeds, ParticipantsEvolve, EscrowsEvolve, Incidental, TokenFree, Penalized;
    TablesAfter(cfg, ins, i);
  }
}
