/** The counters of every participant against the history of the chain: what each successful transaction is worth, and
    what it adds up to. */
module Totals {
  import opened Types
  import opened Rules
  import opened Invariants
  import opened History
  import opened Provenance

  // ── What a transaction is worth ──

  datatype Measure = Transactions | Volume | Settled | Stars | Ratings

  /** How many sides of the escrow `id` holds. */
  function SidesHeld(t: Tables, eid: Id, id: Id): nat {
    if eid !in t.escrows then 0
    else (if t.escrows[eid].buyer == id then 1 else 0) + if t.escrows[eid].seller == id then 1 else 0
  }

  predicate Sells(t: Tables, eid: Id, id: Id) {
    eid in t.escrows && t.escrows[eid].seller == id
  }

  /** What a successful transaction adds to a counter of participant `id`. */
  function Worth(a: Act, measure: Measure, id: Id): nat {
    match a.payload
    case RecordSettlement(pid, data) =>
      if pid != id then 0
      else
        (match measure
         case Transactions => 1
         case Volume => data.grossAmount
         case Settled => data.netAmount
         case _ => 0)
    case RecordRating(pid, rating, success) =>
      if pid != id then 0
      else
        (match measure
         case Transactions => if success then 0 else 1
         case Stars => if 1 <= rating <= 500 then rating else 0
         case Ratings => if 1 <= rating <= 500 then 1 else 0
         case _ => 0)
    case ReleaseEscrow(eid, _) =>
      if measure == Transactions then SidesHeld(a.tables, eid, id)
      else if measure == Volume && Sells(a.tables, eid, id) then a.tables.escrows[eid].amount
      else 0
    case RefundEscrow(eid) => if measure == Transactions && Sells(a.tables, eid, id) then 1 else 0
    case _ => 0
  }

  function Total(acts: seq<Act>, measure: Measure, id: Id): nat {
    if acts == [] then 0 else Total(acts[..|acts| - 1], measure, id) + Worth(acts[|acts| - 1], measure, id)
  }

  // ── What is stored ──

  datatype Counters =
    Counters(totalTx: u64, totalVolume: u64, totalSettled: u64, ratingSum: u64, ratingCount: u64)

  function CountersOf(m: map<Id, Participant>, id: Id): Counters {
    if id !in m then Counters(0, 0, 0, 0, 0)
    else Counters(m[id].totalTx, m[id].totalVolume, m[id].totalSettled, m[id].ratingSum, m[id].ratingCount)
  }

  /** Volumes saturate and ratings wrap; transactions do one or the other, once there are 2^64 of them. */
  predicate Agrees(c: Counters, transactions: nat, volume: nat, settled: nat, stars: nat, ratings: nat) {
    && (transactions <= MAX_U64 ==> c.totalTx == transactions)
    && c.totalVolume == Min(MAX_U64, volume)
    && c.totalSettled == Min(MAX_U64, settled)
    && c.ratingSum == stars % U64_LIMIT
    && c.ratingCount == ratings % U64_LIMIT
  }

  predicate TotalsAgree(acts: seq<Act>, m: map<Id, Participant>, id: Id) {
    Agrees(CountersOf(m, id), Total(acts, Transactions, id), Total(acts, Volume, id), Total(acts, Settled, id),
           Total(acts, Stars, id), Total(acts, Ratings, id))
  }

  // ── One act ──

  /** The counters move by what the act is worth. */
  predicate Moves(c: Counters, c': Counters, transactions: nat, volume: nat, settled: nat, stars: nat, ratings: nat) {
    && (c.totalTx + transactions <= MAX_U64 ==> c'.totalTx == c.totalTx + transactions)
    && c'.totalVolume == Min(MAX_U64, c.totalVolume + volume)
    && c'.totalSettled == Min(MAX_U64, c.totalSettled + settled)
    && c'.ratingSum == (c.ratingSum + stars) % U64_LIMIT
    && c'.ratingCount == (c.ratingCount + ratings) % U64_LIMIT
  }

  predicate MovesBy(a: Act, id: Id, c: Counters, c': Counters) {
    Moves(c, c', Worth(a, Transactions, id), Worth(a, Volume, id), Worth(a, Settled, id), Worth(a, Stars, id),
          Worth(a, Ratings, id))
  }

  lemma Unmoved(c: Counters)
    ensures Moves(c, c, 0, 0, 0, 0, 0)
  {
  }

  lemma SettleMoves(t: Tables, sender: Id, pid: Id, data: SettlementData, ts: i64, reward: u64, id: Id)
    requires Settle(t, sender, pid, data, ts, reward).result.Ok?
    ensures var c := CountersOf(t.participants, id);
            var c' := CountersOf(Settle(t, sender, pid, data, ts, reward).tables.participants, id);
            if id == pid then Moves(c, c', 1, data.grossAmount, data.netAmount, 0, 0) else c' == c
  {
    hide ParticipantsEvolve, Reports, NoMilestones;
  }

  lemma RateMoves(t: Tables, pid: Id, rating: u16, success: bool, ts: i64, reward: u64, id: Id)
    requires Rate(t, pid, rating, success, ts, reward).result.Ok?
    ensures var c := CountersOf(t.participants, id);
            var c' := CountersOf(Rate(t, pid, rating, success, ts, reward).tables.participants, id);
            if id == pid then
              Moves(c, c', if success then 0 else 1, 0, 0, if 1 <= rating <= 500 then rating else 0,
                    if 1 <= rating <= 500 then 1 else 0)
            else c' == c
  {
    hide ParticipantsEvolve, Incidental, NoMilestones, TrustScore.ComputeTrustScore;
  }

  lemma ReleaseMoves(t: Tables, sender: Id, eid: Id, evidence: Hash, ts: i64, reward: u64, id: Id)
    requires Release(t, sender, eid, evidence, ts, reward).result.Ok?
    ensures Moves(CountersOf(t.participants, id),
                  CountersOf(Release(t, sender, eid, evidence, ts, reward).tables.participants, id),
                  SidesHeld(t, eid, id), if Sells(t, eid, id) then t.escrows[eid].amount else 0, 0, 0, 0)
  {
    hide ParticipantsEvolve, EscrowsEvolve, Reports, NoMilestones;
  }

  lemma RefundMoves(t: Tables, sender: Id, eid: Id, ts: i64, id: Id)
    requires Refund(t, sender, eid, ts).result.Ok?
    ensures Moves(CountersOf(t.participants, id), CountersOf(Refund(t, sender, eid, ts).tables.participants, id),
                  if Sells(t, eid, id) then 1 else 0, 0, 0, 0, 0)
  {
    hide ParticipantsEvolve, EscrowsEvolve, Reports, NoMilestones, TokenFree;
  }

  lemma PenaltyMoves(t: Tables, other: Id, amount: u64, id: Id)
    ensures CountersOf(Penalized(t, other, amount).participants, id) == CountersOf(t.participants, id)
  {
  }

  lemma WinMoves(t: Tables, winner: Id, raisedByOther: bool, id: Id)
    ensures CountersOf(WonBy(t, winner, raisedByOther).participants, id) == CountersOf(t.participants, id)
  {
  }

  lemma RaiseMoves(t: Tables, did: Id, eid: Id, raiser: Id, reason: DisputeReason, evidence: Hash, ts: i64, id: Id)
    ensures CountersOf(Raise(t, did, eid, raiser, reason, evidence, ts).tables.participants, id)
         == CountersOf(t.participants, id)
  {
    hide ParticipantsEvolve, EscrowsEvolve, Incidental, NoMilestones, TokenFree;
  }

  lemma AwardMovesNone(t: Tables, d: Dispute, e: Escrow, resolution: u8, reward: u64, id: Id)
    ensures CountersOf(Award(t, d, e, resolution, reward).tables.participants, id) == CountersOf(t.participants, id)
  {
    hide ParticipantsEvolve, NoMilestones, WonBy, Penalized, CountersOf;
    var winner := if resolution == 0 then e.buyer else e.seller;
    var loser := if resolution == 0 then e.seller else e.buyer;
    WinMoves(t, winner, d.raisedBy != winner, id);
    PenaltyMoves(WonBy(t, winner, d.raisedBy != winner), loser, if d.raisedBy == loser then 2 else 1, id);
  }

  lemma VoteMovesNone(t: Tables, did: Id, voter: Id, decision: DisputeDecision, ts: i64, reward: u64, threshold: u64,
                      id: Id)
    requires Vote(t, did, voter, decision, ts, reward, threshold).result.Ok?
    ensures CountersOf(Vote(t, did, voter, decision, ts, reward, threshold).tables.participants, id)
         == CountersOf(t.participants, id)
  {
    hide ParticipantsEvolve, Incidental, NoMilestones, Award, Resolution, HasVoted, CountersOf;
    var d := t.disputes[did];
    var d1 := d.(state := Voting, votes := d.votes + [DisputeVote(voter, decision.Code(), ts)]);
    if |d1.votes| >= threshold {
      var res := Resolution(d1.votes);
      var d' := d1.(state := Resolved, resolution := Some(res), resolvedAt := Some(ts));
      if res != 2 {
        AwardMovesNone(t, d', t.escrows[d.escrowId], res, reward, id);
      }
    }
  }

  lemma ProfilePayloadsMoveNone(cfg: Config, a: Act, id: Id)
    requires a.payload.RegisterParticipant? || a.payload.UpdateParticipant? || a.payload.DeactivateParticipant?
    requires Perform(cfg, a.tables, a.sender, a.payload, a.ts).result.Ok?
    ensures CountersOf(Perform(cfg, a.tables, a.sender, a.payload, a.ts).tables.participants, id)
         == CountersOf(a.tables.participants, id)
  {
    hide Settle, Rate, OpenEscrow, Release, Refund, Raise, AddEvidence, Vote, Transfer, Spend, Anchor,
         ParticipantsEvolve, TokenFree, Incidental, Reports;
  }

  lemma CountersStep(cfg: Config, a: Act, id: Id)
    requires Perform(cfg, a.tables, a.sender, a.payload, a.ts).result.Ok?
    ensures MovesBy(a, id, CountersOf(a.tables.participants, id),
                    CountersOf(Perform(cfg, a.tables, a.sender, a.payload, a.ts).tables.participants, id))
  {
    hide Register, Update, Deactivate, Settle, Rate, OpenEscrow, Release, Refund, Raise, AddEvidence, Vote, Transfer,
         Spend, Anchor, ParticipantsEvolve, EscrowsEvolve, TokenFree, Incidental, Reports, Moves, CountersOf,
         SidesHeld;
    var t, ts := a.tables, a.ts;
    Unmoved(CountersOf(t.participants, id));
    match a.payload {
      case RegisterParticipant(_, _, _) => ProfilePayloadsMoveNone(cfg, a, id);
      case UpdateParticipant(_, _) => ProfilePayloadsMoveNone(cfg, a, id);
      case DeactivateParticipant(_) => ProfilePayloadsMoveNone(cfg, a, id);
      case RecordSettlement(pid, data) => SettleMoves(t, a.sender, pid, data, ts, cfg.settlementReward, id);
      case RecordRating(pid, rating, success) => RateMoves(t, pid, rating, success, ts, cfg.ratingReward, id);
      case ReleaseEscrow(eid, evidence) => ReleaseMoves(t, a.sender, eid, evidence, ts, cfg.escrowReward, id);
      case RefundEscrow(eid) => RefundMoves(t, a.sender, eid, ts, id);
      case RaiseDispute(did, eid, reason, evidence) => RaiseMoves(t, did, eid, a.sender, reason, evidence, ts, id);
      case VoteDispute(did, decision) =>
        VoteMovesNone(t, did, a.sender, decision, ts, cfg.disputeReward, cfg.voteThreshold, id);
      case _ =>
    }
  }

  // ── Runs ──

  lemma AgreesNext(c: Counters, c': Counters, x: nat, dx: nat, v: nat, dv: nat, s: nat, ds: nat, r: nat, dr: nat,
                   n: nat, dn: nat)
    requires Agrees(c, x, v, s, r, n) && Moves(c, c', dx, dv, ds, dr, dn)
    ensures Agrees(c', x + dx, v + dv, s + ds, r + dr, n + dn)
  {
    SumModulo(r, dr);
    SumModulo(n, dn);
  }

  lemma SumModulo(x: nat, d: nat)
    ensures (x % U64_LIMIT + d) % U64_LIMIT == (x + d) % U64_LIMIT
  {
    var q := x / U64_LIMIT;
    assert x + d == x % U64_LIMIT + d + q * U64_LIMIT;
    MultiplesVanish(x % U64_LIMIT + d, q);
  }

  lemma {:induction false} MultiplesVanish(y: nat, q: nat)
    ensures (y + q * U64_LIMIT) % U64_LIMIT == y % U64_LIMIT
  {
    if q > 0 {
      MultiplesVanish(y, q - 1);
      assert y + q * U64_LIMIT == y + (q - 1) * U64_LIMIT + U64_LIMIT;
    }
  }

  lemma TotalNext(acts: seq<Act>, a: Act, measure: Measure, id: Id)
    ensures Total(acts + [a], measure, id) == Total(acts, measure, id) + Worth(a, measure, id)
  {
    assert (acts + [a])[..|acts + [a]| - 1] == acts;
  }

  lemma TotalsStep(cfg: Config, acts: seq<Act>, a: Act, id: Id)
    requires Perform(cfg, a.tables, a.sender, a.payload, a.ts).result.Ok?
    requires TotalsAgree(acts, a.tables.participants, id)
    ensures TotalsAgree(acts + [a], Perform(cfg, a.tables, a.sender, a.payload, a.ts).tables.participants, id)
  {
    hide Perform, Total, Worth, CountersOf, Agrees, Moves;
    CountersStep(cfg, a, id);
    TotalNext(acts, a, Transactions, id);
    TotalNext(acts, a, Volume, id);
    TotalNext(acts, a, Settled, id);
    TotalNext(acts, a, Stars, id);
    TotalNext(acts, a, Ratings, id);
    AgreesNext(CountersOf(a.tables.participants, id),
               CountersOf(Perform(cfg, a.tables, a.sender, a.payload, a.ts).tables.participants, id),
               Total(acts, Transactions, id), Worth(a, Transactions, id), Total(acts, Volume, id),
               Worth(a, Volume, id), Total(acts, Settled, id), Worth(a, Settled, id), Total(acts, Stars, id),
               Worth(a, Stars, id), Total(acts, Ratings, id), Worth(a, Ratings, id));
  }

  /** In every run, every counter of every participant is the sum of what its successful transactions were worth:
      volumes up to 2^64 - 1, ratings modulo 2^64, transactions as long as there are fewer than 2^64. */
  lemma {:induction false} TotalsMatchHistory(cfg: Config, ins: seq<Input>, id: Id)
    ensures TotalsAgree(Successes(cfg, ins), RunFrom(cfg, GENESIS, ins).ledger.tables.participants, id)
  {
    if ins == [] {
    } else {
      hide TotalsAgree, Perform, RunFrom, Successes, Succeeds;
      var n := |ins| - 1;
      var before := RunFrom(cfg, GENESIS, ins[..n]).ledger.tables;
      SuccessesNext(cfg, ins);
      TotalsMatchHistory(cfg, ins[..n], id);
      if Succeeds(cfg, ins, n) {
        TotalsStep(cfg, Successes(cfg, ins[..n]), Act(before, ins[n].tx.sender, ins[n].tx.payload, ins[n].ts), id);
      }
    }
  }
}
