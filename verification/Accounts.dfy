/** Every account against the history of the chain: what it received, what it paid, and which tokens went first. */
module Accounts {
  import opened Types
  import opened Rules
  import opened Invariants
  import opened History
  import opened Tokens
  import opened Provenance
  import opened Totals

  // ── What a transaction pays ──

  /** Who wins the dispute that this vote closes, if it closes one and does not split it. */
  function WinnerOf(cfg: Config, a: Act): Option<Id> {
    if !a.payload.VoteDispute? || a.payload.disputeId !in a.tables.disputes then None
    else
      var d := a.tables.disputes[a.payload.disputeId];
      var votes := d.votes + [DisputeVote(a.sender, a.payload.decision.Code(), a.ts)];
      if |votes| < cfg.voteThreshold || Resolution(votes) == 2 || d.escrowId !in a.tables.escrows then None
      else
        var e := a.tables.escrows[d.escrowId];
        Some(if Resolution(votes) == 0 then e.buyer else e.seller)
  }

  /** The reward of a release, once for each side. */
  function Shares(t: Tables, eid: Id, id: Id, reward: nat): nat {
    SidesHeld(t, eid, id) * reward
  }

  /** What `id` receives from a successful transaction: rewards for its settlements, for ratings it gets, for each side
      of a released escrow, for a dispute it wins, and transfers to it. */
  function Received(cfg: Config, a: Act, id: Id): nat {
    match a.payload
    case RecordSettlement(pid, _) => if pid == id then cfg.settlementReward else 0
    case RecordRating(pid, _, _) => if pid == id then cfg.ratingReward else 0
    case ReleaseEscrow(eid, _) => Shares(a.tables, eid, id, cfg.escrowReward)
    case VoteDispute(_, _) => if WinnerOf(cfg, a) == Some(id) then cfg.disputeReward else 0
    case TransferRCW(to, amount, _) => if to == id then amount else 0
    case _ => 0
  }

  /** What it pays: its own transfers and what it spends. */
  function Paid(a: Act, id: Id): nat {
    match a.payload
    case TransferRCW(_, amount, _) => if a.sender == id then amount else 0
    case SpendRCW(amount, _) => if a.sender == id then amount else 0
    case _ => 0
  }

  function AllReceived(cfg: Config, acts: seq<Act>, id: Id): nat {
    if acts == [] then 0 else AllReceived(cfg, acts[..|acts| - 1], id) + Received(cfg, acts[|acts| - 1], id)
  }

  function AllPaid(acts: seq<Act>, id: Id): nat {
    if acts == [] then 0 else AllPaid(acts[..|acts| - 1], id) + Paid(acts[|acts| - 1], id)
  }

  // ── One act ──

  ghost predicate NoneWrap(credits: seq<Credit>) {
    forall i | 0 <= i < |credits| :: !Wraps(credits[i])
  }

  /** The account gains `received` and loses `paid`. */
  predicate Accounted(m: map<Id, Balance>, m': map<Id, Balance>, id: Id, received: nat, paid: nat) {
    var b, b' := BalanceOf(m, id), BalanceOf(m', id);
    Holding(b') + paid == Holding(b) + received && b'.purchased <= b.purchased && b'.owner == b.owner
  }

  lemma RewardAccounts(t: Tables, to: Id, amount: u64, reason: string, id: Id)
    requires NoneWrap(RewardCredits(t.balances, to, amount))
    ensures Accounted(t.balances, Reward(t, to, amount, reason).tables.balances, id, if to == id then amount else 0, 0)
    ensures Reward(t, to, amount, reason).tables.balances == Rewardable(t.balances, to, amount)
  {
    hide NoMilestones;
    if amount > 0 {
      assert RewardCredits(t.balances, to, amount)[0] == Credit(t.balances, to, amount);
    }
  }

  lemma SettleAccounts(t: Tables, sender: Id, pid: Id, data: SettlementData, ts: i64, reward: u64, id: Id)
    requires Settle(t, sender, pid, data, ts, reward).result.Ok? && NoneWrap(RewardCredits(t.balances, pid, reward))
    ensures Accounted(t.balances, Settle(t, sender, pid, data, ts, reward).tables.balances, id,
                      if pid == id then reward else 0, 0)
  {
    hide ParticipantsEvolve, Reports, NoMilestones, Accounted, Reward, NoneWrap;
    var p := t.participants[pid];
    var p' := Succeeded(p, data.grossAmount, ts).(totalSettled := SatAdd(p.totalSettled, data.netAmount));
    var t1 := t.(settlements := t.settlements[data.recordId := RecordOf(pid, data, ts)]);
    RewardAccounts(SetParticipant(t1, pid, p'), pid, reward, "settlement_reward", id);
  }

  lemma RateAccounts(t: Tables, pid: Id, rating: u16, success: bool, ts: i64, reward: u64, id: Id)
    requires Rate(t, pid, rating, success, ts, reward).result.Ok? && NoneWrap(RewardCredits(t.balances, pid, reward))
    ensures Accounted(t.balances, Rate(t, pid, rating, success, ts, reward).tables.balances, id,
                      if pid == id then reward else 0, 0)
  {
    hide ParticipantsEvolve, Incidental, NoMilestones, Accounted, Reward, NoneWrap, Rated, TrustScore.ComputeTrustScore;
    var p := Rated(t.participants[pid], rating, success, ts);
    RewardAccounts(SetParticipant(t, pid, p), pid, reward, "rating_reward", id);
  }

  lemma ReleaseAccounts(t: Tables, sender: Id, eid: Id, evidence: Hash, ts: i64, reward: u64, id: Id)
    requires Release(t, sender, eid, evidence, ts, reward).result.Ok? && NoneWrap(ReleaseCredits(t, eid, reward))
    ensures Accounted(t.balances, Release(t, sender, eid, evidence, ts, reward).tables.balances, id,
                      Shares(t, eid, id, reward), 0)
  {
    hide ParticipantsEvolve, EscrowsEvolve, Reports, NoMilestones, Reward, RewardCredits, Wraps, Rewardable;
    var e := t.escrows[eid];
    var t1 := MoveEscrow(t, eid, e.(state := Released, evidenceHash := Some(evidence)));
    var t2 := Succeed(t1, e.buyer, 0, ts);
    var t3 := Succeed(t2, e.seller, e.amount, ts);
    var r1 := Reward(t3, e.buyer, reward, "escrow_complete");
    SplitNoneWrap(RewardCredits(t.balances, e.buyer, reward),
                  RewardCredits(Rewardable(t.balances, e.buyer, reward), e.seller, reward));
    RewardAccounts(t3, e.buyer, reward, "escrow_complete", id);
    RewardAccounts(r1.tables, e.seller, reward, "escrow_complete", id);
  }

  lemma SplitNoneWrap(a: seq<Credit>, b: seq<Credit>)
    requires NoneWrap(a + b)
    ensures NoneWrap(a) && NoneWrap(b)
  {
    assert forall i | 0 <= i < |a| :: a[i] == (a + b)[i];
    assert forall i | 0 <= i < |b| :: b[i] == (a + b)[|a| + i];
  }

  lemma VoteAccounts(cfg: Config, a: Act, id: Id)
    requires a.payload.VoteDispute?
    requires var r := Vote(a.tables, a.payload.disputeId, a.sender, a.payload.decision, a.ts, cfg.disputeReward,
                           cfg.voteThreshold).result; r.Ok?
    requires NoneWrap(VoteCredits(a.tables, a.payload.disputeId, a.sender, a.payload.decision, a.ts, cfg.disputeReward,
                                  cfg.voteThreshold))
    ensures Accounted(a.tables.balances,
                      Vote(a.tables, a.payload.disputeId, a.sender, a.payload.decision, a.ts, cfg.disputeReward,
                           cfg.voteThreshold).tables.balances,
                      id, if WinnerOf(cfg, a) == Some(id) then cfg.disputeReward else 0, 0)
  {
    hide ParticipantsEvolve, Incidental, NoMilestones, Accounted, Reward, NoneWrap, RewardCredits, Resolution, HasVoted,
         Penalized, WonBy;
    var t, did := a.tables, a.payload.disputeId;
    var d := t.disputes[did];
    var d1 := d.(state := Voting, votes := d.votes + [DisputeVote(a.sender, a.payload.decision.Code(), a.ts)]);
    Unaccounted(t.balances, id);
    if |d1.votes| >= cfg.voteThreshold && Resolution(d1.votes) != 2 {
      var res, e := Resolution(d1.votes), t.escrows[d.escrowId];
      var winner := if res == 0 then e.buyer else e.seller;
      var loser := if res == 0 then e.seller else e.buyer;
      var t1 := WonBy(t, winner, d.raisedBy != winner);
      RewardAccounts(Penalized(t1, loser, if d.raisedBy == loser then 2 else 1), winner, cfg.disputeReward,
                     "dispute_won", id);
    }
  }

  lemma Unaccounted(m: map<Id, Balance>, id: Id)
    ensures Accounted(m, m, id, 0, 0)
  {
  }

  /** A debit takes earned tokens first: purchased ones only go once nothing earned is left. */
  lemma EarnedGoFirst(b: Balance, amount: u64)
    requires b.Total() >= amount
    ensures var b' := Debit(b, amount);
            && b'.owner == b.owner && b'.earned <= b.earned && b'.purchased <= b.purchased
            && Holding(b') + amount == Holding(b)
            && (b'.purchased < b.purchased ==> b'.earned == 0)
  {
  }

  lemma TransferAccounts(t: Tables, from: Id, to: Id, amount: u64, id: Id)
    requires Transfer(t, from, to, amount).result.Ok? && NoneWrap(TransferCredits(t, from, to, amount))
    ensures Accounted(t.balances, Transfer(t, from, to, amount).tables.balances, id, if to == id then amount else 0,
                      if from == id then amount else 0)
  {
    hide Incidental, Debit;
    EarnedGoFirst(BalanceOf(t.balances, from), amount);
    assert !Wraps(TransferCredits(t, from, to, amount)[0]);
  }

  lemma SpendAccounts(t: Tables, from: Id, amount: u64, purpose: Text, id: Id)
    requires Spend(t, from, amount, purpose).result.Ok?
    ensures Accounted(t.balances, Spend(t, from, amount, purpose).tables.balances, id, 0,
                      if from == id then amount else 0)
  {
    hide Incidental, Debit;
    EarnedGoFirst(BalanceOf(t.balances, from), amount);
  }

  lemma AccountStep(cfg: Config, a: Act, id: Id)
    requires Perform(cfg, a.tables, a.sender, a.payload, a.ts).result.Ok?
    requires NoneWrap(CreditsOf(cfg, a.tables, a.sender, a.payload, a.ts))
    ensures Accounted(a.tables.balances, Perform(cfg, a.tables, a.sender, a.payload, a.ts).tables.balances, id,
                      Received(cfg, a, id), Paid(a, id))
  {
    hide Register, Update, Deactivate, Settle, Rate, OpenEscrow, Release, Refund, Raise, AddEvidence, Vote, Transfer,
         Spend, Anchor, ParticipantsEvolve, EscrowsEvolve, TokenFree, Incidental, Reports, Accounted, NoneWrap,
         WinnerOf, Shares, RewardCredits, ReleaseCredits, VoteCredits, TransferCredits;
    var t, ts := a.tables, a.ts;
    Unaccounted(t.balances, id);
    match a.payload {
      case RecordSettlement(pid, data) => SettleAccounts(t, a.sender, pid, data, ts, cfg.settlementReward, id);
      case RecordRating(pid, rating, success) => RateAccounts(t, pid, rating, success, ts, cfg.ratingReward, id);
      case ReleaseEscrow(eid, evidence) => ReleaseAccounts(t, a.sender, eid, evidence, ts, cfg.escrowReward, id);
      case VoteDispute(did, decision) => VoteAccounts(cfg, a, id);
      case TransferRCW(to, amount, _) => TransferAccounts(t, a.sender, to, amount, id);
      case SpendRCW(amount, purpose) => SpendAccounts(t, a.sender, amount, purpose, id);
      case _ =>
    }
  }

  // ── Runs ──

  /** As long as no credit of the run wraps, every account holds what it received less what it paid, and is stored
      under its owner. No account ever holds purchased tokens: nothing sells them. */
  lemma {:induction false} AccountsMatchHistory(cfg: Config, ins: seq<Input>, id: Id)
    requires NoneWrap(CreditsIn(cfg, GENESIS, ins))
    ensures var b := BalanceOf(RunFrom(cfg, GENESIS, ins).ledger.tables.balances, id);
            && Holding(b) + AllPaid(Successes(cfg, ins), id) == AllReceived(cfg, Successes(cfg, ins), id)
            && b.purchased == 0 && b.owner == id
  {
    if ins == [] {
    } else {
      hide Perform, Execute, RunFrom, Successes, CreditsOf, Received, Paid, NoneWrap;
      var n := |ins| - 1;
      var before := RunFrom(cfg, GENESIS, ins[..n]).ledger;
      SuccessesNext(cfg, ins);
      SplitNoneWrap(CreditsIn(cfg, GENESIS, ins[..n]), StepCredits(cfg, before, ins[n].tx, ins[n].ts));
      AccountsMatchHistory(cfg, ins[..n], id);
      if Succeeds(cfg, ins, n) {
        AccountStep(cfg, Act(before.tables, ins[n].tx.sender, ins[n].tx.payload, ins[n].ts), id);
      }
    }
  }

  /** So it is while everything ever minted fits in 64 bits. */
  lemma AccountsMatchWithinMints(cfg: Config, ins: seq<Input>, id: Id)
    requires Sum(RunFrom(cfg, GENESIS, ins).events, Mints) < U64_LIMIT
    ensures var b := BalanceOf(RunFrom(cfg, GENESIS, ins).ledger.tables.balances, id);
            b.earned + AllPaid(Successes(cfg, ins), id) == AllReceived(cfg, Successes(cfg, ins), id)
  {
    assert Supply(GENESIS.tables.balances) == 0;
    ReachableConsistent(cfg, []);
    hide RunFrom, Supply, Sum, Consistent, CreditsIn, Wraps, Successes, AllPaid, AllReceived;
    TokensConserved(cfg, GENESIS, ins, id);
    AccountsMatchHistory(cfg, ins, id);
  }
}
