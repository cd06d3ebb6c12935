/** RCW tokens are conserved: what is held is what was there, plus what was minted, minus what was spent. */
module Tokens {
  import opened Types
  import opened Rules
  import opened Invariants
  import opened History

  // ── Supply ──

  function Holding(b: Balance): nat {
    b.earned + b.purchased
  }

  /** Everything held on all accounts together. */
  ghost function Supply(m: map<Id, Balance>): nat {
    if m == map[] then 0
    else
      var owner :| owner in m;
      Holding(m[owner]) + Supply(m - {owner})
  }

  lemma {:induction false} SupplyWithout(m: map<Id, Balance>, owner: Id)
    requires owner in m
    ensures Supply(m) == Holding(m[owner]) + Supply(m - {owner})
  {
    var picked :| picked in m && Supply(m) == Holding(m[picked]) + Supply(m - {picked});
    if picked != owner {
      SupplyWithout(m - {picked}, owner);
      SupplyWithout(m - {owner}, picked);
      assert m - {picked} - {owner} == m - {owner} - {picked};
    }
  }

  lemma SupplySet(m: map<Id, Balance>, owner: Id, b: Balance)
    ensures Supply(m[owner := b]) + Holding(BalanceOf(m, owner)) == Supply(m) + Holding(b)
  {
    SupplyWithout(m[owner := b], owner);
    assert m[owner := b] - {owner} == m - {owner};
    if owner in m {
      SupplyWithout(m, owner);
    } else {
      assert m - {owner} == m;
    }
  }

  // ── Events ──

  datatype Flow = Mints | Spends

  function AmountOf(e: Event, flow: Flow): nat {
    match e
    case RCWMinted(_, amount, _) => if flow == Mints then amount else 0
    case RCWSpent(_, amount, _) => if flow == Spends then amount else 0
    case _ => 0
  }

  function Sum(events: seq<Event>, flow: Flow): nat {
    if events == [] then 0 else Sum(events[..|events| - 1], flow) + AmountOf(events[|events| - 1], flow)
  }

  lemma {:induction false} SumConcat(a: seq<Event>, b: seq<Event>, flow: Flow)
    ensures Sum(a + b, flow) == Sum(a, flow) + Sum(b, flow)
  {
    if b == [] {
      assert a + b == a;
    } else {
      assert (a + b)[..|a + b| - 1] == a + b[..|b| - 1];
      SumConcat(a, b[..|b| - 1], flow);
    }
  }

  lemma SumOne(e: Event, flow: Flow)
    ensures Sum([e], flow) == AmountOf(e, flow)
  {
    assert [e][..0] == [];
  }

  lemma {:induction false} SumOfTokenFree(events: seq<Event>, flow: Flow)
    requires forall i | 0 <= i < |events| :: !events[i].RCWMinted? && !events[i].RCWSpent?
    ensures Sum(events, flow) == 0
  {
    if events != [] {
      SumOfTokenFree(events[..|events| - 1], flow);
    }
  }

  // ── Credits ──

  /** An amount added to the earned balance of an account, and the balances it is added to. */
  datatype Credit = Credit(balances: map<Id, Balance>, to: Id, amount: u64)

  predicate Wraps(c: Credit) {
    BalanceOf(c.balances, c.to).earned + c.amount >= U64_LIMIT
  }

  function Wrapped(cs: seq<Credit>): nat {
    if cs == [] then 0 else Wrapped(cs[..|cs| - 1]) + if Wraps(cs[|cs| - 1]) then 1 else 0
  }

  lemma {:induction false} WrappedConcat(a: seq<Credit>, b: seq<Credit>)
    ensures Wrapped(a + b) == Wrapped(a) + Wrapped(b)
  {
    if b == [] {
      assert a + b == a;
    } else {
      assert (a + b)[..|a + b| - 1] == a + b[..|b| - 1];
      WrappedConcat(a, b[..|b| - 1]);
    }
  }

  lemma {:induction false} NoneWrapped(cs: seq<Credit>)
    requires Wrapped(cs) == 0
    ensures forall i | 0 <= i < |cs| :: !Wraps(cs[i])
  {
    if cs != [] {
      NoneWrapped(cs[..|cs| - 1]);
    }
  }

  lemma WrappedOne(c: Credit)
    ensures Wrapped([c]) == if Wraps(c) then 1 else 0
  {
    assert [c][..0] == [];
  }

  /** A reward of zero is not minted at all. */
  function RewardCredits(balances: map<Id, Balance>, to: Id, amount: u64): seq<Credit> {
    if amount > 0 then [Credit(balances, to, amount)] else []
  }

  function Rewardable(balances: map<Id, Balance>, to: Id, amount: u64): map<Id, Balance> {
    if amount > 0 then Credited(balances, to, amount) else balances
  }

  function TransferCredits(t: Tables, from: Id, to: Id, amount: u64): seq<Credit> {
    [Credit(t.balances[from := Debit(BalanceOf(t.balances, from), amount)], to, amount)]
  }

  function ReleaseCredits(t: Tables, eid: Id, reward: u64): seq<Credit> {
    if eid !in t.escrows then []
    else
      var e := t.escrows[eid];
      RewardCredits(t.balances, e.buyer, reward)
      + RewardCredits(Rewardable(t.balances, e.buyer, reward), e.seller, reward)
  }

  function AwardCredits(t: Tables, d: Dispute, reward: u64): seq<Credit> {
    if d.escrowId !in t.escrows || Resolution(d.votes) == 2 then []
    else
      var e := t.escrows[d.escrowId];
      RewardCredits(t.balances, if Resolution(d.votes) == 0 then e.buyer else e.seller, reward)
  }

  function VoteCredits(t: Tables, did: Id, voter: Id, decision: DisputeDecision, ts: i64, reward: u64, threshold: u64)
    : seq<Credit>
  {
    if did !in t.disputes then []
    else
      var d := t.disputes[did];
      var d1 := d.(state := Voting, votes := d.votes + [DisputeVote(voter, decision.Code(), ts)]);
      if |d1.votes| < threshold then [] else AwardCredits(t, d1, reward)
  }

  /** The credits of a payload that succeeds, in order. */
  function CreditsOf(cfg: Config, t: Tables, sender: Id, payload: Payload, ts: i64): seq<Credit> {
    match payload
    case RecordSettlement(pid, _) => RewardCredits(t.balances, pid, cfg.settlementReward)
    case RecordRating(pid, _, _) => RewardCredits(t.balances, pid, cfg.ratingReward)
    case ReleaseEscrow(eid, _) => ReleaseCredits(t, eid, cfg.escrowReward)
    case VoteDispute(did, decision) => VoteCredits(t, did, sender, decision, ts, cfg.disputeReward, cfg.voteThreshold)
    case TransferRCW(to, amount, _) => TransferCredits(t, sender, to, amount)
    case _ => []
  }

  // ── Conservation of one step ──

  /** Tokens only disappear in whole multiples of 2^64: one for each of `credits` that wrapped. */
  ghost predicate Conserved(m: map<Id, Balance>, events: seq<Event>, m': map<Id, Balance>, credits: seq<Credit>) {
    Supply(m) + Sum(events, Mints) == Supply(m') + Sum(events, Spends) + U64_LIMIT * Wrapped(credits)
  }

  /** A debit that the balance check let through never wraps, even where the check itself did. */
  lemma DebitIsExact(b: Balance, amount: u64)
    requires b.Total() >= amount
    ensures b.earned >= amount || b.purchased >= amount - b.earned
    ensures Holding(Debit(b, amount)) + amount == Holding(b)
  {
  }

  lemma CreditConserves(m: map<Id, Balance>, to: Id, amount: u64)
    ensures Supply(Credited(m, to, amount)) + U64_LIMIT * Wrapped([Credit(m, to, amount)]) == Supply(m) + amount
  {
    var b := BalanceOf(m, to);
    WrappedOne(Credit(m, to, amount));
    SupplySet(m, to, b.(earned := WrapAdd(b.earned, amount)));
  }

  lemma RewardConserves(t: Tables, to: Id, amount: u64, reason: string)
    ensures var r := Reward(t, to, amount, reason);
            && Conserved(t.balances, r.events, r.tables.balances, RewardCredits(t.balances, to, amount))
            && r.tables.balances == Rewardable(t.balances, to, amount)
  {
    hide Credited, Wrapped;
    assert Wrapped([]) == 0 by { WrappedNothing(); }
    CreditConserves(t.balances, to, amount);
    SumOne(RCWMinted(to, amount, reason), Mints);
    SumOne(RCWMinted(to, amount, reason), Spends);
  }

  lemma WrappedNothing()
    ensures Wrapped([]) == 0
  {
  }

  lemma ConservedTransitively(m: map<Id, Balance>, a: seq<Event>, m': map<Id, Balance>, b: seq<Event>,
                              m'': map<Id, Balance>, cs: seq<Credit>, ds: seq<Credit>)
    requires Conserved(m, a, m', cs) && Conserved(m', b, m'', ds)
    ensures Conserved(m, a + b, m'', cs + ds)
  {
    SumConcat(a, b, Mints);
    SumConcat(a, b, Spends);
    WrappedConcat(cs, ds);
  }

  lemma Untouched(m: map<Id, Balance>, events: seq<Event>)
    requires forall i | 0 <= i < |events| :: !events[i].RCWMinted? && !events[i].RCWSpent?
    ensures Conserved(m, events, m, [])
  {
    SumOfTokenFree(events, Mints);
    SumOfTokenFree(events, Spends);
  }

  lemma TransferConserves(t: Tables, from: Id, to: Id, amount: u64)
    requires Transfer(t, from, to, amount).result.Ok?
    ensures var o := Transfer(t, from, to, amount);
            Conserved(t.balances, o.result.value, o.tables.balances, TransferCredits(t, from, to, amount))
  {
    var b := BalanceOf(t.balances, from);
    DebitIsExact(b, amount);
    SupplySet(t.balances, from, Debit(b, amount));
    CreditConserves(t.balances[from := Debit(b, amount)], to, amount);
    SumOne(RCWTransferred(from, to, amount), Mints);
    SumOne(RCWTransferred(from, to, amount), Spends);
  }

  lemma SpendConserves(t: Tables, from: Id, amount: u64, purpose: Text)
    requires Spend(t, from, amount, purpose).result.Ok?
    ensures var o := Spend(t, from, amount, purpose); Conserved(t.balances, o.result.value, o.tables.balances, [])
  {
    var b := BalanceOf(t.balances, from);
    DebitIsExact(b, amount);
    SupplySet(t.balances, from, Debit(b, amount));
    SumOne(RCWSpent(from, amount, purpose), Mints);
    SumOne(RCWSpent(from, amount, purpose), Spends);
  }

  /** An event that moves no tokens, before a reward. */
  lemma HeadConserves(m: map<Id, Balance>, head: Event, events: seq<Event>, m': map<Id, Balance>, credits: seq<Credit>)
    requires !head.RCWMinted? && !head.RCWSpent? && Conserved(m, events, m', credits)
    ensures Conserved(m, [head] + events, m', credits)
  {
    hide Conserved;
    Untouched(m, [head]);
    ConservedTransitively(m, [head], m, events, m', [], credits);
    assert [] + credits == credits;
  }

  lemma ReleaseConserves(t: Tables, sender: Id, eid: Id, evidence: Hash, ts: i64, reward: u64)
    requires Release(t, sender, eid, evidence, ts, reward).result.Ok?
    ensures var o := Release(t, sender, eid, evidence, ts, reward);
            Conserved(t.balances, o.result.value, o.tables.balances, ReleaseCredits(t, eid, reward))
  {
    hide Conserved, Reward, Rewardable, RewardCredits, ParticipantsEvolve, EscrowsEvolve, Reports;
    var e := t.escrows[eid];
    var t1 := MoveEscrow(t, eid, e.(state := Released, evidenceHash := Some(evidence)));
    var t2 := Succeed(t1, e.buyer, 0, ts);
    var t3 := Succeed(t2, e.seller, e.amount, ts);
    var r1 := Reward(t3, e.buyer, reward, "escrow_complete");
    var r2 := Reward(r1.tables, e.seller, reward, "escrow_complete");
    RewardConserves(t3, e.buyer, reward, "escrow_complete");
    RewardConserves(r1.tables, e.seller, reward, "escrow_complete");
    HeadConserves(t.balances, EscrowReleased(eid), r1.events, r1.tables.balances,
                  RewardCredits(t.balances, e.buyer, reward));
    ConservedTransitively(t.balances, [EscrowReleased(eid)] + r1.events, r1.tables.balances, r2.events,
                          r2.tables.balances, RewardCredits(t.balances, e.buyer, reward),
                          RewardCredits(r1.tables.balances, e.seller, reward));
  }

  lemma SettleConserves(t: Tables, sender: Id, id: Id, data: SettlementData, ts: i64, reward: u64)
    requires Settle(t, sender, id, data, ts, reward).result.Ok?
    ensures var o := Settle(t, sender, id, data, ts, reward);
            Conserved(t.balances, o.result.value, o.tables.balances, RewardCredits(t.balances, id, reward))
  {
    hide Conserved, Reward, Rewardable, RewardCredits, ParticipantsEvolve, Reports;
    var p := t.participants[id];
    var p' := Succeeded(p, data.grossAmount, ts).(totalSettled := SatAdd(p.totalSettled, data.netAmount));
    var t1 := t.(settlements := t.settlements[data.recordId := RecordOf(id, data, ts)]);
    var t2 := SetParticipant(t1, id, p');
    RewardConserves(t2, id, reward, "settlement_reward");
    var r := Reward(t2, id, reward, "settlement_reward");
    HeadConserves(t.balances, SettlementRecorded(id, data.recordId), r.events, r.tables.balances,
                  RewardCredits(t.balances, id, reward));
  }

  lemma RateConserves(t: Tables, id: Id, rating: u16, success: bool, ts: i64, reward: u64)
    requires Rate(t, id, rating, success, ts, reward).result.Ok?
    ensures var o := Rate(t, id, rating, success, ts, reward);
            Conserved(t.balances, o.result.value, o.tables.balances, RewardCredits(t.balances, id, reward))
  {
    hide Conserved, Reward, Rewardable, RewardCredits, ParticipantsEvolve, TrustScore.ComputeTrustScore, Incidental;
    var p := Rated(t.participants[id], rating, success, ts);
    var t1 := SetParticipant(t, id, p);
    RewardConserves(t1, id, reward, "rating_reward");
    var r := Reward(t1, id, reward, "rating_reward");
    HeadConserves(t.balances, RatingRecorded(id, TrustScore.ComputeTrustScore(p)), r.events, r.tables.balances,
                  RewardCredits(t.balances, id, reward));
  }

  lemma AwardConserves(t: Tables, d: Dispute, e: Escrow, resolution: u8, reward: u64)
    ensures var r := Award(t, d, e, resolution, reward);
            Conserved(t.balances, r.events, r.tables.balances,
                      RewardCredits(t.balances, if resolution == 0 then e.buyer else e.seller, reward))
  {
    hide Conserved, Reward, Rewardable, RewardCredits, ParticipantsEvolve, Penalized, WonBy;
    var winner := if resolution == 0 then e.buyer else e.seller;
    var loser := if resolution == 0 then e.seller else e.buyer;
    var t1 := WonBy(t, winner, d.raisedBy != winner);
    RewardConserves(Penalized(t1, loser, if d.raisedBy == loser then 2 else 1), winner, reward, "dispute_won");
  }

  lemma ResolveConserves(t: Tables, did: Id, d: Dispute, ts: i64, reward: u64)
    requires Resolve(t, did, d, ts, reward).result.Ok?
    ensures var o := Resolve(t, did, d, ts, reward);
            Conserved(t.balances, o.result.value, o.tables.balances, AwardCredits(t, d, reward))
  {
    hide Conserved, Award, RewardCredits, ParticipantsEvolve, Resolution, Incidental;
    var res := Resolution(d.votes);
    var d' := d.(state := Resolved, resolution := Some(res), resolvedAt := Some(ts));
    var r := if res == 2 then Rewarded(t, []) else Award(t, d', t.escrows[d.escrowId], res, reward);
    var credits := AwardCredits(t, d, reward);
    AwardConserves(t, d', t.escrows[d.escrowId], res, reward);
    Untouched(t.balances, []);
    Untouched(r.tables.balances, [DisputeResolved(did, res)]);
    ConservedTransitively(t.balances, r.events, r.tables.balances, [DisputeResolved(did, res)], r.tables.balances,
                          credits, []);
    assert credits + [] == credits;
  }

  lemma VoteConserves(t: Tables, did: Id, voter: Id, decision: DisputeDecision, ts: i64, reward: u64, threshold: u64)
    requires Vote(t, did, voter, decision, ts, reward, threshold).result.Ok?
    ensures var o := Vote(t, did, voter, decision, ts, reward, threshold);
            Conserved(t.balances, o.result.value, o.tables.balances,
                      VoteCredits(t, did, voter, decision, ts, reward, threshold))
  {
    hide Conserved, Resolve, AwardCredits, ParticipantsEvolve, Incidental, HasVoted;
    var d := t.disputes[did];
    var d1 := d.(state := Voting, votes := d.votes + [DisputeVote(voter, decision.Code(), ts)]);
    if |d1.votes| < threshold {
      Untouched(t.balances, []);
    } else {
      ResolveConserves(t, did, d1, ts, reward);
    }
  }

  /** A payload that succeeds conserves tokens exactly, but for its own credits that wrap. */
  lemma PerformConserves(cfg: Config, t: Tables, sender: Id, payload: Payload, ts: i64)
    requires Perform(cfg, t, sender, payload, ts).result.Ok?
    ensures var o := Perform(cfg, t, sender, payload, ts);
            Conserved(t.balances, o.result.value, o.tables.balances, CreditsOf(cfg, t, sender, payload, ts))
  {
    hide Register, Update, Deactivate, Settle, Rate, OpenEscrow, Release, Refund, Raise, AddEvidence, Vote, Transfer,
         Spend, Anchor, ParticipantsEvolve, EscrowsEvolve, Incidental, Reports, Conserved, RewardCredits,
         ReleaseCredits, VoteCredits, TransferCredits;
    match payload {
      case RecordSettlement(pid, record) => SettleConserves(t, sender, pid, record, ts, cfg.settlementReward);
      case RecordRating(pid, rating, success) => RateConserves(t, pid, rating, success, ts, cfg.ratingReward);
      case ReleaseEscrow(eid, evidence) => ReleaseConserves(t, sender, eid, evidence, ts, cfg.escrowReward);
      case VoteDispute(did, decision) =>
        VoteConserves(t, did, sender, decision, ts, cfg.disputeReward, cfg.voteThreshold);
      case TransferRCW(to, amount, _) => TransferConserves(t, sender, to, amount);
      case SpendRCW(amount, purpose) => SpendConserves(t, sender, amount, purpose);
      case _ => Untouched(t.balances, Perform(cfg, t, sender, payload, ts).result.value);
    }
  }

  // ── Conservation over runs ──

  /** The credits of one transaction: none if it fails. */
  function StepCredits(cfg: Config, l: Ledger, tx: Transaction, ts: i64): seq<Credit> {
    if Execute(cfg, l, tx, ts).result.Ok? then CreditsOf(cfg, l.tables, tx.sender, tx.payload, ts) else []
  }

  /** Every credit of a run. */
  function CreditsIn(cfg: Config, l: Ledger, ins: seq<Input>): seq<Credit> {
    if ins == [] then []
    else
      var last := ins[|ins| - 1];
      CreditsIn(cfg, l, ins[..|ins| - 1])
      + StepCredits(cfg, RunFrom(cfg, l, ins[..|ins| - 1]).ledger, last.tx, last.ts)
  }

  /** Over every run from every consistent ledger, tokens are conserved up to 2^64 for each credit that wraps. */
  lemma {:induction false} RunConserves(cfg: Config, l: Ledger, ins: seq<Input>)
    requires Consistent(l.tables)
    ensures var run := RunFrom(cfg, l, ins);
            Conserved(l.tables.balances, run.events, run.ledger.tables.balances, CreditsIn(cfg, l, ins))
  {
    hide Perform, Consistent, Conserved, CreditsOf;
    if ins == [] {
      Untouched(l.tables.balances, []);
    } else {
      var before := RunFrom(cfg, l, ins[..|ins| - 1]);
      var last := ins[|ins| - 1];
      RunConserves(cfg, l, ins[..|ins| - 1]);
      RunKeepsConsistent(cfg, l, ins[..|ins| - 1]);
      StepConserves(cfg, before.ledger, last.tx, last.ts);
      hide Execute, StepCredits;
      ConservedTransitively(l.tables.balances, before.events, before.ledger.tables.balances,
                            EventsOf(Execute(cfg, before.ledger, last.tx, last.ts).result),
                            Execute(cfg, before.ledger, last.tx, last.ts).ledger.tables.balances,
                            CreditsIn(cfg, l, ins[..|ins| - 1]), StepCredits(cfg, before.ledger, last.tx, last.ts));
    }
  }

  lemma StepConserves(cfg: Config, l: Ledger, tx: Transaction, ts: i64)
    requires Consistent(l.tables)
    ensures var x := Execute(cfg, l, tx, ts);
            Conserved(l.tables.balances, EventsOf(x.result), x.ledger.tables.balances, StepCredits(cfg, l, tx, ts))
  {
    hide Perform, Consistent, Conserved, CreditsOf;
    PerformIsAtomic(cfg, l.tables, tx.sender, tx.payload, ts);
    if Execute(cfg, l, tx, ts).result.Ok? {
      PerformConserves(cfg, l.tables, tx.sender, tx.payload, ts);
    } else {
      Untouched(l.tables.balances, []);
    }
  }

  lemma HoldingWithinSupply(m: map<Id, Balance>, owner: Id)
    ensures Holding(BalanceOf(m, owner)) <= Supply(m)
  {
    if owner in m {
      SupplyWithout(m, owner);
    }
  }

  /** While everything ever minted fits in 64 bits, no credit anywhere in the run wraps, conservation is exact and so is
      every account total. */
  lemma TokensConserved(cfg: Config, l: Ledger, ins: seq<Input>, owner: Id)
    requires Consistent(l.tables)
    requires Supply(l.tables.balances) + Sum(RunFrom(cfg, l, ins).events, Mints) < U64_LIMIT
    ensures forall i | 0 <= i < |CreditsIn(cfg, l, ins)| :: !Wraps(CreditsIn(cfg, l, ins)[i])
    ensures var run := RunFrom(cfg, l, ins);
            && Supply(run.ledger.tables.balances) + Sum(run.events, Spends)
               == Supply(l.tables.balances) + Sum(run.events, Mints)
            && BalanceOf(run.ledger.tables.balances, owner).Total()
                == Holding(BalanceOf(run.ledger.tables.balances, owner))
  {
    hide RunFrom, Supply, Sum, Consistent, CreditsIn, Wraps, Wrapped;
    RunConserves(cfg, l, ins);
    NoneWrapped(CreditsIn(cfg, l, ins));
    HoldingWithinSupply(RunFrom(cfg, l, ins).ledger.tables.balances, owner);
  }

  /** A credit is exact if and only if it does not wrap. */
  lemma CreditWrapsIff(m: map<Id, Balance>, to: Id, amount: u64)
    ensures Supply(Credited(m, to, amount)) == Supply(m) + amount <==> !Wraps(Credit(m, to, amount))
  {
    CreditConserves(m, to, amount);
    WrappedOne(Credit(m, to, amount));
    hide Supply, Credited, Wraps;
  }
}
