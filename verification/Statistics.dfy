/** The success counter of every participant agrees with the history of the chain. */
module Statistics {
  import opened Types
  import opened Rules
  import opened Invariants
  import opened History

  function SettlementsOf(p: Id): Event -> bool {
    (e: Event) => e.SettlementRecorded? && e.participantId == p
  }

  datatype Side = BuyerSide | SellerSide

  function PartyOn(e: Escrow, side: Side): Id {
    if side == BuyerSide then e.buyer else e.seller
  }

  function ReleasedOn(escrows: map<Id, Escrow>, p: Id, side: Side): set<Id> {
    set id | id in escrows && escrows[id].state == Released && PartyOn(escrows[id], side) == p
  }

  /** The sides `p` holds in released escrows; someone who buys from themselves holds two. */
  function Sides(escrows: map<Id, Escrow>, p: Id): nat {
    |ReleasedOn(escrows, p, BuyerSide)| + |ReleasedOn(escrows, p, SellerSide)|
  }

  function GainOn(t: Tables, payload: Payload, p: Id, side: Side): nat {
    if payload.ReleaseEscrow? && payload.escrowId in t.escrows && PartyOn(t.escrows[payload.escrowId], side) == p then 1
    else 0
  }

  /** How many successes a successful payload books for `p`. */
  function Gain(t: Tables, payload: Payload, p: Id): nat {
    (if payload.RecordSettlement? && payload.participantId == p then 1 else 0)
    + GainOn(t, payload, p, BuyerSide) + GainOn(t, payload, p, SellerSide)
  }

  function SuccessesOf(participants: map<Id, Participant>, p: Id): nat {
    if p in participants then participants[p].successTx else 0
  }

  lemma SettleCounts(t: Tables, sender: Id, pid: Id, data: SettlementData, ts: i64, reward: u64, p: Id)
    requires Settle(t, sender, pid, data, ts, reward).result.Ok?
    ensures pid in t.participants
    ensures var t' := Settle(t, sender, pid, data, ts, reward).tables;
            SuccessesOf(t'.participants, p)
            == Min(MAX_U64, SuccessesOf(t.participants, p) + if p == pid then 1 else 0)
  {
    hide ParticipantsEvolve, Reward, Reports;
  }

  lemma ReleaseCounts(t: Tables, sender: Id, eid: Id, evidence: Hash, ts: i64, reward: u64, p: Id)
    requires Release(t, sender, eid, evidence, ts, reward).result.Ok?
    ensures eid in t.escrows && t.escrows[eid].buyer in t.participants && t.escrows[eid].seller in t.participants
    ensures var t' := Release(t, sender, eid, evidence, ts, reward).tables;
            SuccessesOf(t'.participants, p)
            == Min(MAX_U64, SuccessesOf(t.participants, p) + (if p == t.escrows[eid].buyer then 1 else 0)
                                                           + if p == t.escrows[eid].seller then 1 else 0)
  {
    hide ParticipantsEvolve, EscrowsEvolve, Reward, Reports;
  }

  lemma CounterStep(cfg: Config, t: Tables, sender: Id, payload: Payload, ts: i64, p: Id)
    requires Perform(cfg, t, sender, payload, ts).result.Ok?
    ensures var t' := Perform(cfg, t, sender, payload, ts).tables;
            p in t'.participants ==>
              SuccessesOf(t'.participants, p) == Min(MAX_U64, SuccessesOf(t.participants, p) + Gain(t, payload, p))
    ensures p !in t.participants ==> Gain(t, payload, p) == 0
  {
    if payload.RecordSettlement? {
      SettleCounts(t, sender, payload.participantId, payload.record, ts, cfg.settlementReward, p);
    } else if payload.ReleaseEscrow? {
      ReleaseCounts(t, sender, payload.escrowId, payload.evidenceHash, ts, cfg.escrowReward, p);
    } else {
      PerformEvolves(cfg, t, sender, payload, ts);
      hide Perform;
    }
    hide Settle, Release;
  }

  /** A released escrow stays released, and only a successful release adds one. */
  lemma ReleasedStep(cfg: Config, t: Tables, sender: Id, payload: Payload, ts: i64, id: Id)
    requires Perform(cfg, t, sender, payload, ts).result.Ok?
    ensures var m, m' := t.escrows, Perform(cfg, t, sender, payload, ts).tables.escrows;
            if payload.ReleaseEscrow? && payload.escrowId == id
            then id in m && m[id].state != Released && id in m' && m'[id].state == Released
            else (id in m' && m'[id].state == Released) == (id in m && m[id].state == Released)
  {
    hide Register, Update, Deactivate, Settle, Rate, AddEvidence, Vote, Transfer, Spend, Anchor;
    hide ParticipantsEvolve, EscrowsEvolve, Reward, Succeeded, Penalized, TokenFree, Incidental, Reports, NoMilestones;
  }

  lemma SideStep(cfg: Config, t: Tables, sender: Id, payload: Payload, ts: i64, p: Id, side: Side)
    requires Perform(cfg, t, sender, payload, ts).result.Ok?
    ensures var t' := Perform(cfg, t, sender, payload, ts).tables;
            |ReleasedOn(t'.escrows, p, side)| == |ReleasedOn(t.escrows, p, side)| + GainOn(t, payload, p, side)
  {
    hide Perform;
    var t' := Perform(cfg, t, sender, payload, ts).tables;
    PerformEvolves(cfg, t, sender, payload, ts);
    hide ParticipantsEvolve;
    var added := if GainOn(t, payload, p, side) == 1 then {payload.escrowId} else {};
    forall id ensures id in ReleasedOn(t'.escrows, p, side) <==> id in ReleasedOn(t.escrows, p, side) + added
              ensures id in added ==> id !in ReleasedOn(t.escrows, p, side)
    {
      ReleasedStep(cfg, t, sender, payload, ts, id);
    }
    assert ReleasedOn(t'.escrows, p, side) == ReleasedOn(t.escrows, p, side) + added;
    assert ReleasedOn(t.escrows, p, side) !! added;
  }

  function Booked(l: Ledger, events: seq<Event>, p: Id): nat {
    Count(SettlementsOf(p), events) + Sides(l.tables.escrows, p)
  }

  /** The counter is what the history books, up to saturation; nothing is booked for someone not registered. */
  predicate CounterAgrees(l: Ledger, events: seq<Event>, p: Id) {
    && SuccessesOf(l.tables.participants, p) == Min(MAX_U64, Booked(l, events, p))
    && (p !in l.tables.participants ==> Booked(l, events, p) == 0)
  }

  lemma BookedStep(cfg: Config, t: Tables, sender: Id, payload: Payload, ts: i64, p: Id)
    requires Consistent(t)
    ensures var o := Perform(cfg, t, sender, payload, ts);
            Count(SettlementsOf(p), EventsOf(o.result)) + Sides(o.tables.escrows, p)
            == Sides(t.escrows, p) + if o.result.Ok? then Gain(t, payload, p) else 0
  {
    hide Perform, Consistent;
    MilestonesOfStep(cfg, t, sender, payload, ts, SettlementsOf(p));
    if Perform(cfg, t, sender, payload, ts).result.Ok? {
      SideStep(cfg, t, sender, payload, ts, p, BuyerSide);
      SideStep(cfg, t, sender, payload, ts, p, SellerSide);
    } else {
      PerformIsAtomic(cfg, t, sender, payload, ts);
    }
  }

  lemma CounterAgreesStep(cfg: Config, l: Ledger, events: seq<Event>, tx: Transaction, ts: i64, p: Id)
    requires Consistent(l.tables) && CounterAgrees(l, events, p)
    ensures var x := Execute(cfg, l, tx, ts); CounterAgrees(x.ledger, events + EventsOf(x.result), p)
  {
    hide Perform, Consistent, Sides, Gain;
    var o := Perform(cfg, l.tables, tx.sender, tx.payload, ts);
    CountConcat(SettlementsOf(p), events, EventsOf(o.result));
    assert events + [] == events;
    BookedStep(cfg, l.tables, tx.sender, tx.payload, ts, p);
    PerformIsAtomic(cfg, l.tables, tx.sender, tx.payload, ts);
    if o.result.Ok? {
      CounterStep(cfg, l.tables, tx.sender, tx.payload, ts, p);
      PerformEvolves(cfg, l.tables, tx.sender, tx.payload, ts);
    }
  }

  /** After every run, `success_tx` is the number of settlements recorded by the participant plus the sides it holds
      in released escrows, or 2^64 - 1 if that number does not fit. */
  lemma {:induction false} SuccessesMatchHistory(cfg: Config, ins: seq<Input>, p: Id)
    ensures var run := RunFrom(cfg, GENESIS, ins); CounterAgrees(run.ledger, run.events, p)
  {
    hide Execute, Consistent, CounterAgrees;
    if ins == [] {
      NothingBooked(p);
    } else {
      var before := RunFrom(cfg, GENESIS, ins[..|ins| - 1]);
      var last := ins[|ins| - 1];
      SuccessesMatchHistory(cfg, ins[..|ins| - 1], p);
      ReachableConsistent(cfg, ins[..|ins| - 1]);
      CounterAgreesStep(cfg, before.ledger, before.events, last.tx, last.ts, p);
    }
  }

  lemma NothingBooked(p: Id)
    ensures CounterAgrees(GENESIS, [], p)
  {
    assert ReleasedOn(map[], p, BuyerSide) == {} && ReleasedOn(map[], p, SellerSide) == {};
  }
}
