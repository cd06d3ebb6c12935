/** Runs of transactions, and what their event history says about the tables they end in. */
module History {
  import opened Types
  import opened Rules
  import opened Invariants

  datatype Input = Input(tx: Transaction, ts: i64)

  datatype Run = Run(ledger: Ledger, events: seq<Event>)

  const GENESIS: Ledger := Ledger(Tables(map[], map[], map[], map[], map[], map[]), map[])

  /** Any list of transactions, executed in order at any times; a failing one reports no events. */
  function RunFrom(cfg: Config, l: Ledger, ins: seq<Input>): Run {
    if ins == [] then Run(l, [])
    else
      var before := RunFrom(cfg, l, ins[..|ins| - 1]);
      var x := Execute(cfg, before.ledger, ins[|ins| - 1].tx, ins[|ins| - 1].ts);
      Run(x.ledger, before.events + if x.result.Ok? then x.result.value else [])
  }

  lemma {:induction false} RunKeepsConsistent(cfg: Config, l: Ledger, ins: seq<Input>)
    requires Consistent(l.tables)
    ensures Consistent(RunFrom(cfg, l, ins).ledger.tables)
  {
    hide Consistent, Perform;
    if ins != [] {
      var before := RunFrom(cfg, l, ins[..|ins| - 1]).ledger;
      var last := ins[|ins| - 1];
      RunKeepsConsistent(cfg, l, ins[..|ins| - 1]);
      PerformKeepsConsistent(cfg, before.tables, last.tx.sender, last.tx.payload, last.ts);
    }
  }

  lemma ReachableConsistent(cfg: Config, ins: seq<Input>)
    ensures Consistent(RunFrom(cfg, GENESIS, ins).ledger.tables)
  {
    RunKeepsConsistent(cfg, GENESIS, ins);
  }

  /** In every reachable state a failing transaction changes no table, and no nonce but its sender's. */
  lemma FailureLeavesOnlyTheNonce(cfg: Config, ins: seq<Input>, tx: Transaction, ts: i64)
    ensures var l := RunFrom(cfg, GENESIS, ins).ledger;
            var x := Execute(cfg, l, tx, ts);
            x.result.Err? ==>
              x.ledger == if x.result.error == NonceTooLow then l else l.(nonces := l.nonces[tx.sender := tx.nonce])
  {
    hide Perform;
    ReachableConsistent(cfg, ins);
    var l := RunFrom(cfg, GENESIS, ins).ledger;
    PerformIsAtomic(cfg, l.tables, tx.sender, tx.payload, ts);
    OnlyTheNonceCheckBlamesTheNonce(cfg, l.tables, tx.sender, tx.payload, ts);
  }

  // ── Moments of a run ──

  /** The tables before transaction `k`. */
  function TablesAt(cfg: Config, ins: seq<Input>, k: nat): Tables
    requires k <= |ins|
  {
    RunFrom(cfg, GENESIS, ins[..k]).ledger.tables
  }

  /** Transaction `k` of the run succeeds. */
  predicate Succeeds(cfg: Config, ins: seq<Input>, k: nat)
    requires k < |ins|
  {
    Execute(cfg, RunFrom(cfg, GENESIS, ins[..k]).ledger, ins[k].tx, ins[k].ts).result.Ok?
  }

  lemma TablesAfter(cfg: Config, ins: seq<Input>, k: nat)
    requires k < |ins|
    ensures TablesAt(cfg, ins, k + 1)
         == Execute(cfg, RunFrom(cfg, GENESIS, ins[..k]).ledger, ins[k].tx, ins[k].ts).ledger.tables
    ensures Succeeds(cfg, ins, k) ==>
              var o := Perform(cfg, TablesAt(cfg, ins, k), ins[k].tx.sender, ins[k].tx.payload, ins[k].ts);
              o.result.Ok? && TablesAt(cfg, ins, k + 1) == o.tables
  {
    hide Perform;
    assert ins[..k + 1][..k] == ins[..k];
  }

  // ── Escrow lifecycle ──

  /** Between any two moments of a run every escrow keeps its parties, amount and dates, and its state only moves
      from open to one of Released, Refunded and Disputed, which it never leaves. */
  lemma {:induction false} EscrowLifecycle(cfg: Config, l: Ledger, ins: seq<Input>, moment: nat, id: Id)
    requires moment <= |ins|
    requires id in RunFrom(cfg, l, ins[..moment]).ledger.tables.escrows
    ensures var early := RunFrom(cfg, l, ins[..moment]).ledger.tables.escrows;
            var late := RunFrom(cfg, l, ins).ledger.tables.escrows;
            id in late && EscrowEvolves(early[id], late[id])
  {
    hide Perform;
    if moment == |ins| {
      assert ins[..moment] == ins;
    } else {
      var last := ins[|ins| - 1];
      assert ins[..|ins| - 1][..moment] == ins[..moment];
      EscrowLifecycle(cfg, l, ins[..|ins| - 1], moment, id);
      PerformEvolves(cfg, RunFrom(cfg, l, ins[..|ins| - 1]).ledger.tables, last.tx.sender, last.tx.payload, last.ts);
    }
  }

  // ── Counting events ──

  /** How many of `events` satisfy `p`. */
  function Count(p: Event -> bool, events: seq<Event>): nat {
    if events == [] then 0
    else Count(p, events[..|events| - 1]) + if p(events[|events| - 1]) then 1 else 0
  }

  lemma {:induction false} CountConcat(p: Event -> bool, a: seq<Event>, b: seq<Event>)
    ensures Count(p, a + b) == Count(p, a) + Count(p, b)
  {
    if b == [] {
      assert a + b == a;
    } else {
      assert (a + b)[..|a + b| - 1] == a + b[..|b| - 1];
      CountConcat(p, a, b[..|b| - 1]);
    }
  }

  lemma {:induction false} CountNone(p: Event -> bool, events: seq<Event>)
    requires NoMilestones(events) && forall e :: p(e) ==> Milestone(e)
    ensures Count(p, events) == 0
  {
    if events != [] {
      CountNone(p, events[..|events| - 1]);
    }
  }

  /** The milestone a successful payload reports. */
  function MilestoneOf(payload: Payload): Option<Event> {
    match payload
    case ReleaseEscrow(eid, _) => Some(EscrowReleased(eid))
    case RefundEscrow(eid) => Some(EscrowRefunded(eid))
    case RecordSettlement(pid, data) => Some(SettlementRecorded(pid, data.recordId))
    case _ => None
  }

  function EventsOf(r: Result<seq<Event>>): seq<Event> {
    if r.Ok? then r.value else []
  }

  lemma MilestonesOfStep(cfg: Config, t: Tables, sender: Id, payload: Payload, ts: i64, p: Event -> bool)
    requires forall e :: p(e) ==> Milestone(e)
    ensures var o := Perform(cfg, t, sender, payload, ts);
            Count(p, EventsOf(o.result))
            == if o.result.Ok? && MilestoneOf(payload).Some? && p(MilestoneOf(payload).value) then 1 else 0
  {
    hide Register, Update, Deactivate, Settle, Rate, OpenEscrow, Release, Refund, Raise, AddEvidence, Vote, Transfer,
         Spend, Anchor, ParticipantsEvolve, EscrowsEvolve, TokenFree;
    var o := Perform(cfg, t, sender, payload, ts);
    if o.result.Ok? {
      var events := o.result.value;
      if MilestoneOf(payload).Some? {
        CountNone(p, events[1..]);
        assert events == events[..1] + events[1..];
        CountConcat(p, events[..1], events[1..]);
        assert Count(p, events[..1][..0]) == 0;
      } else {
        CountNone(p, events);
      }
    }
  }

  // ── Each escrow is settled at most once ──

  function Settles(id: Id): Event -> bool {
    (e: Event) => e == EscrowReleased(id) || e == EscrowRefunded(id)
  }

  predicate IsSettled(escrows: map<Id, Escrow>, id: Id) {
    id in escrows && (escrows[id].state == Released || escrows[id].state == EscrowState.Refunded)
  }

  predicate SettlesBy(payload: Payload, id: Id) {
    (payload.ReleaseEscrow? || payload.RefundEscrow?) && payload.escrowId == id
  }

  /** A payload settles an escrow exactly when it is a successful release or refund of it, and never a second time. */
  lemma SettledStep(cfg: Config, t: Tables, sender: Id, payload: Payload, ts: i64, id: Id)
    requires Perform(cfg, t, sender, payload, ts).result.Ok?
    ensures var t' := Perform(cfg, t, sender, payload, ts).tables;
            if SettlesBy(payload, id) then !IsSettled(t.escrows, id) && IsSettled(t'.escrows, id)
            else IsSettled(t'.escrows, id) == IsSettled(t.escrows, id)
  {
    hide Register, Update, Deactivate, Settle, Rate, AddEvidence, Vote, Transfer, Spend, Anchor;
    hide ParticipantsEvolve, EscrowsEvolve, Reward, Succeeded, Penalized, TokenFree, Incidental, Reports, NoMilestones;
  }

  lemma SettlingEvents(cfg: Config, t: Tables, sender: Id, payload: Payload, ts: i64, id: Id)
    requires Consistent(t)
    ensures var o := Perform(cfg, t, sender, payload, ts);
            (if IsSettled(t.escrows, id) then 1 else 0) + Count(Settles(id), EventsOf(o.result))
            == if IsSettled(o.tables.escrows, id) then 1 else 0
  {
    hide Perform, Consistent, IsSettled, Count;
    PerformIsAtomic(cfg, t, sender, payload, ts);
    if Perform(cfg, t, sender, payload, ts).result.Ok? {
      SettledStep(cfg, t, sender, payload, ts, id);
    }
    MilestonesOfStep(cfg, t, sender, payload, ts, Settles(id));
  }

  /** The history holds one release or refund of an escrow if it is settled now, and none otherwise. */
  lemma {:induction false} SettledOnce(cfg: Config, ins: seq<Input>, id: Id)
    ensures var run := RunFrom(cfg, GENESIS, ins);
            Count(Settles(id), run.events) == if IsSettled(run.ledger.tables.escrows, id) then 1 else 0
  {
    hide Perform, Consistent;
    if ins != [] {
      hide IsSettled, Settles;
      var before := RunFrom(cfg, GENESIS, ins[..|ins| - 1]);
      var last := ins[|ins| - 1];
      SettledOnce(cfg, ins[..|ins| - 1], id);
      ReachableConsistent(cfg, ins[..|ins| - 1]);
      SettlingEvents(cfg, before.ledger.tables, last.tx.sender, last.tx.payload, last.ts, id);
      CountConcat(Settles(id), before.events, EventsOf(Execute(cfg, before.ledger, last.tx, last.ts).result));
    }
  }
}
