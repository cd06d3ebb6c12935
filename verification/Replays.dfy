/** The two ways in which a list of transactions is executed, against plain runs: a replayed block is the run of its
    signed transactions and nothing else, and a production is the run of everything drained. */
module Replays {
  import opened Types
  import opened Rules
  import opened History
  import Invariants

  /** The transactions of a list whose signatures verify, in order. */
  function Signed(prims: Primitives, txs: seq<Transaction>): seq<Transaction> {
    if txs == [] then []
    else Signed(prims, txs[..|txs| - 1]) + if prims.verifyTx(txs[|txs| - 1]) then [txs[|txs| - 1]] else []
  }

  /** Transactions executed one after the other at one time. */
  function At(txs: seq<Transaction>, ts: i64): (ins: seq<Input>)
    ensures |ins| == |txs| && forall i | 0 <= i < |txs| :: ins[i] == Input(txs[i], ts)
  {
    seq(|txs|, i requires 0 <= i < |txs| => Input(txs[i], ts))
  }

  lemma RunNext(cfg: Config, l: Ledger, ins: seq<Input>, last: Input)
    ensures var before := RunFrom(cfg, l, ins);
            var x := Execute(cfg, before.ledger, last.tx, last.ts);
            RunFrom(cfg, l, ins + [last]) == Run(x.ledger, before.events + EventsOf(x.result))
  {
    assert (ins + [last])[..|ins + [last]| - 1] == ins;
  }

  lemma AtNext(txs: seq<Transaction>, tx: Transaction, ts: i64)
    ensures At(txs + [tx], ts) == At(txs, ts) + [Input(tx, ts)]
  {
  }

  /** Replaying a block is running its signed transactions: the same ledger and the same events. */
  lemma {:induction false} ReplayIsSignedRun(prims: Primitives, cfg: Config, l: Ledger, txs: seq<Transaction>, ts: i64)
    ensures var r := Replay(prims, cfg, l, txs, ts);
            Run(r.ledger, r.events) == RunFrom(cfg, l, At(Signed(prims, txs), ts))
  {
    hide Execute;
    if txs == [] {
      assert At([], ts) == [];
    } else {
      var before, tx := txs[..|txs| - 1], txs[|txs| - 1];
      ReplayIsSignedRun(prims, cfg, l, before, ts);
      if prims.verifyTx(tx) {
        AtNext(Signed(prims, before), tx, ts);
        RunNext(cfg, l, At(Signed(prims, before), ts), Input(tx, ts));
      } else {
        assert Signed(prims, before) + [] == Signed(prims, before);
      }
    }
  }

  lemma {:induction false} SignedConcat(prims: Primitives, a: seq<Transaction>, b: seq<Transaction>)
    ensures Signed(prims, a + b) == Signed(prims, a) + Signed(prims, b)
  {
    if b == [] {
      assert a + b == a && Signed(prims, a) + [] == Signed(prims, a);
    } else {
      assert (a + b)[..|a + b| - 1] == a + b[..|b| - 1];
      SignedConcat(prims, a, b[..|b| - 1]);
    }
  }

  /** An unsigned transaction, wherever it stands in a block, changes neither the ledger nor the events. */
  lemma UnsignedIsIgnored(prims: Primitives, cfg: Config, l: Ledger, a: seq<Transaction>, tx: Transaction,
                          b: seq<Transaction>, ts: i64)
    requires !prims.verifyTx(tx)
    ensures Replay(prims, cfg, l, a + [tx] + b, ts) == Replay(prims, cfg, l, a + b, ts)
  {
    hide Replay, RunFrom;
    SignedConcat(prims, a + [tx], b);
    SignedConcat(prims, a, [tx]);
    SignedConcat(prims, a, b);
    assert [tx][..0] == [] && Signed(prims, [tx]) == [];
    assert Signed(prims, a) + [] == Signed(prims, a);
    ReplayIsSignedRun(prims, cfg, l, a + [tx] + b, ts);
    ReplayIsSignedRun(prims, cfg, l, a + b, ts);
  }

  /** A signed transaction of the list with this sender and this nonce. */
  predicate Backs(prims: Primitives, tx: Transaction, sender: Id, nonce: u64) {
    prims.verifyTx(tx) && tx.sender == sender && tx.nonce == nonce
  }

  ghost predicate Backed(prims: Primitives, txs: seq<Transaction>, sender: Id, nonce: u64) {
    exists i | 0 <= i < |txs| :: Backs(prims, txs[i], sender, nonce)
  }

  /** Every nonce that a replay changes was signed for. */
  lemma {:induction false} ReplayedNoncesAreBacked(prims: Primitives, cfg: Config, l: Ledger, txs: seq<Transaction>,
                                                  ts: i64, id: Id)
    ensures var l' := Replay(prims, cfg, l, txs, ts).ledger;
            l'.Nonce(id) != l.Nonce(id) ==> l'.Nonce(id) > l.Nonce(id) && Backed(prims, txs, id, l'.Nonce(id))
  {
    hide Perform;
    if txs != [] {
      var n := |txs| - 1;
      ReplayedNoncesAreBacked(prims, cfg, l, txs[..n], ts, id);
      var before, after := Replay(prims, cfg, l, txs[..n], ts).ledger, Replay(prims, cfg, l, txs, ts).ledger;
      if after.Nonce(id) != before.Nonce(id) {
        assert Backs(prims, txs[n], id, after.Nonce(id));
      } else if after.Nonce(id) != l.Nonce(id) {
        var i :| 0 <= i < n && Backs(prims, txs[..n][i], id, before.Nonce(id));
        assert txs[..n][i] == txs[i];
      }
    }
  }

  /** Both at once. */
  lemma ReplayIsBacked(prims: Primitives, cfg: Config, l: Ledger, txs: seq<Transaction>, ts: i64)
    ensures var r := Replay(prims, cfg, l, txs, ts);
            && Run(r.ledger, r.events) == RunFrom(cfg, l, At(Signed(prims, txs), ts))
            && forall id: Id | r.ledger.Nonce(id) != l.Nonce(id) :: Backed(prims, txs, id, r.ledger.Nonce(id))
  {
    hide Replay, RunFrom, Backed;
    ReplayIsSignedRun(prims, cfg, l, txs, ts);
    forall id: Id | Replay(prims, cfg, l, txs, ts).ledger.Nonce(id) != l.Nonce(id)
      ensures Backed(prims, txs, id, Replay(prims, cfg, l, txs, ts).ledger.Nonce(id))
    {
      ReplayedNoncesAreBacked(prims, cfg, l, txs, ts, id);
    }
  }

  // ── Production ──

  /** The producer runs everything it drained, signed or not, and keeps the transactions that succeeded. */
  lemma {:induction false} LeadIsRun(cfg: Config, l: Ledger, txs: seq<Transaction>, ts: i64)
    ensures var led := Lead(cfg, l, txs, ts);
            Run(led.ledger, led.events) == RunFrom(cfg, l, At(txs, ts)) && led.kept == Kept(cfg, l, At(txs, ts))
  {
    hide Execute;
    if txs == [] {
      assert At([], ts) == [];
    } else {
      var before, tx := txs[..|txs| - 1], txs[|txs| - 1];
      LeadIsRun(cfg, l, before, ts);
      assert txs == before + [tx];
      AtNext(before, tx, ts);
      RunNext(cfg, l, At(before, ts), Input(tx, ts));
      assert At(txs, ts)[..|txs| - 1] == At(before, ts);
      var x := Execute(cfg, RunFrom(cfg, l, At(before, ts)).ledger, tx, ts);
      if x.result.Err? {
        assert Lead(cfg, l, before, ts).events + [] == Lead(cfg, l, before, ts).events;
      }
    }
  }

  /** The transactions of a run that succeed. */
  function Kept(cfg: Config, l: Ledger, ins: seq<Input>): seq<Transaction> {
    if ins == [] then []
    else
      var before, last := ins[..|ins| - 1], ins[|ins| - 1];
      Kept(cfg, l, before)
      + if Execute(cfg, RunFrom(cfg, l, before).ledger, last.tx, last.ts).result.Ok? then [last.tx] else []
  }

  // ── Replay protection ──

  /** The transaction passes its nonce check at that point of the run. */
  predicate Passes(cfg: Config, l: Ledger, ins: seq<Input>, k: nat)
    requires k < |ins|
  {
    ins[k].tx.nonce > RunFrom(cfg, l, ins[..k]).ledger.Nonce(ins[k].tx.sender)
  }

  lemma {:induction false} NonceRecorded(cfg: Config, l: Ledger, ins: seq<Input>, i: nat, j: nat)
    requires i < j <= |ins| && Passes(cfg, l, ins, i)
    ensures RunFrom(cfg, l, ins[..j]).ledger.Nonce(ins[i].tx.sender) >= ins[i].tx.nonce
    decreases j
  {
    hide Perform;
    assert ins[..j][..j - 1] == ins[..j - 1];
    if i < j - 1 {
      NonceRecorded(cfg, l, ins, i, j - 1);
    }
  }

  /** The transactions of one sender that pass the nonce check, in any run, carry increasing nonces: none of them can
      be executed twice. */
  lemma NoncesIncrease(cfg: Config, l: Ledger, ins: seq<Input>, i: nat, j: nat)
    requires i < j < |ins| && Passes(cfg, l, ins, i) && Passes(cfg, l, ins, j) && ins[i].tx.sender == ins[j].tx.sender
    ensures ins[i].tx.nonce < ins[j].tx.nonce && ins[i].tx != ins[j].tx
  {
    hide RunFrom;
    NonceRecorded(cfg, l, ins, i, j);
  }

  /** And a transaction whose nonce is not above the stored one has no effect at all. */
  lemma StaleIsRefused(cfg: Config, l: Ledger, tx: Transaction, ts: i64)
    ensures Execute(cfg, l, tx, ts) == Executed(l, Err(NonceTooLow)) <==> tx.nonce <= l.Nonce(tx.sender)
  {
    hide Perform;
    Invariants.OnlyTheNonceCheckBlamesTheNonce(cfg, l.tables, tx.sender, tx.payload, ts);
  }
}
