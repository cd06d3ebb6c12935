/** The leader executes everything it drained and proposes what succeeded; a follower replays the proposal. */
module Replication {
  import opened Types
  import opened Bytes
  import opened StateImage
  import opened Rules
  import opened Invariants
  import opened History

  /** Every kept transaction carries a valid signature (the leader does not look). */
  predicate AllSigned(prims: Primitives, txs: seq<Transaction>) {
    forall i | 0 <= i < |txs| :: prims.verifyTx(txs[i])
  }

  /** Whether the last transaction of `id` that passed the nonce check, if any, was kept. */
  predicate LastPassKept(cfg: Config, l: Ledger, txs: seq<Transaction>, ts: i64, id: Id) {
    if txs == [] then true
    else
      var before := txs[..|txs| - 1];
      var tx := txs[|txs| - 1];
      var r := Execute(cfg, Lead(cfg, l, before, ts).ledger, tx, ts).result;
      if tx.sender != id || r == Err(NonceTooLow) then LastPassKept(cfg, l, before, ts, id)
      else r.Ok?
  }

  /** How a follower that replayed the kept transactions stands to the leader. */
  ghost predicate Follows(cfg: Config, l: Ledger, txs: seq<Transaction>, ts: i64, led: Led, replayed: Replayed) {
    && replayed.events == led.events
    && replayed.ledger.tables == led.ledger.tables
    && forall id :: replayed.ledger.Nonce(id) <= led.ledger.Nonce(id)
                    && (replayed.ledger.Nonce(id) == led.ledger.Nonce(id) <==> LastPassKept(cfg, l, txs, ts, id))
  }

  lemma {:induction false} LeadKeepsConsistent(cfg: Config, l: Ledger, txs: seq<Transaction>, ts: i64)
    requires Consistent(l.tables)
    ensures Consistent(Lead(cfg, l, txs, ts).ledger.tables)
  {
    hide Perform, Consistent;
    if txs != [] {
      var tx := txs[|txs| - 1];
      LeadKeepsConsistent(cfg, l, txs[..|txs| - 1], ts);
      PerformKeepsConsistent(cfg, Lead(cfg, l, txs[..|txs| - 1], ts).ledger.tables, tx.sender, tx.payload, ts);
    }
  }

  /** For every drained list: the follower reports the same events, ends with the same six tables, and its nonces are
      behind the leader's exactly for the senders whose last transaction past the nonce check was rejected. */
  lemma {:induction false} FollowerSimulatesLeader(prims: Primitives, cfg: Config, l: Ledger, txs: seq<Transaction>,
                                                   ts: i64)
    requires Consistent(l.tables)
    requires AllSigned(prims, Lead(cfg, l, txs, ts).kept)
    ensures var led := Lead(cfg, l, txs, ts);
            Follows(cfg, l, txs, ts, led, Replay(prims, cfg, l, led.kept, ts))
  {
    hide Perform, Consistent;
    if txs != [] {
      var n := |txs| - 1;
      var tx := txs[n];
      var before := Lead(cfg, l, txs[..n], ts);
      var led := Lead(cfg, l, txs, ts);
      var x := Execute(cfg, before.ledger, tx, ts);
      LeadKeepsConsistent(cfg, l, txs[..n], ts);
      PerformIsAtomic(cfg, before.ledger.tables, tx.sender, tx.payload, ts);
      if x.result.Ok? {
        assert led.kept[..|led.kept| - 1] == before.kept;
        assert prims.verifyTx(led.kept[|led.kept| - 1]);
      }
      assert AllSigned(prims, before.kept) by {
        assert forall i | 0 <= i < |before.kept| :: before.kept[i] == led.kept[i];
      }
      FollowerSimulatesLeader(prims, cfg, l, txs[..n], ts);
      OnlyTheNonceCheckBlamesTheNonce(cfg, before.ledger.tables, tx.sender, tx.payload, ts);
    }
  }

  // ── When a follower accepts the block ──

  /** `set_nonce` only ever stores a nonce above the one it replaces, so no stored nonce is 0. */
  ghost predicate NoncesPositive(l: Ledger) {
    forall id | id in l.nonces :: l.nonces[id] > 0
  }

  lemma {:induction false} LeadKeepsNoncesPositive(cfg: Config, l: Ledger, txs: seq<Transaction>, ts: i64)
    requires NoncesPositive(l)
    ensures NoncesPositive(Lead(cfg, l, txs, ts).ledger)
  {
    hide Perform;
    if txs != [] {
      LeadKeepsNoncesPositive(cfg, l, txs[..|txs| - 1], ts);
    }
  }

  lemma {:induction false} ReplayKeepsNoncesPositive(prims: Primitives, cfg: Config, l: Ledger, txs: seq<Transaction>,
                                                     ts: i64)
    requires NoncesPositive(l)
    ensures NoncesPositive(Replay(prims, cfg, l, txs, ts).ledger)
  {
    hide Perform;
    if txs != [] {
      ReplayKeepsNoncesPositive(prims, cfg, l, txs[..|txs| - 1], ts);
    }
  }

  lemma {:induction false} RunKeepsNoncesPositive(cfg: Config, l: Ledger, ins: seq<Input>)
    requires NoncesPositive(l)
    ensures NoncesPositive(RunFrom(cfg, l, ins).ledger)
  {
    hide Perform;
    if ins != [] {
      RunKeepsNoncesPositive(cfg, l, ins[..|ins| - 1]);
    }
  }

  lemma SameNoncesSameLedger(l: Ledger, m: Ledger)
    requires NoncesPositive(l) && NoncesPositive(m) && l.tables == m.tables
    requires forall id: Id :: l.Nonce(id) == m.Nonce(id)
    ensures l == m
  {
    forall id: Id ensures id in l.nonces <==> id in m.nonces {
      assert l.Nonce(id) == m.Nonce(id);
    }
    forall id | id in l.nonces ensures l.nonces[id] == m.nonces[id] {
      assert l.Nonce(id) == m.Nonce(id);
    }
    assert l.nonces == m.nonces;
  }

  ghost predicate NoneLeftBehind(cfg: Config, l: Ledger, txs: seq<Transaction>, ts: i64) {
    forall id: Id :: LastPassKept(cfg, l, txs, ts, id)
  }

  lemma SameLedgerIff(cfg: Config, l: Ledger, txs: seq<Transaction>, ts: i64, led: Led, replayed: Replayed)
    requires Follows(cfg, l, txs, ts, led, replayed)
    requires NoncesPositive(led.ledger) && NoncesPositive(replayed.ledger)
    ensures replayed.ledger == led.ledger <==> NoneLeftBehind(cfg, l, txs, ts)
  {
    hide Execute, Lead;
    if NoneLeftBehind(cfg, l, txs, ts) {
      SameNoncesSameLedger(replayed.ledger, led.ledger);
    }
  }

  /** Starting from any reachable state, a follower ends in the leader's state exactly when no sender's last transaction
      past the nonce check was rejected. Then the root check passes; otherwise only a collision of the root hash could
      let it pass. */
  lemma FollowerAcceptsIff(prims: Primitives, cfg: Config, ins: seq<Input>, txs: seq<Transaction>, header: BlockHeader)
    requires var led := Lead(cfg, RunFrom(cfg, GENESIS, ins).ledger, txs, header.timestamp);
             AllSigned(prims, led.kept) && header.stateRoot == prims.stateRoot(led.ledger)
    ensures var l := RunFrom(cfg, GENESIS, ins).ledger;
            var led := Lead(cfg, l, txs, header.timestamp);
            var follower := Replay(prims, cfg, l, led.kept, header.timestamp).ledger;
            && (follower == led.ledger <==> NoneLeftBehind(cfg, l, txs, header.timestamp))
            && (follower == led.ledger ==> RootMatches(prims, header, follower))
            && (follower != led.ledger && RootMatches(prims, header, follower) && header.stateRoot != EMPTY_HASH ==>
                  prims.stateRoot(follower) == prims.stateRoot(led.ledger))
  {
    assert NoncesPositive(GENESIS);
    hide Lead, Replay, RunFrom, NoneLeftBehind, Follows, NoncesPositive, Consistent;
    var l := RunFrom(cfg, GENESIS, ins).ledger;
    var ts := header.timestamp;
    var led := Lead(cfg, l, txs, ts);
    ReachableConsistent(cfg, ins);
    FollowerSimulatesLeader(prims, cfg, l, txs, ts);
    RunKeepsNoncesPositive(cfg, GENESIS, ins);
    LeadKeepsNoncesPositive(cfg, l, txs, ts);
    ReplayKeepsNoncesPositive(prims, cfg, l, led.kept, ts);
    SameLedgerIff(cfg, l, txs, ts, led, Replay(prims, cfg, l, led.kept, ts));
  }

  /** With the root computed as the store computes it, and unless those two images collide, a follower accepts the
      proposal exactly when no sender was left behind. */
  lemma FollowerAcceptsByImage(hash: Bytes -> Hash, prims: Primitives, cfg: Config, ins: seq<Input>,
                               txs: seq<Transaction>, header: BlockHeader)
    requires var led := Lead(cfg, RunFrom(cfg, GENESIS, ins).ledger, txs, header.timestamp);
             && AllSigned(prims, led.kept) && header.stateRoot == prims.stateRoot(led.ledger) != EMPTY_HASH
             && prims.stateRoot(led.ledger) == hash(LedgerImage(led.ledger)) && led.ledger.Fits()
    requires var l := RunFrom(cfg, GENESIS, ins).ledger;
             var led := Lead(cfg, l, txs, header.timestamp);
             var follower := Replay(prims, cfg, l, led.kept, header.timestamp).ledger;
             && prims.stateRoot(follower) == hash(LedgerImage(follower)) && follower.Fits()
             && (hash(LedgerImage(follower)) == hash(LedgerImage(led.ledger)) ==>
                   LedgerImage(follower) == LedgerImage(led.ledger))
    ensures var l := RunFrom(cfg, GENESIS, ins).ledger;
            RootMatches(prims, header, Replay(prims, cfg, l, Lead(cfg, l, txs, header.timestamp).kept,
                                              header.timestamp).ledger)
            <==> NoneLeftBehind(cfg, l, txs, header.timestamp)
  {
    hide Lead, Replay, RunFrom, NoneLeftBehind, LedgerImage;
    FollowerAcceptsIff(prims, cfg, ins, txs, header);
    var l := RunFrom(cfg, GENESIS, ins).ledger;
    var led := Lead(cfg, l, txs, header.timestamp);
    var follower := Replay(prims, cfg, l, led.kept, header.timestamp).ledger;
    if RootMatches(prims, header, follower) {
      LedgerImageInjective(follower, led.ledger);
    }
  }

  /** A proposal no follower can accept: one sender's transfer of nothing is rejected after its nonce check, so the
      followers, who never see it, disagree with the root about that nonce and only about it. */
  lemma DoomedProposal(prims: Primitives, cfg: Config, failing: Transaction, passing: Transaction, ts: i64)
    requires failing.payload.TransferRCW? && failing.payload.amount == 0 && failing.nonce > 0
    requires passing.payload.RegisterParticipant? && passing.payload.id == passing.sender && passing.nonce > 0
    requires passing.sender != failing.sender && prims.verifyTx(passing)
    ensures var led := Lead(cfg, GENESIS, [failing, passing], ts);
            var follower := Replay(prims, cfg, GENESIS, led.kept, ts).ledger;
            && led.kept == [passing]
            && follower.tables == led.ledger.tables
            && led.ledger.nonces == follower.nonces[failing.sender := failing.nonce]
            && failing.sender !in follower.nonces
  {
    var txs := [failing, passing];
    assert txs[..1] == [failing] && [failing][..0] == [];
    var first := Execute(cfg, GENESIS, failing, ts);
    assert first.result == Err(AmountIsZero);
    assert Lead(cfg, GENESIS, [failing], ts) == Led(first.ledger, [], []);
    assert [passing][..0] == [];
    assert Replay(prims, cfg, GENESIS, [], ts).ledger == GENESIS;
  }
}
