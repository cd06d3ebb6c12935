/** What agreement on blocks means for the state: nodes that store the same chain hold the same ledger. */
module Ledgers {
  import opened Types
  import opened Agreement
  import opened Chain
  import opened Consensus
  import opened Invariants
  import opened Protocol
  import opened Quorum
  import opened Replication
  import opened Rules
  import History

  /** The ledger after the blocks at heights 1 to `h`. */
  function ChainLedger(prims: Primitives, cfg: Config, start: Ledger, blocks: map<u64, Block>, h: u64): Ledger {
    if h == 0 then start
    else
      var before := ChainLedger(prims, cfg, start, blocks, h - 1);
      if h in blocks then After(prims, cfg, before, blocks[h]) else before
  }

  function After(prims: Primitives, cfg: Config, l: Ledger, b: Block): Ledger {
    Replay(prims, cfg, l, b.transactions, b.header.timestamp).ledger
  }

  /** What every ledger reachable from empty tables satisfies. */
  ghost predicate Sane(l: Ledger) {
    Consistent(l.tables) && NoncesPositive(l)
  }

  lemma {:induction false} ReplayKeepsSane(prims: Primitives, cfg: Config, l: Ledger, txs: seq<Transaction>, ts: i64)
    requires Sane(l)
    ensures Sane(Replay(prims, cfg, l, txs, ts).ledger)
  {
    hide Perform, Consistent;
    ReplayKeepsNoncesPositive(prims, cfg, l, txs, ts);
    if txs != [] {
      var before := Replay(prims, cfg, l, txs[..|txs| - 1], ts).ledger;
      var tx := txs[|txs| - 1];
      ReplayKeepsSane(prims, cfg, l, txs[..|txs| - 1], ts);
      PerformKeepsConsistent(cfg, before.tables, tx.sender, tx.payload, ts);
    }
  }

  lemma {:induction false} ChainLedgerSane(prims: Primitives, cfg: Config, start: Ledger, blocks: map<u64, Block>,
                                           h: u64)
    requires Sane(start)
    ensures Sane(ChainLedger(prims, cfg, start, blocks, h))
  {
    hide Sane, Replay;
    if h > 0 {
      ChainLedgerSane(prims, cfg, start, blocks, h - 1);
      if h in blocks {
        ReplayKeepsSane(prims, cfg, ChainLedger(prims, cfg, start, blocks, h - 1), blocks[h].transactions,
                        blocks[h].header.timestamp);
      }
    }
  }

  /** The same content at every height up to `h`. */
  ghost predicate SameUpTo(blocks: map<u64, Block>, blocks': map<u64, Block>, h: u64) {
    forall k: u64 | 0 < k <= h :: k in blocks && k in blocks' && SameContent(blocks[k], blocks'[k])
  }

  lemma {:induction false} SameChainSameLedger(prims: Primitives, cfg: Config, start: Ledger, blocks: map<u64, Block>,
                                               blocks': map<u64, Block>, h: u64)
    requires SameUpTo(blocks, blocks', h)
    ensures ChainLedger(prims, cfg, start, blocks, h) == ChainLedger(prims, cfg, start, blocks', h)
  {
    hide Replay;
    if h > 0 {
      SameChainSameLedger(prims, cfg, start, blocks, blocks', h - 1);
    }
  }

  lemma ReachableSane(cfg: Config, ins: seq<History.Input>)
    ensures Sane(History.RunFrom(cfg, History.GENESIS, ins).ledger)
  {
    History.ReachableConsistent(cfg, ins);
    RunKeepsNoncesPositive(cfg, History.GENESIS, ins);
  }

  // ── One node ──

  /** The node's ledger is the replay of its stored blocks, and of its pending one. */
  predicate Synced(st: Settings, start: Ledger, s: NodeState) {
    var l := ChainLedger(st.prims, st.config, start, s.blocks, s.Height());
    s.ledger == if s.pending.Some? then After(st.prims, st.config, l, s.pending.value) else l
  }

  /** A production that drains the pool leaves no sender behind and keeps signed transactions only. */
  ghost predicate CleanLead(st: Settings, s: NodeState, now: i64) {
    s.pool != [] && Produce(st, s, now).state.pool == [] ==>
      && NoneLeftBehind(st.config, s.ledger, s.pool, now)
      && AllSigned(st.prims, Lead(st.config, s.ledger, s.pool, now).kept)
  }

  /** Then what the leader executed is what its followers will replay. */
  lemma CleanLeadReplays(prims: Primitives, cfg: Config, l: Ledger, txs: seq<Transaction>, now: i64)
    requires Sane(l) && NoneLeftBehind(cfg, l, txs, now) && AllSigned(prims, Lead(cfg, l, txs, now).kept)
    ensures Replay(prims, cfg, l, Lead(cfg, l, txs, now).kept, now).ledger == Lead(cfg, l, txs, now).ledger
  {
    hide Lead, Replay, NoneLeftBehind, Consistent, NoncesPositive, Replication.Follows;
    var led := Lead(cfg, l, txs, now);
    FollowerSimulatesLeader(prims, cfg, l, txs, now);
    LeadKeepsNoncesPositive(cfg, l, txs, now);
    ReplayKeepsNoncesPositive(prims, cfg, l, led.kept, now);
    SameLedgerIff(cfg, l, txs, now, led, Replay(prims, cfg, l, led.kept, now));
  }

  lemma SameChainStaysSynced(st: Settings, start: Ledger, s: NodeState, s': NodeState)
    requires Synced(st, start, s) && s'.blocks == s.blocks && s'.latest == s.latest && s'.ledger == s.ledger
    requires s.pending.Some? <==> s'.pending.Some?
    requires s.pending.Some? ==> SameContent(s.pending.value, s'.pending.value)
    ensures Synced(st, start, s')
  {
    hide ChainLedger, Replay;
  }

  /** Storing the next block replays one more block. */
  lemma NextLedger(st: Settings, start: Ledger, s: NodeState, b: Block)
    requires Linked(st.prims, s) && s.latest.value < MAX_U64 && b.header.height == s.latest.value + 1
    ensures ChainLedger(st.prims, st.config, start, s.Put(b).blocks, b.header.height)
         == After(st.prims, st.config, ChainLedger(st.prims, st.config, start, s.blocks, s.latest.value), b)
  {
    hide Replay, LinkedAt;
    SameChainSameLedger(st.prims, st.config, start, s.blocks, s.Put(b).blocks, s.latest.value);
  }

  lemma FinalizeStaysSynced(st: Settings, start: Ledger, s: NodeState, genesis: Block, proposals: set<Block>, now: i64)
    requires Orderly(st.prims, s, genesis, proposals) && Synced(st, start, s) && !TimesOut(st, s, now)
    ensures Synced(st, start, FinalizePending(st, s, now))
  {
    hide Replay, LinkedAt, ChainLedger, StoredWereProposed, ByTurn, KeepsOwn, Proposed, Roster.Finalizes;
    if s.pending.Some? {
      NextLedger(st, start, s, s.pending.value);
    }
  }

  /** What a production does to ledger and chain, if it drains the pool at all. */
  lemma ProductionShape(st: Settings, s: NodeState, now: i64)
    ensures var p := Produce(st, s, now);
            var led := Lead(st.config, s.ledger, s.pool, now);
            if s.pool != [] && p.state.pool == [] then
              && s.pending.None? && p.state.ledger == led.ledger && (p.block.Some? <==> led.kept != [])
              && (p.block.Some? ==> MakesBlock(st, s, now, led, p.block.value, p.state))
              && (p.block.None? ==> p.state.blocks == s.blocks && p.state.latest == s.latest && p.state.pending.None?)
            else p == Produced(s, None)
  {
    hide Lead, Signer.LeaderAt, Roster.Finalizes;
  }

  predicate MakesBlock(st: Settings, s: NodeState, now: i64, led: Led, b: Block, s': NodeState) {
    && b.transactions == led.kept && b.header.timestamp == now && b.header.stateRoot == st.prims.stateRoot(led.ledger)
    && if s'.pending.Some? then s'.pending.value == b && s'.blocks == s.blocks && s'.latest == s.latest
       else s'.blocks == s.Put(b).blocks && s'.latest == Some(b.header.height)
  }

  /** The block that a clean production makes: its root is that of the replay. */
  lemma ProduceStaysSynced(st: Settings, start: Ledger, s: NodeState, now: i64)
    requires Linked(st.prims, s) && s.latest.value < MAX_U64 && Synced(st, start, s) && Sane(start)
    requires CleanLead(st, s, now)
    ensures Synced(st, start, Produce(st, s, now).state)
    ensures var p := Produce(st, s, now);
            p.block.Some? ==>
              && s.pending.None?
              && p.block.value.header.stateRoot
                 == st.prims.stateRoot(After(st.prims, st.config, s.ledger, p.block.value))
  {
    hide Lead, LinkedAt, ChainLedger, Sane, NoneLeftBehind, AllSigned, Produce;
    assert Replay(st.prims, st.config, s.ledger, [], now).ledger == s.ledger;
    hide Replay;
    var p := Produce(st, s, now);
    ProductionShape(st, s, now);
    ChainLedgerSane(st.prims, st.config, start, s.blocks, s.Height());
    if s.pool != [] && p.state.pool == [] {
      CleanLeadReplays(st.prims, st.config, s.ledger, s.pool, now);
      if p.block.Some? {
        ProducedBlock(st, s, now);
        NextLedger(st, start, s, p.block.value);
      }
    }
  }

  /** A follower that holds the proposer's ledger replays the proposal to the root it states, and stores it. */
  lemma FollowStaysSynced(st: Settings, start: Ledger, s: NodeState, genesis: Block, proposals: set<Block>, b: Block)
    requires Orderly(st.prims, s, genesis, proposals) && Synced(st, start, s)
    requires b in proposals && b.header.proposer != s.roster.self
    requires b.header.height == s.latest.value + 1 ==>
               b.header.stateRoot == st.prims.stateRoot(After(st.prims, st.config,
                                                              ChainLedger(st.prims, st.config, start, s.blocks,
                                                                          s.latest.value), b))
    ensures Synced(st, start, HandleProposal(st, s, b).state)
  {
    LeaderIsFirst(s, b.header.height);
    hide FirstLeader, Replay, LinkedAt, ChainLedger, StoredWereProposed, KeepsOwn, Proposed, Signer.LeaderAt;
    if HandleProposal(st, s, b).state != s {
      NextLedger(st, start, s, b);
    }
  }

  // ── The network ──

  /** All nodes run the same cryptography and the same rules. */
  ghost predicate Alike(st: AllSettings, prims: Primitives, cfg: Config) {
    forall i :: st(i).prims == prims && st(i).config == cfg
  }

  /** A proposal states the root of what its proposer's chain leads to. */
  predicate RootTrue(prims: Primitives, cfg: Config, start: Ledger, s: NodeState, b: Block) {
    && 0 < b.header.height <= s.Height() + 1
    && b.header.stateRoot
       == prims.stateRoot(After(prims, cfg, ChainLedger(prims, cfg, start, s.blocks, b.header.height - 1), b))
  }

  ghost predicate InStep(st: AllSettings, prims: Primitives, cfg: Config, start: Ledger, net: Net) {
    && (forall i | i in net.nodes :: Synced(st(i), start, net.nodes[i]))
    && (forall b | b in net.proposals ::
          b.header.proposer in net.nodes && RootTrue(prims, cfg, start, net.nodes[b.header.proposer], b))
  }

  lemma RootStays(prims: Primitives, cfg: Config, start: Ledger, s: NodeState, s': NodeState, b: Block)
    requires Linked(prims, s) && Linked(prims, s') && Extends(s.blocks, s'.blocks) && RootTrue(prims, cfg, start, s, b)
    ensures RootTrue(prims, cfg, start, s', b)
  {
    hide Replay, LinkedAt, After;
    assert s.latest.value in s'.blocks;
    SameChainSameLedger(prims, cfg, start, s.blocks, s'.blocks, b.header.height - 1);
  }

  /** Two nodes of a sound network that have both reached height `h` have replayed the same blocks to get there. */
  lemma SoundChainsSameLedger(st: AllSettings, net: Net, genesis: Block, prims: Primitives, cfg: Config, start: Ledger,
                              i: Id,
                              j: Id, h: u64)
    requires Sound(st, net, genesis) && i in net.nodes && j in net.nodes
    requires h <= net.nodes[i].Height() && h <= net.nodes[j].Height()
    ensures ChainLedger(prims, cfg, start, net.nodes[i].blocks, h)
        == ChainLedger(prims, cfg, start, net.nodes[j].blocks, h)
  {
    hide LinkedAt, ChainLedger, StoredWereProposed, ByTurn, KeepsOwn, PendingIsNext, Knows, SameContent;
    assert Orderly(st(i).prims, net.nodes[i], genesis, net.proposals);
    assert Orderly(st(j).prims, net.nodes[j], genesis, net.proposals);
    forall k: u64 | 0 < k <= h
      ensures k in net.nodes[i].blocks && k in net.nodes[j].blocks
              && SameContent(net.nodes[i].blocks[k], net.nodes[j].blocks[k])
    {
      SoundAgrees(st, net, genesis, i, j, k);
    }
    SameChainSameLedger(prims, cfg, start, net.nodes[i].blocks, net.nodes[j].blocks, h);
  }

  /** A production that is clean, if the happening is one. */
  ghost predicate Clean(st: AllSettings, net: Net, e: Happening) {
    e.action.Leads? && e.node in net.nodes ==> CleanLead(st(e.node), net.nodes[e.node], e.action.now)
  }

  lemma QuietStaysSynced(st: Settings, start: Ledger, s: NodeState, a: Action)
    requires Synced(st, start, s) && !a.Completes? && !a.Leads? && !a.Follows?
    ensures Synced(st, start, Act(st, s, a))
  {
    hide Synced, CheckTimeout;
    if a.Waits? {
      TimeoutOnlyMovesView(st, s, a);
    }
    SameChainStaysSynced(st, start, s, Act(st, s, a));
  }

  lemma TimeoutOnlyMovesView(st: Settings, s: NodeState, a: Action)
    requires a.Waits?
    ensures var s' := CheckTimeout(st, s, a.now).state; s' == s.(view := s'.view, lastBlockTime := s'.lastBlockTime)
  {
  }

  /** A proposal that a node is handed states the root of that node's own chain and the proposed transactions. */
  lemma ProposalRoot(st: AllSettings, net: Net, genesis: Block, prims: Primitives, cfg: Config, start: Ledger, i: Id,
                     b: Block)
    requires Sound(st, net, genesis) && InStep(st, prims, cfg, start, net)
    requires i in net.nodes && b in net.proposals && b.header.height == net.nodes[i].Height() + 1
    ensures b.header.stateRoot
         == prims.stateRoot(After(prims, cfg, ChainLedger(prims, cfg, start, net.nodes[i].blocks,
                                                          net.nodes[i].Height()), b))
  {
    hide Orderly, Knows, After, ChainLedger, Synced;
    var q := b.header.proposer;
    assert RootTrue(prims, cfg, start, net.nodes[q], b);
    SoundChainsSameLedger(st, net, genesis, prims, cfg, start, q, i, net.nodes[i].Height());
  }

  lemma NodeStaysSynced(st: Settings, start: Ledger, s: NodeState, genesis: Block, proposals: set<Block>, a: Action)
    requires Orderly(st.prims, s, genesis, proposals) && Synced(st, start, s) && Sane(start)
    requires a.Follows? ==> a.block in proposals && a.block.header.proposer != s.roster.self
    requires a.Follows? && a.block.header.height == s.Height() + 1 ==>
               a.block.header.stateRoot
               == st.prims.stateRoot(After(st.prims, st.config,
                                           ChainLedger(st.prims, st.config, start, s.blocks, s.Height()),
                                           a.block))
    requires a.Completes? ==> !TimesOut(st, s, a.now)
    requires a.Leads? ==> s.Height() < MAX_U64 && CleanLead(st, s, a.now)
    ensures Synced(st, start, Act(st, s, a))
  {
    assert s.latest.Some? && s.Height() == s.latest.value && Linked(st.prims, s);
    hide Sane, Orderly, Linked, Synced, CleanLead, After, ChainLedger, TimesOut, Produce, HandleProposal,
         FinalizePending, Collect, CheckTimeout, HearHandshake, HearViewChange;
    match a {
      case Completes(now) => FinalizeStaysSynced(st, start, s, genesis, proposals, now);
      case Leads(now) => ProduceStaysSynced(st, start, s, now);
      case Follows(b) => FollowStaysSynced(st, start, s, genesis, proposals, b);
      case _ => QuietStaysSynced(st, start, s, a);
    }
  }

  lemma SoundIsOrderly(st: AllSettings, net: Net, genesis: Block, i: Id)
    requires Sound(st, net, genesis) && i in net.nodes
    ensures Orderly(st(i).prims, net.nodes[i], genesis, net.proposals) && net.nodes[i].roster.self == i
    ensures Linked(st(i).prims, net.nodes[i])
  {
    hide LinkedAt;
  }

  /** The acting node stays in step. */
  lemma ActStaysSynced(st: AllSettings, net: Net, genesis: Block, prims: Primitives, cfg: Config, start: Ledger,
                       e: Happening)
    requires Sound(st, net, genesis) && InStep(st, prims, cfg, start, net) && Alike(st, prims, cfg) && Sane(start)
    requires Enabled(st, net, e) && Clean(st, net, e)
    ensures Synced(st(e.node), start, Act(st(e.node), net.nodes[e.node], e.action))
  {
    var s := net.nodes[e.node];
    assert st(e.node).prims == prims && st(e.node).config == cfg && Synced(st(e.node), start, s);
    SoundIsOrderly(st, net, genesis, e.node);
    hide Sane, Orderly, Linked, Synced, CleanLead, After, ChainLedger, TimesOut, Act, Alike, Sound, InStep;
    if e.action.Follows? && e.action.block.header.height == s.Height() + 1 {
      ProposalRoot(st, net, genesis, prims, cfg, start, e.node, e.action.block);
    }
    NodeStaysSynced(st(e.node), start, s, genesis, net.proposals, e.action);
  }

  /** A block that is made now states the root of its maker's chain and its transactions. */
  lemma MadeRootTrue(st: Settings, start: Ledger, s: NodeState, now: i64)
    requires Linked(st.prims, s) && s.latest.value < MAX_U64 && Synced(st, start, s) && Sane(start)
    requires CleanLead(st, s, now) && Produce(st, s, now).block.Some?
    ensures RootTrue(st.prims, st.config, start, s, Produce(st, s, now).block.value)
  {
    hide Sane, LinkedAt, CleanLead, After, ChainLedger, Produce;
    ProduceStaysSynced(st, start, s, now);
    ProducedBlock(st, s, now);
  }

  /** What is true of a root before a happening is true after it. */
  lemma RootKept(st: AllSettings, net: Net, genesis: Block, prims: Primitives, cfg: Config, start: Ledger, e: Happening,
                 b: Block)
    requires Sound(st, net, genesis) && Enabled(st, net, e) && Alike(st, prims, cfg)
    requires b.header.proposer in net.nodes && RootTrue(prims, cfg, start, net.nodes[b.header.proposer], b)
    ensures var net' := Happen(st, net, e);
            b.header.proposer in net'.nodes && RootTrue(prims, cfg, start, net'.nodes[b.header.proposer], b)
  {
    var net', q := Happen(st, net, e), b.header.proposer;
    assert net'.nodes.Keys == net.nodes.Keys && st(q).prims == prims;
    hide Orderly, Linked, Extends, RootTrue, Act, Produce, Enabled, Sound, Happen;
    HappenKeepsSound(st, net, genesis, e);
    HappenExtends(st, net, genesis, e, q);
    SoundIsOrderly(st, net, genesis, q);
    SoundIsOrderly(st, net', genesis, q);
    RootStays(prims, cfg, start, net.nodes[q], net'.nodes[q], b);
  }

  lemma MadeNow(st: AllSettings, net: Net, e: Happening, b: Block)
    requires e.node in net.nodes && b in Happen(st, net, e).proposals && b !in net.proposals
    ensures e.action.Leads? && Produce(st(e.node), net.nodes[e.node], e.action.now).block == Some(b)
    ensures b.header.proposer == net.nodes[e.node].roster.self
  {
    hide Lead, Publish;
  }

  lemma RootsStayTrue(st: AllSettings, net: Net, genesis: Block, prims: Primitives, cfg: Config, start: Ledger,
                      e: Happening, b: Block)
    requires Sound(st, net, genesis) && InStep(st, prims, cfg, start, net) && Alike(st, prims, cfg) && Sane(start)
    requires Enabled(st, net, e) && Clean(st, net, e) && b in Happen(st, net, e).proposals
    ensures var net' := Happen(st, net, e);
            b.header.proposer in net'.nodes && RootTrue(prims, cfg, start, net'.nodes[b.header.proposer], b)
  {
    var s := net.nodes[e.node];
    assert st(e.node).prims == prims && st(e.node).config == cfg && Synced(st(e.node), start, s);
    if b !in net.proposals {
      MadeNow(st, net, e, b);
    }
    SoundIsOrderly(st, net, genesis, e.node);
    hide Sane, Orderly, Linked, Synced, CleanLead, RootTrue, Act, Produce, TimesOut, Happen;
    if b !in net.proposals {
      assert s.latest.Some? by { LinkedHasLatest(prims, s); }
      MadeRootTrue(st(e.node), start, s, e.action.now);
    }
    hide Sound, Enabled, Alike;
    RootKept(st, net, genesis, prims, cfg, start, e, b);
  }

  lemma LinkedHasLatest(prims: Primitives, s: NodeState)
    requires Linked(prims, s)
    ensures s.latest.Some?
  {
  }

  lemma HappenStaysInStep(st: AllSettings, net: Net, genesis: Block, prims: Primitives, cfg: Config, start: Ledger,
                          e: Happening)
    requires Sound(st, net, genesis) && InStep(st, prims, cfg, start, net) && Alike(st, prims, cfg) && Sane(start)
    requires Enabled(st, net, e) && Clean(st, net, e)
    ensures InStep(st, prims, cfg, start, Happen(st, net, e))
  {
    var net' := Happen(st, net, e);
    forall b | b in net'.proposals
      ensures b.header.proposer in net'.nodes && RootTrue(prims, cfg, start, net'.nodes[b.header.proposer], b)
    {
      RootsStayTrue(st, net, genesis, prims, cfg, start, e, b);
    }
    ActStaysSynced(st, net, genesis, prims, cfg, start, e);
    hide Sound, Alike, Sane, Synced, RootTrue, Act, Produce, Enabled, Clean;
  }

  /** Every production among `es` is clean at the moment it happens. */
  ghost predicate AllClean(st: AllSettings, net: Net, es: seq<Happening>) {
    es != [] ==>
      var before := Reach(st, net, es[..|es| - 1]);
      AllClean(st, net, es[..|es| - 1]) && (before.Some? ==> Clean(st, before.value, es[|es| - 1]))
  }

  lemma {:induction false} ReachStaysInStep(st: AllSettings, net: Net, genesis: Block, prims: Primitives, cfg: Config,
                                            start: Ledger, es: seq<Happening>)
    requires Sound(st, net, genesis) && InStep(st, prims, cfg, start, net) && Alike(st, prims, cfg) && Sane(start)
    requires Reach(st, net, es).Some? && AllClean(st, net, es)
    ensures InStep(st, prims, cfg, start, Reach(st, net, es).value)
  {
    hide Sound, InStep, Alike, Sane, Enabled, Happen, Clean;
    if es != [] {
      var before := es[..|es| - 1];
      ReachStaysInStep(st, net, genesis, prims, cfg, start, before);
      ReachKeepsSound(st, net, genesis, before);
      HappenStaysInStep(st, Reach(st, net, before).value, genesis, prims, cfg, start, es[|es| - 1]);
    }
  }

  /** The nodes start from one reachable ledger, and productions leave no sender behind and keep signed transactions
      only. Then, in every interleaving, each node's ledger is the replay of its stored blocks and its pending one; so
      two       nodes at one height with nothing pending hold equal ledgers, nonces included. */
  lemma LedgersAgree(st: AllSettings, net: Net, genesis: Block, prims: Primitives, cfg: Config, start: Ledger,
                     es: seq<Happening>, i: Id, j: Id)
    requires Starts(net, genesis) && Alike(st, prims, cfg) && Sane(start)
    requires forall k | k in net.nodes :: net.nodes[k].ledger == start
    requires Reach(st, net, es).Some? && AllClean(st, net, es) && i in net.nodes && j in net.nodes
    ensures var net' := Reach(st, net, es).value;
            && i in net'.nodes && j in net'.nodes && Synced(st(i), start, net'.nodes[i])
            && var s, s' := net'.nodes[i], net'.nodes[j];
            && (s.Height() == s'.Height() && s.pending.None? && s'.pending.None? ==> s.ledger == s'.ledger)
  {
    StartsSound(st, net, genesis);
    assert InStep(st, prims, cfg, start, net) by { hide Knows; }
    ReachStaysInStep(st, net, genesis, prims, cfg, start, es);
    ReachKeepsSound(st, net, genesis, es);
    ReachKeepsNodes(st, net, es);
    var net' := Reach(st, net, es).value;
    assert st(i).prims == st(j).prims == prims && st(i).config == st(j).config == cfg;
    hide Reach, Sound, Starts, Sane, AllClean, ChainLedger, After, Knows;
    var s, s' := net'.nodes[i], net'.nodes[j];
    if s.Height() == s'.Height() {
      SoundChainsSameLedger(st, net', genesis, prims, cfg, start, i, j, s.Height());
    }
  }
}
