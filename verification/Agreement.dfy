/** Several honest nodes: in every interleaving, nodes that store a block at one height store the same block. */
module Agreement {
  import opened Types
  import opened Consensus
  import opened Quorum
  import opened Protocol
  import opened Chain
  import Rotation
  import Rules

  /** Every node's state, and every block proposed so far. */
  datatype Net = Net(nodes: map<Id, NodeState>, proposals: set<Block>)

  datatype Happening = Happening(node: Id, action: Action)

  /** Each node runs with settings of its own. */
  type AllSettings = Id -> Settings

  // ── Steps ──

  /** Messages may be lost, reordered and duplicated, signatures and votes may be anything at all; a proposal reaches
      only nodes other than its proposer. Ruled out are new validators, discarding a pending block, completing a view
      change, and a chain of 2^64 blocks. */
  predicate Enabled(st: AllSettings, net: Net, e: Happening) {
    && e.node in net.nodes
    && var s := net.nodes[e.node];
    && (e.action.Follows? ==> e.action.block in net.proposals && e.action.block.header.proposer != e.node)
    && (e.action.HearsPeer? ==> e.action.id in net.nodes)
    && (e.action.Completes? ==> !TimesOut(st(e.node), s, e.action.now))
    && (e.action.Leads? ==> s.Height() < MAX_U64)
    && Act(st(e.node), s, e.action).view.round == 0
  }

  function Happen(st: AllSettings, net: Net, e: Happening): Net
    requires e.node in net.nodes
  {
    var s := net.nodes[e.node];
    var made := if e.action.Leads? then Produce(st(e.node), s, e.action.now).block else None;
    Net(net.nodes[e.node := Act(st(e.node), s, e.action)],
        net.proposals + if made.Some? then {made.value} else {})
  }

  /** All the networks a list of happenings can lead to: none if one of them is not enabled. */
  function Reach(st: AllSettings, net: Net, es: seq<Happening>): Option<Net> {
    if es == [] then Some(net)
    else
      var before := Reach(st, net, es[..|es| - 1]);
      var e := es[|es| - 1];
      if before.Some? && Enabled(st, before.value, e) then Some(Happen(st, before.value, e)) else None
  }

  // ── What every step keeps ──

  predicate SameContent(a: Block, b: Block) {
    a.header == b.header && a.transactions == b.transactions
  }

  ghost predicate Proposed(proposals: set<Block>, b: Block) {
    exists p | p in proposals :: SameContent(p, b)
  }

  /** The leader of a height while no view change completes. */
  function FirstLeader(r: Roster, height: u64): Id {
    Rotation.Leader(Rotation.AllNodes(PeerIds(r.peers), r.self), height, 0)
  }

  /** The pending block is the node's own next block. */
  ghost predicate PendingIsNext(prims: Primitives, s: NodeState, proposals: set<Block>) {
    s.pending.Some? ==>
      && s.latest.Some? && s.latest.value < MAX_U64 && s.latest.value in s.blocks
      && s.pending.value.header.height == s.latest.value + 1
      && s.pending.value.header.proposer == s.roster.self
      && s.pending.value.header.prevHash == prims.hashHeader(s.blocks[s.latest.value].header)
      && Proposed(proposals, s.pending.value)
  }

  /** What a proposer proposed, it has stored or keeps pending. */
  predicate Keeps(s: NodeState, b: Block) {
    || (b.header.height in s.blocks && SameContent(b, s.blocks[b.header.height]))
    || (s.pending.Some? && SameContent(b, s.pending.value))
  }

  ghost predicate ByTurn(r: Roster, proposals: set<Block>) {
    forall b | b in proposals :: b.header.height > 0 && b.header.proposer == FirstLeader(r, b.header.height)
  }

  ghost predicate KeepsOwn(s: NodeState, proposals: set<Block>) {
    forall b | b in proposals && b.header.proposer == s.roster.self :: Keeps(s, b)
  }

  ghost predicate StoredWereProposed(s: NodeState, proposals: set<Block>) {
    forall h: u64 | h in s.blocks && h > 0 :: Proposed(proposals, s.blocks[h])
  }

  ghost predicate Orderly(prims: Primitives, s: NodeState, genesis: Block, proposals: set<Block>) {
    && s.view.round == 0
    && Linked(prims, s) && s.blocks[0] == genesis
    && StoredWereProposed(s, proposals)
    && PendingIsNext(prims, s, proposals)
    && ByTurn(s.roster, proposals)
    && KeepsOwn(s, proposals)
  }

  // ── One node's steps ──

  lemma LeaderIsFirst(s: NodeState, height: u64)
    requires s.view.round == 0
    ensures s.Identity().LeaderAt(height) == FirstLeader(s.roster, height)
  {
  }

  lemma CollectKeepsOrderly(st: Settings, s: NodeState, genesis: Block, proposals: set<Block>, height: u64,
                            sig: NodeSignature)
    requires Orderly(st.prims, s, genesis, proposals)
    ensures Orderly(st.prims, Collect(st, s, height, sig), genesis, proposals)
  {
    hide FirstLeader;
  }

  /** Steps that move only the view, the pool or the clock. */
  lemma UntouchedStaysOrderly(prims: Primitives, s: NodeState, s': NodeState, genesis: Block, proposals: set<Block>)
    requires Orderly(prims, s, genesis, proposals) && s'.view.round == 0
    requires s'.roster == s.roster && s'.blocks == s.blocks && s'.latest == s.latest && s'.pending == s.pending
    ensures Orderly(prims, s', genesis, proposals)
  {
    hide FirstLeader, Proposed, LinkedAt;
  }

  lemma FinalizeKeepsOrderly(st: Settings, s: NodeState, genesis: Block, proposals: set<Block>, now: i64)
    requires Orderly(st.prims, s, genesis, proposals) && !TimesOut(st, s, now)
    ensures Orderly(st.prims, FinalizePending(st, s, now), genesis, proposals)
  {
    hide FirstLeader, LinkedAt;
    if s.pending.Some? {
      PutNextStaysLinked(st.prims, s, s.pending.value);
    }
  }

  /** A node with a pending block refuses proposals for the same height: that turn is its own. */
  lemma FollowKeepsOrderly(st: Settings, s: NodeState, genesis: Block, proposals: set<Block>, b: Block)
    requires Orderly(st.prims, s, genesis, proposals) && b in proposals && b.header.proposer != s.roster.self
    ensures Orderly(st.prims, HandleProposal(st, s, b).state, genesis, proposals)
  {
    hide FirstLeader, Rules.Replay, Rules.RootMatches;
    ProposalKeepsChain(st, s, b);
    LeaderIsFirst(s, b.header.height);
    assert SameContent(b, b);
  }

  lemma PublishKeepsOrderly(st: Settings, s: NodeState, genesis: Block, proposals: set<Block>, b: Block, now: i64)
    requires Orderly(st.prims, s, genesis, proposals) && s.pending.None? && s.latest.value < MAX_U64
    requires b.header.height == s.latest.value + 1 && b.header.proposer == s.roster.self
    requires b.header.proposer == FirstLeader(s.roster, b.header.height)
    requires b.header.prevHash == st.prims.hashHeader(s.blocks[s.latest.value].header)
    ensures Orderly(st.prims, Publish(st, s, b, now), genesis, proposals + {b})
  {
    hide FirstLeader, LinkedAt;
    PutNextStaysLinked(st.prims, s, b);
    assert SameContent(b, b);
  }

  function Made(st: Settings, s: NodeState, a: Action): set<Block> {
    if a.Leads? && Produce(st, s, a.now).block.Some? then {Produce(st, s, a.now).block.value} else {}
  }

  lemma ProduceKeepsOrderly(st: Settings, s: NodeState, genesis: Block, proposals: set<Block>, now: i64)
    requires Orderly(st.prims, s, genesis, proposals) && s.latest.value < MAX_U64
    ensures Orderly(st.prims, Produce(st, s, now).state, genesis, proposals + Made(st, s, Leads(now)))
    ensures forall b | b in Made(st, s, Leads(now)) ::
              b.header.height > 0 && b.header.proposer == s.roster.self == FirstLeader(s.roster, b.header.height)
  {
    hide FirstLeader, LinkedAt, Publish, Rules.Lead, StoredWereProposed, ByTurn, KeepsOwn;
    var height := s.NextHeight();
    assert s.latest.Some? && s.view.round == 0 && s.latest.value in s.blocks;
    LeaderIsFirst(s, height);
    var p := Produce(st, s, now);
    if p.block.Some? {
      var led := Rules.Lead(st.config, s.ledger, s.pool, now);
      var s' := s.(pool := [], ledger := led.ledger);
      UntouchedStaysOrderly(st.prims, s, s', genesis, proposals);
      PublishKeepsOrderly(st, s', genesis, proposals, p.block.value, now);
    } else {
      assert proposals + {} == proposals;
      UntouchedStaysOrderly(st.prims, s, p.state, genesis, proposals);
    }
  }

  lemma RosterStays(st: Settings, s: NodeState, a: Action)
    requires a.HearsPeer? ==> a.id in s.roster.Validators()
    ensures Act(st, s, a).roster == s.roster
  {
    hide Rules.Lead, Rules.Replay, Rules.RootMatches;
  }

  lemma QuietKeepsOrderly(st: Settings, s: NodeState, genesis: Block, proposals: set<Block>, a: Action)
    requires Orderly(st.prims, s, genesis, proposals) && Act(st, s, a).view.round == 0
    requires a.HearsVote? || a.Feeds? || a.Waits? || (a.HearsPeer? && a.id in s.roster.Validators())
    ensures Orderly(st.prims, Act(st, s, a), genesis, proposals)
  {
    hide Orderly;
    UntouchedStaysOrderly(st.prims, s, Act(st, s, a), genesis, proposals);
  }

  lemma ActKeepsOrderly(st: Settings, s: NodeState, genesis: Block, proposals: set<Block>, a: Action)
    requires Orderly(st.prims, s, genesis, proposals)
    requires a.Follows? ==> a.block in proposals && a.block.header.proposer != s.roster.self
    requires a.HearsPeer? ==> a.id in s.roster.Validators()
    requires a.Completes? ==> !TimesOut(st, s, a.now)
    requires a.Leads? ==> s.Height() < MAX_U64
    requires Act(st, s, a).view.round == 0
    ensures Orderly(st.prims, Act(st, s, a), genesis, proposals + Made(st, s, a))
    ensures forall b | b in Made(st, s, a) ::
              b.header.height > 0 && b.header.proposer == s.roster.self == FirstLeader(s.roster, b.header.height)
  {
    assert s.latest.Some?;
    hide Orderly, Collect, HearViewChange, HearHandshake, FinalizePending, HandleProposal, CheckTimeout, Produce,
         FirstLeader;
    assert proposals + {} == proposals;
    match a {
      case Collects(height, sig) => CollectKeepsOrderly(st, s, genesis, proposals, height, sig);
      case Completes(now) => FinalizeKeepsOrderly(st, s, genesis, proposals, now);
      case Follows(block) => FollowKeepsOrderly(st, s, genesis, proposals, block);
      case Leads(now) => ProduceKeepsOrderly(st, s, genesis, proposals, now);
      case _ => QuietKeepsOrderly(st, s, genesis, proposals, a);
    }
  }

  // ── The whole network ──

  ghost predicate Sound(st: AllSettings, net: Net, genesis: Block) {
    forall i | i in net.nodes ::
      && net.nodes[i].roster.self == i && Knows(net.nodes[i].roster, net.nodes.Keys)
      && Orderly(st(i).prims, net.nodes[i], genesis, net.proposals)
  }

  lemma OthersStayOrderly(prims: Primitives, s: NodeState, genesis: Block, proposals: set<Block>, made: set<Block>)
    requires Orderly(prims, s, genesis, proposals)
    requires forall b | b in made ::
               b.header.height > 0 && b.header.proposer == FirstLeader(s.roster, b.header.height) != s.roster.self
    ensures Orderly(prims, s, genesis, proposals + made)
  {
    hide FirstLeader, LinkedAt, SameContent;
  }

  lemma SameTurns(r: Roster, r': Roster, validators: set<Id>, height: u64)
    requires Knows(r, validators) && Knows(r', validators)
    ensures FirstLeader(r, height) == FirstLeader(r', height)
  {
    SameLeaders(r, r', validators, height, 0);
  }

  lemma OtherStaysOrderly(prims: Primitives, s: NodeState, r: Roster, validators: set<Id>, genesis: Block,
                          proposals: set<Block>, made: set<Block>)
    requires Orderly(prims, s, genesis, proposals) && Knows(s.roster, validators) && Knows(r, validators)
    requires s.roster.self != r.self
    requires forall b | b in made ::
               b.header.height > 0 && b.header.proposer == r.self == FirstLeader(r, b.header.height)
    ensures Orderly(prims, s, genesis, proposals + made)
  {
    hide Orderly, Knows, FirstLeader;
    forall b | b in made ensures FirstLeader(s.roster, b.header.height) == b.header.proposer {
      SameTurns(s.roster, r, validators, b.header.height);
    }
    OthersStayOrderly(prims, s, genesis, proposals, made);
  }

  lemma HappenKeepsSound(st: AllSettings, net: Net, genesis: Block, e: Happening)
    requires Sound(st, net, genesis) && Enabled(st, net, e)
    ensures Sound(st, Happen(st, net, e), genesis)
  {
    hide Orderly, Knows, FirstLeader, Act, Produce, TimesOut;
    var net' := Happen(st, net, e);
    var s := net.nodes[e.node];
    var made := Made(st(e.node), s, e.action);
    assert net'.proposals == net.proposals + made && net'.nodes.Keys == net.nodes.Keys;
    hide Made;
    KnowsAll(s.roster, net.nodes.Keys);
    ActKeepsOrderly(st(e.node), s, genesis, net.proposals, e.action);
    RosterStays(st(e.node), s, e.action);
    forall i | i in net.nodes && i != e.node
      ensures Orderly(st(i).prims, net.nodes[i], genesis, net.proposals + made)
    {
      OtherStaysOrderly(st(i).prims, net.nodes[i], s.roster, net.nodes.Keys, genesis, net.proposals, made);
    }
  }

  lemma KnowsAll(r: Roster, validators: set<Id>)
    requires Knows(r, validators)
    ensures r.Validators() == validators
  {
  }

  lemma {:induction false} ReachKeepsSound(st: AllSettings, net: Net, genesis: Block, es: seq<Happening>)
    requires Sound(st, net, genesis) && Reach(st, net, es).Some?
    ensures Sound(st, Reach(st, net, es).value, genesis)
  {
    hide Sound, Enabled, Happen;
    if es != [] {
      ReachKeepsSound(st, net, genesis, es[..|es| - 1]);
      HappenKeepsSound(st, Reach(st, net, es[..|es| - 1]).value, genesis, es[|es| - 1]);
    }
  }

  /** Every node knows the same validators, holds the same genesis block and nothing else. */
  ghost predicate Starts(net: Net, genesis: Block) {
    && net.proposals == {} && genesis.header.height == 0
    && forall i | i in net.nodes ::
         && net.nodes[i].roster.self == i && Knows(net.nodes[i].roster, net.nodes.Keys)
         && net.nodes[i].blocks == map[0 := genesis] && net.nodes[i].latest == Some(0)
         && net.nodes[i].pending == None && net.nodes[i].view.round == 0
  }

  /** In such a network no chain ever loses or changes a block, not even a producer's. */
  lemma HappenExtends(st: AllSettings, net: Net, genesis: Block, e: Happening, i: Id)
    requires Sound(st, net, genesis) && Enabled(st, net, e) && i in net.nodes
    ensures Extends(net.nodes[i].blocks, Happen(st, net, e).nodes[i].blocks)
  {
    hide FirstLeader, Knows, KeepsOwn, ByTurn, StoredWereProposed, LinkedAt, Act, Produce;
    if i == e.node {
      var s := net.nodes[i];
      assert Orderly(st(i).prims, s, genesis, net.proposals);
      if s.latest.value < MAX_U64 {
        KeepsBlocksIff(st(i), s, e.action);
        if StoresDirectly(st(i), s, e.action) {
          ProducedBlock(st(i), s, e.action.now);
        }
      } else {
        FullChainStays(st(i), s, e.action);
      }
    }
  }

  lemma FullChainStays(st: Settings, s: NodeState, a: Action)
    requires Linked(st.prims, s) && s.latest.value == MAX_U64 && s.pending.None? && !a.Leads?
    ensures Act(st, s, a).blocks == s.blocks
  {
    hide LinkedAt;
  }

  lemma ExtendsTwice(a: map<u64, Block>, b: map<u64, Block>, c: map<u64, Block>)
    requires Extends(a, b) && Extends(b, c)
    ensures Extends(a, c)
  {
  }

  lemma {:induction false} ChainsOnlyGrow(st: AllSettings, net: Net, genesis: Block, es: seq<Happening>, moment: nat,
                                          i: Id)
    requires Starts(net, genesis) && Reach(st, net, es).Some? && moment <= |es| && i in net.nodes
    ensures var early := Reach(st, net, es[..moment]);
            && early.Some? && i in early.value.nodes && i in Reach(st, net, es).value.nodes
            && Linked(st(i).prims, Reach(st, net, es).value.nodes[i])
            && Extends(early.value.nodes[i].blocks, Reach(st, net, es).value.nodes[i].blocks)
  {
    hide Enabled, Happen, Knows, FirstLeader, Linked, Extends;
    StartsSound(st, net, genesis);
    ReachKeepsSound(st, net, genesis, es);
    ReachKeepsNodes(st, net, es);
    if moment == |es| {
      assert es[..moment] == es;
      assert Extends(Reach(st, net, es).value.nodes[i].blocks, Reach(st, net, es).value.nodes[i].blocks) by {
        ExtendsItself(Reach(st, net, es).value.nodes[i].blocks);
      }
    } else {
      var n := |es| - 1;
      assert es[..n][..moment] == es[..moment];
      hide Starts;
      ReachKeepsSound(st, net, genesis, es[..n]);
      ChainsOnlyGrow(st, net, genesis, es[..n], moment, i);
      HappenExtends(st, Reach(st, net, es[..n]).value, genesis, es[n], i);
      hide Sound;
      ExtendsTwice(Reach(st, net, es[..moment]).value.nodes[i].blocks, Reach(st, net, es[..n]).value.nodes[i].blocks,
                   Reach(st, net, es).value.nodes[i].blocks);
    }
  }

  lemma StartsSound(st: AllSettings, net: Net, genesis: Block)
    requires Starts(net, genesis)
    ensures Sound(st, net, genesis)
  {
    hide Knows, FirstLeader;
  }

  lemma {:induction false} ReachKeepsNodes(st: AllSettings, net: Net, es: seq<Happening>)
    requires Reach(st, net, es).Some?
    ensures Reach(st, net, es).value.nodes.Keys == net.nodes.Keys
  {
    hide Act, Produce;
    if es != [] {
      ReachKeepsNodes(st, net, es[..|es| - 1]);
    }
  }

  /** Two proposals for one height are the same: their leader is, and it proposes a height once. */
  lemma OneProposalPerHeight(st: AllSettings, net: Net, genesis: Block, a: Block, b: Block)
    requires Sound(st, net, genesis) && a in net.proposals && b in net.proposals
    requires a.header.height == b.header.height && a.header.proposer in net.nodes
    ensures SameContent(a, b)
  {
    hide FirstLeader, Knows, LinkedAt, Proposed;
    var s := net.nodes[a.header.proposer];
    assert Orderly(st(a.header.proposer).prims, s, genesis, net.proposals);
    assert Keeps(s, a) && Keeps(s, b);
  }

  /** Agreement: with messages lost, reordered and duplicated at will, any two nodes that store a block at the same
      height store the same header and the same transactions. */
  lemma StoredBlocksAgree(st: AllSettings, net: Net, genesis: Block, es: seq<Happening>, i: Id, j: Id, h: u64)
    requires Starts(net, genesis) && Reach(st, net, es).Some?
    requires var net' := Reach(st, net, es).value;
             i in net'.nodes && j in net'.nodes && h in net'.nodes[i].blocks && h in net'.nodes[j].blocks
    ensures var net' := Reach(st, net, es).value;
            SameContent(net'.nodes[i].blocks[h], net'.nodes[j].blocks[h])
  {
    hide Reach, Knows, FirstLeader;
    StartsSound(st, net, genesis);
    ReachKeepsSound(st, net, genesis, es);
    var net' := Reach(st, net, es).value;
    SoundAgrees(st, net', genesis, i, j, h);
  }

  lemma SoundAgrees(st: AllSettings, net: Net, genesis: Block, i: Id, j: Id, h: u64)
    requires Sound(st, net, genesis)
    requires i in net.nodes && j in net.nodes && h in net.nodes[i].blocks && h in net.nodes[j].blocks
    ensures SameContent(net.nodes[i].blocks[h], net.nodes[j].blocks[h])
  {
    hide FirstLeader, Knows, KeepsOwn, PendingIsNext;
    var s, s' := net.nodes[i], net.nodes[j];
    assert Orderly(st(i).prims, s, genesis, net.proposals) && Orderly(st(j).prims, s', genesis, net.proposals);
    if h > 0 {
      var a :| a in net.proposals && SameContent(a, s.blocks[h]);
      var b :| b in net.proposals && SameContent(b, s'.blocks[h]);
      assert LinkedAt(st(i).prims, s.blocks, h) && LinkedAt(st(j).prims, s'.blocks, h);
      ProposerIsNode(net, s.roster, a);
      OneProposalPerHeight(st, net, genesis, a, b);
    }
  }

  lemma ProposerIsNode(net: Net, r: Roster, b: Block)
    requires Knows(r, net.nodes.Keys) && ByTurn(r, net.proposals) && b in net.proposals
    ensures b.header.proposer in net.nodes
  {
    var ids := PeerIds(r.peers) + [r.self];
    var nodes := Rotation.AllNodes(PeerIds(r.peers), r.self);
    assert b.header.proposer in nodes;
    assert b.header.proposer in multiset(nodes);
    assert b.header.proposer in ids;
    MembersAreValidators(r, b.header.proposer);
  }
}
