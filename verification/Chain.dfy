/** What the steps of one node keep: its chain of blocks, the signatures of its pending block, its view-change votes. */
module Chain {
  import opened Types
  import opened Consensus
  import opened Quorum
  import opened Protocol
  import Rules
  import ViewChange

  // ── A follower's chain ──

  /** The stored heights are exactly 0 to the latest, and each block names its predecessor's hash. */
  ghost predicate Linked(prims: Primitives, s: NodeState) {
    && s.latest.Some?
    && (forall h: u64 :: h in s.blocks <==> h <= s.latest.value)
    && (forall h: u64 | 0 < h <= s.latest.value :: LinkedAt(prims, s.blocks, h))
  }

  predicate LinkedAt(prims: Primitives, blocks: map<u64, Block>, h: u64)
    requires 0 < h && h in blocks && h - 1 in blocks
  {
    blocks[h].header.height == h && blocks[h].header.prevHash == prims.hashHeader(blocks[h - 1].header)
  }

  /** No stored block is lost or changed. */
  ghost predicate Extends(blocks: map<u64, Block>, blocks': map<u64, Block>) {
    forall h | h in blocks :: h in blocks' && blocks'[h] == blocks[h]
  }

  lemma ProposalKeepsChain(st: Settings, s: NodeState, block: Block)
    requires Linked(st.prims, s)
    ensures var s' := HandleProposal(st, s, block).state;
            Linked(st.prims, s') && Extends(s.blocks, s'.blocks)
  {
    hide Rules.Replay, Rules.RootMatches;
    var s' := HandleProposal(st, s, block).state;
    var h := block.header.height;
    if s'.blocks != s.blocks {
      assert h == s.latest.value + 1 && s'.blocks == s.blocks[h := block];
      forall k: u64 | 0 < k <= h ensures LinkedAt(st.prims, s'.blocks, k) {
        if k < h {
          assert LinkedAt(st.prims, s.blocks, k);
        }
      }
    }
  }

  /** Whatever proposals arrive, valid or not and in any order, a follower's chain only grows at its end. */
  lemma {:induction false} FollowerChain(st: Settings, s: NodeState, proposals: seq<Block>)
    requires Linked(st.prims, s)
    ensures var s' := Acts(st, s, Following(proposals));
            Linked(st.prims, s') && Extends(s.blocks, s'.blocks)
  {
    hide HandleProposal, Linked;
    if proposals != [] {
      var n := |proposals| - 1;
      assert Following(proposals)[..n] == Following(proposals[..n]);
      FollowerChain(st, s, proposals[..n]);
      ProposalKeepsChain(st, Acts(st, s, Following(proposals[..n])), proposals[n]);
    }
  }

  // ── The chain of a node that also produces ──

  /** The pending block is finalized now. */
  predicate StoresPending(st: Settings, s: NodeState, a: Action) {
    && a.Completes? && s.pending.Some?
    && s.roster.Finalizes(st.prims, s.pending.value.header, s.pending.value.signatures, s.minSignatures)
  }

  /** The block made now is stored at once, without waiting for signatures. */
  predicate StoresDirectly(st: Settings, s: NodeState, a: Action) {
    && a.Leads? && Produce(st, s, a.now).block.Some?
    && Produce(st, s, a.now).state.pending.None?
  }

  /** Another block is stored at the height of `b`. */
  predicate Occupied(s: NodeState, b: Block) {
    b.header.height in s.blocks && s.blocks[b.header.height] != b
  }

  lemma PutKeepsIff(s: NodeState, b: Block)
    ensures Extends(s.blocks, s.Put(b).blocks) <==> !Occupied(s, b)
  {
  }

  lemma ProduceKeepsIff(st: Settings, s: NodeState, now: i64)
    ensures var p := Produce(st, s, now);
            Extends(s.blocks, p.state.blocks) <==> !(StoresDirectly(st, s, Leads(now)) && Occupied(s, p.block.value))
  {
    hide Rules.Lead, NewBlock;
    var p := Produce(st, s, now);
    if StoresDirectly(st, s, Leads(now)) {
      PutKeepsIff(s, p.block.value);
      assert p.state.blocks == s.Put(p.block.value).blocks;
    }
  }

  lemma HandleKeeps(st: Settings, s: NodeState, block: Block)
    ensures Extends(s.blocks, HandleProposal(st, s, block).state.blocks)
  {
    hide Rules.Replay, Rules.RootMatches;
  }

  /** In any state whatever, a step loses a stored block if and only if it finalizes a pending block, or stores a new
      one at once, at a height that another block has taken. */
  lemma KeepsBlocksIff(st: Settings, s: NodeState, a: Action)
    ensures Extends(s.blocks, Act(st, s, a).blocks)
       <==> !(StoresPending(st, s, a) && Occupied(s, s.pending.value))
            && !(StoresDirectly(st, s, a) && Occupied(s, Produce(st, s, a.now).block.value))
  {
    hide HandleProposal, Produce, Extends, Occupied, Roster.Finalizes;
    assert Extends(s.blocks, s.blocks) by { ExtendsItself(s.blocks); }
    match a {
      case Completes(now) =>
        if StoresPending(st, s, a) {
          PutKeepsIff(s, s.pending.value);
          assert Act(st, s, a).blocks == s.Put(s.pending.value).blocks;
        }
      case Follows(block) => HandleKeeps(st, s, block);
      case Leads(now) => ProduceKeepsIff(st, s, now);
      case _ =>
    }
  }

  lemma ExtendsItself(blocks: map<u64, Block>)
    ensures Extends(blocks, blocks)
  {
  }

  /** Heights stay downward closed, whatever else happens. */
  ghost predicate Grounded(s: NodeState) {
    && (forall h: u64 | h in s.blocks :: h == 0 || h - 1 in s.blocks)
    && (s.pending.Some? ==> s.pending.value.header.height == 0 || s.pending.value.header.height - 1 in s.blocks)
  }

  lemma HandleKeepsGrounded(st: Settings, s: NodeState, block: Block)
    requires Grounded(s)
    ensures Grounded(HandleProposal(st, s, block).state)
  {
    hide Rules.Replay, Rules.RootMatches;
  }

  lemma ProduceKeepsGrounded(st: Settings, s: NodeState, now: i64)
    requires Grounded(s)
    ensures Grounded(Produce(st, s, now).state)
  {
    hide Rules.Lead;
  }

  lemma ActKeepsGrounded(st: Settings, s: NodeState, a: Action)
    requires Grounded(s)
    ensures Grounded(Act(st, s, a))
  {
    hide HandleProposal, Produce;
    match a {
      case Follows(block) => HandleKeepsGrounded(st, s, block);
      case Leads(now) => ProduceKeepsGrounded(st, s, now);
      case _ =>
    }
  }

  lemma {:induction false} HeightsStayGrounded(st: Settings, s: NodeState, actions: seq<Action>)
    requires Grounded(s)
    ensures Grounded(Acts(st, s, actions))
  {
    hide Act, Grounded;
    if actions != [] {
      HeightsStayGrounded(st, s, actions[..|actions| - 1]);
      ActKeepsGrounded(st, Acts(st, s, actions[..|actions| - 1]), actions[|actions| - 1]);
    }
  }

  // ── Signatures of the pending block ──

  /** Ed25519: what a node signs with its own key verifies under its id. */
  ghost predicate KeysMatch(prims: Primitives, s: NodeState) {
    forall header :: prims.verify(header, prims.sign(header, s.privateKey), s.roster.self)
  }

  ghost predicate PendingVerified(prims: Primitives, s: NodeState) {
    && KeysMatch(prims, s)
    && (s.pending.Some? ==> s.roster.AllVerify(prims, s.pending.value.header, s.pending.value.signatures))
  }

  lemma {:induction false} KeysStay(peers: seq<Peer>, p: Peer, id: Id)
    requires FirstKey(peers, id).Some?
    ensures FirstKey(peers + [p], id) == FirstKey(peers, id)
  {
    assert (peers + [p])[0] == peers[0];
    if peers[0].id != id {
      assert (peers + [p])[1..] == peers[1..] + [p];
      KeysStay(peers[1..], p, id);
    }
  }

  lemma PeersKeepVerified(prims: Primitives, r: Roster, p: Peer, header: BlockHeader, sigs: seq<NodeSignature>)
    requires r.AllVerify(prims, header, sigs)
    ensures r.(peers := r.peers + [p]).AllVerify(prims, header, sigs)
  {
    forall s | s in sigs ensures r.(peers := r.peers + [p]).Verifies(prims, header, s) {
      assert r.Verifies(prims, header, s);
      if s.nodeId != r.self {
        KeysStay(r.peers, p, s.nodeId);
      }
    }
  }

  lemma ActKeepsPendingVerified(st: Settings, s: NodeState, a: Action)
    requires PendingVerified(st.prims, s)
    ensures PendingVerified(st.prims, Act(st, s, a))
  {
    hide Rules.Replay, Rules.RootMatches, Rules.Lead;
    if a.HearsPeer? && s.pending.Some? {
      PeersKeepVerified(st.prims, s.roster, Peer(a.id, a.publicKey), s.pending.value.header,
                        s.pending.value.signatures);
    }
  }

  lemma {:induction false} PendingStaysVerified(st: Settings, s: NodeState, actions: seq<Action>)
    requires PendingVerified(st.prims, s)
    ensures PendingVerified(st.prims, Acts(st, s, actions))
  {
    hide Act, PendingVerified;
    if actions != [] {
      PendingStaysVerified(st, s, actions[..|actions| - 1]);
      ActKeepsPendingVerified(st, Acts(st, s, actions[..|actions| - 1]), actions[|actions| - 1]);
    }
  }

  /** After any actions, a pending block that is finalized was validly signed by `minSignatures` distinct validators. */
  lemma FinalizedByQuorum(st: Settings, s: NodeState, actions: seq<Action>, a: Action)
    requires PendingVerified(st.prims, s)
    requires StoresPending(st, Acts(st, s, actions), a)
    ensures var s' := Acts(st, s, actions);
            var signers := set sig | sig in s'.pending.value.signatures :: sig.nodeId;
            && signers <= s'.roster.Validators() && |signers| >= s'.minSignatures
            && s'.roster.AllVerify(st.prims, s'.pending.value.header, s'.pending.value.signatures)
  {
    hide Acts, KeysMatch;
    PendingStaysVerified(st, s, actions);
    var s' := Acts(st, s, actions);
    VerifiedSignersCount(s'.roster, st.prims, s'.pending.value.header, s'.pending.value.signatures);
  }

  // ── The chain of a node over whole runs of its loop ──

  /** Nothing pending on a linked chain, or peers whose signatures every block has to wait for. */
  ghost predicate Waiting(prims: Primitives, s: NodeState) {
    (s.pending.None? && Linked(prims, s)) || (s.minSignatures >= 2 && s.roster.peers != [])
  }

  /** A node's own signature alone finalizes a block if and only if one signature is enough. */
  lemma OwnSignatureCounts(prims: Primitives, s: NodeState, header: BlockHeader)
    requires KeysMatch(prims, s)
    ensures s.roster.Finalizes(prims, header, [s.Identity().Sign(prims, header)], s.minSignatures)
        <==> s.minSignatures < 2
  {
    var own := s.Identity().Sign(prims, header);
    assert own in [own];
    assert s.roster.Verifies(prims, header, own);
    assert s.roster.Counted(prims, header, [own]) == {s.roster.self};
  }

  /** The new block names its predecessor and carries its maker's signature alone. */
  lemma ProducedBlock(st: Settings, s: NodeState, now: i64)
    requires Linked(st.prims, s) && s.latest.value < MAX_U64 && Produce(st, s, now).block.Some?
    ensures var b := Produce(st, s, now).block.value;
            && b.header.height == s.latest.value + 1
            && b.header.prevHash == st.prims.hashHeader(s.blocks[s.latest.value].header)
  {
    hide Rules.Lead, Publish, LinkedAt;
  }

  lemma PutNextStaysLinked(prims: Primitives, s: NodeState, b: Block)
    requires Linked(prims, s) && s.latest.value < MAX_U64 && b.header.height == s.latest.value + 1
    requires b.header.prevHash == prims.hashHeader(s.blocks[s.latest.value].header)
    ensures Linked(prims, s.Put(b)) && Extends(s.blocks, s.Put(b).blocks)
  {
    var h, s' := b.header.height, s.Put(b);
    forall k: u64 | 0 < k <= h ensures LinkedAt(prims, s'.blocks, k) {
      if k < h {
        assert LinkedAt(prims, s.blocks, k);
      }
    }
  }

  /** Whether a block made now is stored at once. */
  lemma StoresDirectlyIff(st: Settings, s: NodeState, now: i64)
    requires KeysMatch(st.prims, s) && s.pending.None? && Produce(st, s, now).block.Some?
    ensures StoresDirectly(st, s, Leads(now)) <==> s.roster.peers == [] || s.minSignatures < 2
  {
    hide Rules.Lead, KeysMatch;
    var p := Produce(st, s, now);
    OwnSignatureCounts(st.prims, s, p.block.value.header);
    hide Roster.Finalizes;
  }

  lemma ProduceKeepsWaiting(st: Settings, s: NodeState, now: i64)
    requires KeysMatch(st.prims, s) && Waiting(st.prims, s) && s.Height() < MAX_U64
    ensures Waiting(st.prims, Produce(st, s, now).state)
  {
    hide Rules.Lead, KeysMatch, LinkedAt;
    var p := Produce(st, s, now);
    if s.pending.None? && Linked(st.prims, s) && p.block.Some? {
      ProducedBlock(st, s, now);
      PutNextStaysLinked(st.prims, s, p.block.value);
      StoresDirectlyIff(st, s, now);
      hide Roster.Finalizes, NewBlock;
    }
  }

  lemma ActKeepsWaiting(st: Settings, s: NodeState, a: Action)
    requires KeysMatch(st.prims, s) && Waiting(st.prims, s) && s.Height() < MAX_U64
    ensures Waiting(st.prims, Act(st, s, a)) && KeysMatch(st.prims, Act(st, s, a))
  {
    hide HandleProposal, Produce, Linked;
    match a {
      case Follows(block) =>
        FollowKeepsIdentity(st, s, block);
        if Linked(st.prims, s) {
          ProposalKeepsChain(st, s, block);
        }
      case Leads(now) =>
        ProduceKeepsWaiting(st, s, now);
        LeadKeepsIdentity(st, s, now);
      case _ => assert Linked(st.prims, s) && Act(st, s, a).blocks == s.blocks && Act(st, s, a).latest == s.latest ==>
                         Linked(st.prims, Act(st, s, a)) by { SameChainLinked(st.prims, s, Act(st, s, a)); }
    }
  }

  lemma SameChainLinked(prims: Primitives, s: NodeState, s': NodeState)
    ensures Linked(prims, s) && s'.blocks == s.blocks && s'.latest == s.latest ==> Linked(prims, s')
  {
  }

  lemma FollowKeepsIdentity(st: Settings, s: NodeState, block: Block)
    ensures var s' := HandleProposal(st, s, block).state;
            s'.roster == s.roster && s'.privateKey == s.privateKey && s'.minSignatures == s.minSignatures
            && s'.pending == s.pending && s'.view == s.view
  {
    hide Rules.Replay, Rules.RootMatches;
  }

  lemma LeadKeepsIdentity(st: Settings, s: NodeState, now: i64)
    ensures var s' := Produce(st, s, now).state;
            s'.roster == s.roster && s'.privateKey == s.privateKey && s'.minSignatures == s.minSignatures
  {
    hide Rules.Lead;
  }

  /** The chain is never 2^64 blocks long. */
  ghost predicate NeverFull(st: Settings, s: NodeState, actions: seq<Action>) {
    forall k | 0 <= k <= |actions| :: Acts(st, s, actions[..k]).Height() < MAX_U64
  }

  lemma {:induction false} ActsKeepWaiting(st: Settings, s: NodeState, actions: seq<Action>)
    requires KeysMatch(st.prims, s) && Waiting(st.prims, s) && NeverFull(st, s, actions)
    ensures Waiting(st.prims, Acts(st, s, actions)) && KeysMatch(st.prims, Acts(st, s, actions))
  {
    hide Act, Waiting, KeysMatch;
    if actions != [] {
      var n := |actions| - 1;
      forall k | 0 <= k <= n ensures Acts(st, s, actions[..n][..k]).Height() < MAX_U64 {
        assert actions[..n][..k] == actions[..k];
      }
      ActsKeepWaiting(st, s, actions[..n]);
      ActKeepsWaiting(st, Acts(st, s, actions[..n]), actions[n]);
    }
  }

  /** A node that starts on a linked chain with nothing pending, after any actions: a further step loses a stored block
      if and only if it finalizes a pending block late, at a height that another block has taken. A block it makes never
      replaces one. */
  lemma LoopKeepsBlocksIff(st: Settings, s0: NodeState, actions: seq<Action>, a: Action)
    requires KeysMatch(st.prims, s0) && s0.pending.None? && Linked(st.prims, s0) && NeverFull(st, s0, actions)
    ensures var s := Acts(st, s0, actions);
            Extends(s.blocks, Act(st, s, a).blocks) <==> !(StoresPending(st, s, a) && Occupied(s, s.pending.value))
  {
    hide Act, Linked, KeysMatch;
    ActsKeepWaiting(st, s0, actions);
    var s := Acts(st, s0, actions);
    assert s.Height() < MAX_U64 by { assert actions[..|actions|] == actions; }
    hide Acts;
    KeepsBlocksIff(st, s, a);
    if StoresDirectly(st, s, a) {
      DirectIsNew(st, s, a.now);
    }
  }

  lemma DirectIsNew(st: Settings, s: NodeState, now: i64)
    requires KeysMatch(st.prims, s) && Waiting(st.prims, s) && s.Height() < MAX_U64
    requires StoresDirectly(st, s, Leads(now))
    ensures !Occupied(s, Produce(st, s, now).block.value)
  {
    hide KeysMatch, LinkedAt;
    ProducesUnpended(st, s, now);
    StoresDirectlyIff(st, s, now);
    hide Produce;
    ProducedBlock(st, s, now);
  }

  lemma ProducesUnpended(st: Settings, s: NodeState, now: i64)
    requires Produce(st, s, now).block.Some?
    ensures s.pending.None?
  {
    hide Rules.Lead, Publish;
  }

  // ── View-change votes over the loop ──

  function ViewOf(s: NodeState): ViewChange.Node {
    ViewChange.Node(s.view, |s.roster.peers| + 1)
  }

  /** The move that an action makes in the view-change protocol, if any. */
  function MoveOf(st: Settings, s: NodeState, a: Action): Option<ViewChange.Move> {
    match a
    case HearsVote(height, round, from) => Some(ViewChange.Hears(height, round, from))
    case HearsPeer(id, _) => if id in s.roster.Validators() then None else Some(ViewChange.Discovers)
    case Completes(_) => if StoresPending(st, s, a) then Some(ViewChange.Finalizes) else None
    case Waits(now) => if CheckTimeout(st, s, now).vote.Some? then Some(ViewChange.Asks(s.NextHeight())) else None
    case Leads(_) => if StoresDirectly(st, s, a) && s.roster.peers != [] then Some(ViewChange.Finalizes) else None
    case _ => None
  }

  function Moved(s: NodeState, m: Option<ViewChange.Move>): ViewChange.Node {
    if m.Some? then ViewChange.Step(s.roster.self, ViewOf(s), m.value) else ViewOf(s)
  }

  lemma LeadMoves(st: Settings, s: NodeState, now: i64)
    ensures ViewOf(Produce(st, s, now).state) == Moved(s, MoveOf(st, s, Leads(now)))
  {
    hide Rules.Lead, NewBlock, Roster.Finalizes;
  }

  /** An action moves a node's view by exactly that move. */
  lemma ActIsMove(st: Settings, s: NodeState, a: Action)
    ensures ViewOf(Act(st, s, a)) == Moved(s, MoveOf(st, s, a))
    ensures Act(st, s, a).roster.self == s.roster.self
  {
    hide HandleProposal, Produce, ViewChange.Request, ViewChange.Receive, Roster.Finalizes;
    match a {
      case Follows(block) => FollowKeepsIdentity(st, s, block);
      case Leads(now) =>
        LeadMoves(st, s, now);
        LeadKeepsIdentity(st, s, now);
      case _ =>
    }
  }

  function MovesOf(st: Settings, s: NodeState, actions: seq<Action>): seq<ViewChange.Move> {
    if actions == [] then []
    else
      var before := actions[..|actions| - 1];
      var m := MoveOf(st, Acts(st, s, before), actions[|actions| - 1]);
      MovesOf(st, s, before) + if m.Some? then [m.value] else []
  }

  /** Running the loop is a run of the view-change protocol. */
  lemma {:induction false} ActsAreMoves(st: Settings, s: NodeState, actions: seq<Action>)
    requires s.view == ViewChange.INITIAL
    ensures ViewOf(Acts(st, s, actions))
         == ViewChange.After(s.roster.self, |s.roster.peers| + 1, MovesOf(st, s, actions))
    ensures Acts(st, s, actions).roster.self == s.roster.self
  {
    hide Act, MoveOf, ViewChange.Step;
    if actions != [] {
      var before := actions[..|actions| - 1];
      var last := actions[|actions| - 1];
      ActsAreMoves(st, s, before);
      ActIsMove(st, Acts(st, s, before), last);
      var m := MoveOf(st, Acts(st, s, before), last);
      if m.Some? {
        ViewChange.AfterNext(s.roster.self, |s.roster.peers| + 1, MovesOf(st, s, before), m.value);
      } else {
        assert MovesOf(st, s, before) + [] == MovesOf(st, s, before);
      }
    }
  }

  /** Over the whole loop, from any actions: no vote is overdue at any moment of the view-change run they make if and
      only if no request at the last round overtakes a completed vote. */
  lemma LoopNeverOverdueIff(st: Settings, s: NodeState, actions: seq<Action>)
    requires s.view == ViewChange.INITIAL
    ensures var self, n, moves := s.roster.self, |s.roster.peers| + 1, MovesOf(st, s, actions);
            && (ViewChange.NeverOvertakes(self, n, moves) ==> ViewChange.NoneOverdue(ViewOf(Acts(st, s, actions))))
            && (ViewChange.NeverOvertakes(self, n, moves)
                <==> forall k | 0 <= k <= |moves| :: ViewChange.NoneOverdue(ViewChange.After(self, n, moves[..k])))
  {
    hide Acts, MovesOf, ViewChange.NoneOverdue, ViewChange.Overtakes, ViewChange.After;
    var self, n, moves := s.roster.self, |s.roster.peers| + 1, MovesOf(st, s, actions);
    ActsAreMoves(st, s, actions);
    ViewChange.NeverOverdueIff(self, n, moves);
    assert moves[..|moves|] == moves;
  }

  lemma ActKeepsNoneOverdue(st: Settings, s: NodeState, a: Action)
    requires ViewChange.NoneOverdue(ViewOf(s))
    ensures var m := MoveOf(st, s, a);
            ViewChange.NoneOverdue(ViewOf(Act(st, s, a)))
            <==> !(m.Some? && ViewChange.Overtakes(s.roster.self, ViewOf(s), m.value))
  {
    hide Act, MoveOf, ViewChange.NoneOverdue, ViewChange.Overtakes, ViewChange.Step;
    ActIsMove(st, s, a);
    var m := MoveOf(st, s, a);
    if m.Some? {
      ViewChange.StepKeepsNoneOverdueIff(s.roster.self, ViewOf(s), m.value);
    }
  }
}
