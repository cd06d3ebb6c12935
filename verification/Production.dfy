/** What blocks carry and how they come about: bodies against headers, replies against pending blocks, new blocks
    against the pool, and the timeouts of a waiting node. */
module Production {
  import opened Types
  import opened Consensus
  import opened Quorum
  import opened Protocol
  import opened Chain
  import opened Sets
  import History
  import Replays
  import Rules
  import ViewChange

  // ── What a stored block carries ──

  /** The header commits to the transactions of the block. */
  predicate BodyMatches(prims: Primitives, b: Block) {
    prims.TxHash(b.transactions) == b.header.txHash
  }

  ghost predicate BodiesMatch(prims: Primitives, s: NodeState) {
    && (forall h | h in s.blocks :: BodyMatches(prims, s.blocks[h]))
    && (s.pending.Some? ==> BodyMatches(prims, s.pending.value))
  }

  lemma FollowKeepsBodies(st: Settings, s: NodeState, block: Block)
    requires BodiesMatch(st.prims, s)
    ensures BodiesMatch(st.prims, HandleProposal(st, s, block).state)
  {
    hide Rules.Replay, Rules.RootMatches;
  }

  lemma LeadKeepsBodies(st: Settings, s: NodeState, now: i64)
    requires BodiesMatch(st.prims, s)
    ensures BodiesMatch(st.prims, Produce(st, s, now).state)
  {
    hide Rules.Lead;
  }

  lemma ActKeepsBodies(st: Settings, s: NodeState, a: Action)
    requires BodiesMatch(st.prims, s)
    ensures BodiesMatch(st.prims, Act(st, s, a))
  {
    hide HandleProposal, Produce, Roster.Finalizes;
    match a {
      case Follows(block) => FollowKeepsBodies(st, s, block);
      case Leads(now) => LeadKeepsBodies(st, s, now);
      case _ =>
    }
  }

  /** Whatever a node receives, every block it stores or keeps pending carries the transactions its header commits
      to. */
  lemma {:induction false} BodiesMatchHeaders(st: Settings, s: NodeState, actions: seq<Action>)
    requires BodiesMatch(st.prims, s)
    ensures BodiesMatch(st.prims, Acts(st, s, actions))
  {
    hide Act, BodiesMatch;
    if actions != [] {
      BodiesMatchHeaders(st, s, actions[..|actions| - 1]);
      ActKeepsBodies(st, Acts(st, s, actions[..|actions| - 1]), actions[|actions| - 1]);
    }
  }

  /** Two lists of transactions that are different and hash alike. */
  predicate Collide(prims: Primitives, a: seq<Transaction>, b: seq<Transaction>) {
    a != b && prims.TxHash(a) == prims.TxHash(b)
  }

  /** So the header decides about the whole block: two nodes that store one header store the same transactions, unless
      those two lists collide. */
  lemma HeaderDecides(st: Settings, s: NodeState, actions: seq<Action>, st': Settings, s': NodeState,
                      actions': seq<Action>, h: u64)
    requires st.prims == st'.prims && BodiesMatch(st.prims, s) && BodiesMatch(st.prims, s')
    ensures var a, b := Acts(st, s, actions).blocks, Acts(st', s', actions').blocks;
            h in a && h in b && a[h].header == b[h].header
            && !Collide(st.prims, a[h].transactions, b[h].transactions) ==>
              a[h].transactions == b[h].transactions
  {
    hide Acts;
    BodiesMatchHeaders(st, s, actions);
    BodiesMatchHeaders(st', s', actions');
  }

  /** A proposal whose transactions are not those of its header gets no reply and changes nothing. */
  lemma TamperedIsRefused(st: Settings, s: NodeState, block: Block)
    requires !BodyMatches(st.prims, block)
    ensures HandleProposal(st, s, block) == Handled(s, None)
  {
    hide Rules.Replay, Rules.RootMatches, Signer.LeaderAt;
  }

  /** A reply is a signature that the proposer keeps, if it still waits for that block and knows the follower: the
      follower then counts as one of the signers. */
  lemma ReplyIsKept(st: Settings, leader: NodeState, st': Settings, follower: NodeState, block: Block)
    requires st.prims == st'.prims && KeysMatch(st.prims, follower)
    requires leader.pending.Some? && leader.pending.value.header == block.header
    requires leader.roster.KeyOf(follower.roster.self) == Some(follower.roster.self)
    requires HandleProposal(st', follower, block).reply.Some?
    ensures var reply := HandleProposal(st', follower, block).reply.value;
            var s' := Collect(st, leader, block.header.height, reply);
            && s' == leader.(pending := s'.pending) && s'.pending.Some?
            && s'.pending.value == leader.pending.value.(signatures := leader.pending.value.signatures + [reply])
            && follower.roster.self
               in s'.roster.Counted(st.prims, block.header, s'.pending.value.signatures)
  {
    hide Rules.Replay, Rules.RootMatches, Signer.Accepts;
    var reply := HandleProposal(st', follower, block).reply.value;
    assert reply == follower.Identity().Sign(st.prims, block.header);
    assert leader.roster.Verifies(st.prims, block.header, reply);
    assert reply in leader.pending.value.signatures + [reply];
  }

  /** A newly discovered peer is known by the key it announced: its signatures verify under that key and no other. */
  lemma NewPeerIsKnownByKey(st: Settings, s: NodeState, id: Id, publicKey: Id, header: BlockHeader,
                            signature: Signature)
    requires id !in s.roster.Validators()
    ensures var r := Act(st, s, HearsPeer(id, publicKey)).roster;
            && !s.roster.Verifies(st.prims, header, NodeSignature(id, signature))
            && (r.Verifies(st.prims, header, NodeSignature(id, signature))
                <==> st.prims.verify(header, signature, publicKey))
  {
    KnownIffValidator(s.roster, id);
    LastKey(s.roster.peers, Peer(id, publicKey));
  }

  lemma {:induction false} LastKey(peers: seq<Peer>, p: Peer)
    requires FirstKey(peers, p.id).None?
    ensures FirstKey(peers + [p], p.id) == Some(p.publicKey)
  {
    if peers != [] {
      assert (peers + [p])[0] == peers[0] && (peers + [p])[1..] == peers[1..] + [p];
      LastKey(peers[1..], p);
    }
  }

  /** What a follower executes, and when it stores: it runs the signed transactions of a proposal if and only if it
      replies, and then stores the block if and only if the header states no root or that of the run. */
  lemma StoresProposalIff(st: Settings, s: NodeState, block: Block)
    ensures var h := HandleProposal(st, s, block);
            var txs := Replays.Signed(st.prims, block.transactions);
            var run := History.RunFrom(st.config, s.ledger, Replays.At(txs, block.header.timestamp));
            var stated := block.header.stateRoot;
            && h.state.ledger == (if h.reply.Some? then run.ledger else s.ledger)
            && (h.state.blocks != s.blocks
                <==> h.reply.Some? && (stated == EMPTY_HASH || stated == st.prims.stateRoot(run.ledger)))
            && (h.state.blocks != s.blocks ==> h.state.blocks == s.blocks[block.header.height := block])
  {
    hide Rules.Replay, Signer.Accepts, Signer.Sign, History.RunFrom;
    Replays.ReplayIsSignedRun(st.prims, st.config, s.ledger, block.transactions, block.header.timestamp);
    var h := block.header.height;
    assert h !in s.blocks ==> s.blocks[h := block] != s.blocks;
  }

  /** What becomes of a pending block: with its quorum it is stored at its height, however old it is, and the node
      starts over at round 0; without it, it is given up once it is older than two block times, an odd millisecond of
      the block time not counted, and until then nothing changes. */
  lemma PendingOutcome(st: Settings, s: NodeState, now: i64)
    requires s.pending.Some?
    ensures var b, s' := s.pending.value, FinalizePending(st, s, now);
            if |s.roster.Counted(st.prims, b.header, b.signatures)| >= s.minSignatures then
              && s'.pending.None? && s'.blocks == s.blocks[b.header.height := b] && s'.latest == Some(b.header.height)
              && s'.view.round == 0 && (forall h: u64, r: u32 :: s'.view.Voters(h, r) == {})
              && s'.lastBlockTime == now
            else if now - b.header.timestamp > 2 * (st.blockTimeMs - st.blockTimeMs % 2) then s' == s.(pending := None)
            else s' == s
  {
    hide Roster.Counted;
  }

  // ── What a new block carries ──

  /** The transactions of the pool that succeed when the whole pool is executed at that time. */
  function Worthy(st: Settings, s: NodeState, now: i64): seq<Transaction> {
    Replays.Kept(st.config, s.ledger, Replays.At(s.pool, now))
  }

  lemma LedAsRun(st: Settings, s: NodeState, now: i64)
    ensures var led := Rules.Lead(st.config, s.ledger, s.pool, now);
            && led.ledger == History.RunFrom(st.config, s.ledger, Replays.At(s.pool, now)).ledger
            && led.kept == Worthy(st, s, now)
  {
    hide Rules.Lead, History.RunFrom, Replays.Kept;
    Replays.LeadIsRun(st.config, s.ledger, s.pool, now);
  }

  lemma NothingWorthy(st: Settings, s: NodeState, now: i64)
    requires s.pool == []
    ensures Worthy(st, s, now) == []
  {
  }

  /** When a node makes a block: nothing is pending, it leads the next height, it has stored the block before, and some
      transaction of its pool succeeds. */
  lemma MakesBlockIff(st: Settings, s: NodeState, now: i64)
    ensures Produce(st, s, now).block.Some?
       <==> s.pending.None? && s.Identity().LeaderAt(s.NextHeight()) == s.roster.self
            && WrapSub(s.NextHeight(), 1) in s.blocks && Worthy(st, s, now) != []
  {
    LedAsRun(st, s, now);
    hide Rules.Lead, Worthy, NewBlock, Publish, Signer.LeaderAt;
    if s.pool == [] {
      NothingWorthy(st, s, now);
    }
  }

  /** And what the block says: the transactions that succeeded, in order, their number and hash, the root of the state
      after the whole pool was executed, who made it, when, and its maker's valid signature alone. */
  lemma NewBlockCarries(st: Settings, s: NodeState, now: i64)
    requires KeysMatch(st.prims, s) && Produce(st, s, now).block.Some?
    ensures var b := Produce(st, s, now).block.value;
            && b.transactions == Worthy(st, s, now) && BodyMatches(st.prims, b)
            && b.header.txCount == |b.transactions| % U32_LIMIT
            && b.header.stateRoot
               == st.prims.stateRoot(History.RunFrom(st.config, s.ledger, Replays.At(s.pool, now)).ledger)
            && b.header.proposer == s.roster.self == s.Identity().LeaderAt(b.header.height)
            && b.header.timestamp == now
            && |b.signatures| == 1 && s.roster.Verifies(st.prims, b.header, b.signatures[0])
            && b.signatures[0].nodeId == s.roster.self
  {
    LedAsRun(st, s, now);
    hide Rules.Lead, Worthy, Publish, Signer.LeaderAt, History.RunFrom;
  }

  /** Leading its turn, a node executes its whole pool and empties it, whether or not that gives a block. */
  lemma LeadingDrainsPool(st: Settings, s: NodeState, now: i64)
    ensures var s' := Produce(st, s, now).state;
            if s.pending.None? && s.Identity().LeaderAt(s.NextHeight()) == s.roster.self
               && WrapSub(s.NextHeight(), 1) in s.blocks
            then s'.pool == [] && s'.ledger == History.RunFrom(st.config, s.ledger, Replays.At(s.pool, now)).ledger
            else s' == s
  {
    LedAsRun(st, s, now);
    if s.pool == [] {
      assert Replays.At(s.pool, now) == [];
    }
    hide Rules.Lead, Worthy, NewBlock, Roster.Finalizes, Signer.LeaderAt;
  }

  /** What is fed by these actions, in order. */
  function Fed(actions: seq<Action>): seq<Transaction> {
    if actions == [] then []
    else
      var last := actions[|actions| - 1];
      Fed(actions[..|actions| - 1]) + if last.Feeds? then last.txs else []
  }

  /** Until it leads, a node's pool is a queue: what was there, and then whatever is fed, in the order in which it
      came. */
  lemma {:induction false} PoolIsQueue(st: Settings, s: NodeState, actions: seq<Action>)
    requires forall i | 0 <= i < |actions| :: !actions[i].Leads?
    ensures Acts(st, s, actions).pool == s.pool + Fed(actions)
  {
    hide Act;
    if actions != [] {
      var n := |actions| - 1;
      PoolIsQueue(st, s, actions[..n]);
      StepFeedsPool(st, Acts(st, s, actions[..n]), actions[n]);
    }
  }

  lemma StepFeedsPool(st: Settings, s: NodeState, a: Action)
    requires !a.Leads?
    ensures Act(st, s, a).pool == s.pool + if a.Feeds? then a.txs else []
  {
    hide HandleProposal, CheckTimeout, Produce, ViewChange.Receive, Roster.Finalizes;
    if a.Follows? || a.Waits? {
      StepKeepsPool(st, s, a);
    }
  }

  lemma StepKeepsPool(st: Settings, s: NodeState, a: Action)
    requires a.Follows? || a.Waits?
    ensures Act(st, s, a).pool == s.pool
  {
    hide Rules.Replay, Rules.RootMatches, ViewChange.Request, Signer.Accepts;
  }

  // ── Asking for a view change ──

  /** What restarts the clock of a node: finalizing a block, storing one it makes, or completing the view change it asks
      for. Following another node's block does not. */
  lemma ClockIff(st: Settings, s: NodeState, a: Action)
    ensures var restarts :=
              || StoresPending(st, s, a) || StoresDirectly(st, s, a)
              || (a.Waits? && CheckTimeout(st, s, a.now).vote.Some?
                  && 2 * |s.view.Voters(s.NextHeight(), ViewChange.NextRound(s.view.round)) + {s.roster.self}|
                     > |s.roster.peers| + 1);
            Act(st, s, a).lastBlockTime == if restarts then a.now else s.lastBlockTime
  {
    hide HandleProposal, CheckTimeout, Produce, Roster.Finalizes;
    match a {
      case Follows(block) => FollowKeepsClock(st, s, block);
      case Waits(now) => AsksIff(st, s, now);
      case Leads(now) => LeadClock(st, s, now);
      case _ =>
    }
  }

  lemma FollowKeepsClock(st: Settings, s: NodeState, block: Block)
    ensures HandleProposal(st, s, block).state.lastBlockTime == s.lastBlockTime
  {
    hide Rules.Replay, Rules.RootMatches, Signer.Accepts;
  }

  lemma LeadClock(st: Settings, s: NodeState, now: i64)
    ensures Produce(st, s, now).state.lastBlockTime
         == if StoresDirectly(st, s, Leads(now)) then now else s.lastBlockTime
  {
    hide Rules.Lead, NewBlock, Roster.Finalizes, Signer.LeaderAt;
  }

  /** A node asks for a view change if and only if it waits for no signatures, was started with peers and has seen no
      block for longer than the timeout. Then it counts its own vote for the round it announces, and starts the clock
      anew if and only if that vote made a majority. */
  lemma AsksIff(st: Settings, s: NodeState, now: i64)
    ensures var r := CheckTimeout(st, s, now);
            && (r.vote.Some?
                <==> s.pending.None? && st.startedWithPeers && now - s.lastBlockTime > st.viewChangeTimeoutMs)
            && (r.vote.None? ==> r.state == s)
            && (r.vote.Some? ==>
                  var height, round := s.NextHeight(), (s.view.round + 1) % U32_LIMIT;
                  var majority := 2 * |s.view.Voters(height, round) + {s.roster.self}| > |s.roster.peers| + 1;
                  && r.vote == Some((height, round))
                  && s.roster.self in r.state.view.Voters(height, round)
                  && r.state.view.round == (if majority then round else s.view.round)
                  && r.state.lastBlockTime == (if majority then now else s.lastBlockTime))
  {
    hide ViewChange.Request;
  }

  // ── One iteration ──

  /** A signature that would be accepted for the pending block. */
  predicate Fits(st: Settings, s: NodeState, header: BlockHeader, sig: NodeSignature) {
    s.pending.Some? && s.pending.value.header == header && s.roster.Verifies(st.prims, header, sig)
  }

  predicate Holds(s: NodeState, sig: NodeSignature) {
    s.pending.Some? && sig in s.pending.value.signatures
  }

  lemma PeersKeepKeys(prims: Primitives, r: Roster, p: Peer, header: BlockHeader, sig: NodeSignature)
    requires r.Verifies(prims, header, sig)
    ensures r.(peers := r.peers + [p]).Verifies(prims, header, sig)
  {
    PeersKeepVerified(prims, r, p, header, [sig]);
    assert sig in [sig];
  }

  lemma ReactionAct(st: Settings, s: NodeState, msg: Message)
    ensures Acts(st, s, Reaction(msg)) == if Reaction(msg) == [] then s else Act(st, s, Reaction(msg)[0])
  {
    hide Act;
    if Reaction(msg) != [] {
      assert Reaction(msg)[..0] == [];
    }
  }

  lemma ReactionKeeps(st: Settings, s: NodeState, msg: Message, header: BlockHeader, sig: NodeSignature)
    requires Fits(st, s, header, sig)
    ensures var s' := Acts(st, s, Reaction(msg));
            && Fits(st, s', header, sig)
            && (Holds(s, sig) || msg == Sign(header.height, sig) ==> Holds(s', sig))
  {
    hide Acts, HandleProposal, CheckTimeout, Produce, FinalizePending, ViewChange.Receive, Roster.Verifies;
    ReactionAct(st, s, msg);
    if msg.Handshake? {
      PeersKeepKeys(st.prims, s.roster, Peer(msg.nodeId, msg.publicKey), header, sig);
    }
  }

  lemma ReactionKeepsHeader(st: Settings, s: NodeState, msg: Message)
    requires s.pending.Some?
    ensures var s' := Acts(st, s, Reaction(msg));
            && s'.pending.Some? && s'.pending.value.header == s.pending.value.header
            && s'.minSignatures == s.minSignatures
  {
    hide Acts, HandleProposal, CheckTimeout, Produce, FinalizePending, ViewChange.Receive, Roster.Verifies;
    ReactionAct(st, s, msg);
  }

  lemma {:induction false} PendingHeaderStays(st: Settings, s: NodeState, msgs: seq<Message>)
    requires s.pending.Some?
    ensures var s' := Acts(st, s, Reactions(msgs));
            && s'.pending.Some? && s'.pending.value.header == s.pending.value.header
            && s'.minSignatures == s.minSignatures
  {
    hide Act, Reaction;
    if msgs != [] {
      var n := |msgs| - 1;
      PendingHeaderStays(st, s, msgs[..n]);
      ActsConcat(st, s, Reactions(msgs[..n]), Reaction(msgs[n]));
      ReactionKeepsHeader(st, Acts(st, s, Reactions(msgs[..n])), msgs[n]);
    }
  }

  lemma {:induction false} ActsConcat(st: Settings, s: NodeState, a: seq<Action>, b: seq<Action>)
    ensures Acts(st, s, a + b) == Acts(st, Acts(st, s, a), b)
  {
    hide Act;
    if b == [] {
      assert a + b == a;
    } else {
      assert (a + b)[..|a + b| - 1] == a + b[..|b| - 1];
      ActsConcat(st, s, a, b[..|b| - 1]);
    }
  }

  /** Whatever else arrives before or after it, a valid signature for the pending block that arrives while messages are
      drained is among the signatures of that block once they are. */
  lemma {:induction false} ArrivedSignatureIsHeld(st: Settings, s: NodeState, msgs: seq<Message>, header: BlockHeader,
                                                 sig: NodeSignature)
    requires Fits(st, s, header, sig)
    ensures var s' := Acts(st, s, Reactions(msgs));
            && Fits(st, s', header, sig)
            && (Holds(s, sig) || Sign(header.height, sig) in msgs ==> Holds(s', sig))
  {
    hide Act, Fits, Holds, Reaction;
    if msgs != [] {
      var n := |msgs| - 1;
      ArrivedSignatureIsHeld(st, s, msgs[..n], header, sig);
      ActsConcat(st, s, Reactions(msgs[..n]), Reaction(msgs[n]));
      ReactionKeeps(st, Acts(st, s, Reactions(msgs[..n])), msgs[n], header, sig);
      hide Acts;
      assert msgs == msgs[..n] + [msgs[n]];
    }
  }

  /** Signatures held, and enough of them by different nodes. */
  lemma HeldQuorumFinalizes(st: Settings, s: NodeState, header: BlockHeader, sigs: set<NodeSignature>)
    requires forall sig | sig in sigs :: Fits(st, s, header, sig) && Holds(s, sig)
    requires s.pending.Some? && s.pending.value.header == header
    requires |set sig | sig in sigs :: sig.nodeId| >= s.minSignatures
    ensures s.roster.Finalizes(st.prims, header, s.pending.value.signatures, s.minSignatures)
  {
    hide Roster.Verifies;
    var ids := set sig | sig in sigs :: sig.nodeId;
    var counted := s.roster.Counted(st.prims, header, s.pending.value.signatures);
    forall id | id in ids ensures id in counted {
      var sig :| sig in sigs && sig.nodeId == id;
      assert Fits(st, s, header, sig) && Holds(s, sig);
    }
    SubsetSize(ids, counted);
  }

  /** A block is finalized in the iteration in which its quorum is complete: if valid signatures of enough different
      nodes are held or arrive among the messages, in whatever order, the pending block is stored once messages, pending
      block and proposals have been dealt with. */
  lemma FinalizedInTime(st: Settings, s: NodeState, msgs: seq<Message>, now: i64, sigs: set<NodeSignature>)
    requires s.pending.Some?
    requires forall sig | sig in sigs ::
               && s.roster.Verifies(st.prims, s.pending.value.header, sig)
               && (Holds(s, sig) || Sign(s.pending.value.header.height, sig) in msgs)
    requires |set sig | sig in sigs :: sig.nodeId| >= s.minSignatures
    ensures var header, s' := s.pending.value.header, Acts(st, s, Receiving(msgs, now));
            header.height in s'.blocks && s'.blocks[header.height].header == header
  {
    hide Acts, Reactions, FinalizePending, HandleProposal, Holds, Roster.Verifies, Following, ProposalsIn;
    var header := s.pending.value.header;
    var drained := Acts(st, s, Reactions(msgs));
    forall sig | sig in sigs ensures Fits(st, drained, header, sig) && Holds(drained, sig) {
      ArrivedSignatureIsHeld(st, s, msgs, header, sig);
    }
    PendingHeaderStays(st, s, msgs);
    HeldQuorumFinalizes(st, drained, header, sigs);
    ActsNext(st, s, Reactions(msgs), Completes(now));
    var finalized := Act(st, drained, Completes(now));
    assert finalized.blocks == drained.blocks[header.height := drained.pending.value] by {
      PendingOutcome(st, drained, now);
    }
    ActsConcat(st, s, Reactions(msgs) + [Completes(now)], Following(ProposalsIn(msgs)));
    FollowingKeeps(st, finalized, ProposalsIn(msgs));
  }

  lemma {:induction false} FollowingKeeps(st: Settings, s: NodeState, proposals: seq<Block>)
    ensures Extends(s.blocks, Acts(st, s, Following(proposals)).blocks)
  {
    hide HandleProposal;
    if proposals != [] {
      var n := |proposals| - 1;
      assert Following(proposals)[..n] == Following(proposals[..n]);
      FollowingKeeps(st, s, proposals[..n]);
      HandleKeeps(st, Acts(st, s, Following(proposals[..n])), proposals[n]);
    }
  }

  lemma {:induction false} FedConcat(a: seq<Action>, b: seq<Action>)
    ensures Fed(a + b) == Fed(a) + Fed(b)
  {
    if b == [] {
      assert a + b == a;
    } else {
      assert (a + b)[..|a + b| - 1] == a + b[..|b| - 1];
      FedConcat(a, b[..|b| - 1]);
    }
  }

  predicate NeitherFeedsNorLeads(actions: seq<Action>) {
    forall i | 0 <= i < |actions| :: !actions[i].Feeds? && !actions[i].Leads?
  }

  lemma {:induction false} NothingFed(actions: seq<Action>)
    requires NeitherFeedsNorLeads(actions)
    ensures Fed(actions) == []
  {
    if actions != [] {
      NothingFed(actions[..|actions| - 1]);
    }
  }

  lemma {:induction false} ReactionsFeedNothing(msgs: seq<Message>)
    ensures NeitherFeedsNorLeads(Reactions(msgs))
  {
    if msgs != [] {
      ReactionsFeedNothing(msgs[..|msgs| - 1]);
    }
  }

  /** Everything that arrives in an iteration can enter its block: production comes last and finds in the pool what was
      left over, then the transactions of the interface, of the messages and of the node's own channel, in that
      order. */
  lemma ProducesFromAllFed(st: Settings, s: NodeState, rpcTxs: seq<Transaction>, msgs: seq<Message>,
                           queued: seq<Transaction>, clock: Clock)
    returns (before: NodeState)
    ensures Acts(st, s, Schedule(rpcTxs, msgs, queued, clock)) == Produce(st, before, clock.producing).state
    ensures before.pool == s.pool + rpcTxs + SubmittedIn(msgs) + queued
  {
    hide Acts, Reactions, ProposalsIn, SubmittedIn, Following, Produce, Fed, NeitherFeedsNorLeads;
    var fed := rpcTxs + SubmittedIn(msgs) + queued;
    var received := Receiving(msgs, clock.finalizing);
    var early := received + [Feeds(fed)] + [Waits(clock.waiting)];
    assert Schedule(rpcTxs, msgs, queued, clock) == early + [Leads(clock.producing)];
    ActsNext(st, s, early, Leads(clock.producing));
    before := Acts(st, s, early);
    ReceivingFeedsNothing(msgs, clock.finalizing);
    EarlyFeeds(received, fed, clock.waiting);
    PoolIsQueue(st, s, early);
    assert s.pool + fed == s.pool + rpcTxs + SubmittedIn(msgs) + queued;
  }

  lemma ReceivingFeedsNothing(msgs: seq<Message>, now: i64)
    ensures NeitherFeedsNorLeads(Receiving(msgs, now))
  {
    hide Reactions, ProposalsIn;
    ReactionsFeedNothing(msgs);
  }

  lemma EarlyFeeds(received: seq<Action>, fed: seq<Transaction>, waiting: i64)
    requires NeitherFeedsNorLeads(received)
    ensures var early := received + [Feeds(fed)] + [Waits(waiting)];
            Fed(early) == fed && forall i | 0 <= i < |early| :: !early[i].Leads?
  {
    NothingFed(received);
    FedConcat(received + [Feeds(fed)], [Waits(waiting)]);
    FedConcat(received, [Feeds(fed)]);
    assert [Feeds(fed)][..0] == [] && [Waits(waiting)][..0] == [];
    assert [] + fed + [] == fed;
  }
}
