/** rc-node/src/main.rs: the numbered steps of the production loop, as they change one node's fields. */
module Node {
  import opened Types
  import opened Quorum
  import opened ViewChange
  import opened Protocol
  import opened Consensus
  import opened StateMachine
  import opened Store
  import Rules

  class Node {
    const settings: Settings
    const store: Store
    const consensus: Consensus
    const stateMachine: StateMachine
    var pendingBlock: Option<Block>
    var lastBlockTime: i64

    ghost predicate Valid()
      reads this
    {
      && stateMachine.store == store
      && stateMachine.config == settings.config
      && stateMachine.prims == settings.prims
      && consensus.prims == settings.prims
    }

    function State(): NodeState
      reads this, store, consensus
    {
      NodeState(consensus.Known(), consensus.privateKey, consensus.minSignatures, consensus.State(),
                consensus.pendingTxs,
                store.Image(), store.blocks, store.latestHeight, pendingBlock, lastBlockTime)
    }

    constructor (settings: Settings, store: Store, consensus: Consensus, stateMachine: StateMachine, now: i64)
      requires stateMachine.store == store && stateMachine.config == settings.config
      requires stateMachine.prims == settings.prims && consensus.prims == settings.prims
      ensures Valid() && pendingBlock == None && lastBlockTime == now
      ensures this.settings == settings && this.store == store && this.consensus == consensus
    {
      this.settings, this.store, this.consensus, this.stateMachine := settings, store, consensus, stateMachine;
      pendingBlock, lastBlockTime := None, now;
    }

    method OnSign(height: u64, sig: NodeSignature)
      requires Valid()
      modifies `pendingBlock
      ensures State() == Collect(settings, old(State()), height, sig)
    {
      if pendingBlock.Some? {
        var pb := pendingBlock.value;
        if pb.header.height == height {
          var valid := consensus.VerifyBlockSignature(pb, sig);
          if valid {
            pendingBlock := Some(pb.(signatures := pb.signatures + [sig]));
          }
        }
      }
    }

    method OnViewChange(height: u64, round: u32, from: Id)
      requires Valid()
      modifies consensus
      ensures State() == HearViewChange(old(State()), height, round, from)
    {
      var _ := consensus.ReceiveViewChange(height, round, from);
    }

    /** A new peer is answered with a handshake of one's own. */
    method OnHandshake(id: Id, publicKey: Id) returns (sent: seq<Sending>)
      requires Valid()
      modifies consensus
      ensures State() == HearHandshake(old(State()), id, publicKey)
      ensures sent == Emits(settings, old(State()), HearsPeer(id, publicKey))
    {
      var added := consensus.AddPeer(id, publicKey);
      sent := if added then [SendTo(id, Handshake(consensus.nodeId, consensus.nodeId))] else [];
    }

    method TryFinalize(now: i64)
      requires Valid()
      modifies this, store, consensus
      ensures State() == FinalizePending(settings, old(State()), now)
    {
      if pendingBlock.Some? {
        var pb := pendingBlock.value;
        var finalized := consensus.IsFinalized(pb);
        if finalized {
          store.PutBlock(pb);
          lastBlockTime := now;
          consensus.ResetRound();
          pendingBlock := None;
        } else {
          var age := now - pb.header.timestamp;
          var signatureWait := settings.blockTimeMs / 2;
          if age > signatureWait * 4 {
            pendingBlock := None;
          }
        }
      }
    }

    method OnProposal(block: Block) returns (reply: Option<NodeSignature>)
      requires Valid()
      modifies store
      ensures Handled(State(), reply) == HandleProposal(settings, old(State()), block)
    {
      var height := block.header.height;
      if height == 0 {
        return None;
      }
      var existing := store.GetBlock(height);
      if existing.Some? {
        return None;
      }
      var prev := store.GetBlock(height - 1);
      if prev.None? {
        return None;
      }
      var prevHash := settings.prims.hashHeader(prev.value.header);
      reply := consensus.VerifyAndSign(block, prevHash);
      if reply.Some? {
        var _ := stateMachine.ApplyBlock(block);
      }
    }

    method FeedTransactions(txs: seq<Transaction>, queued: seq<Transaction>)
      requires Valid()
      modifies consensus
      ensures State() == Pool(old(State()), txs + queued)
    {
      consensus.PushTxs(txs);
      consensus.CollectPendingTxs(queued);
      assert old(consensus.pendingTxs) + txs + queued == old(consensus.pendingTxs) + (txs + queued);
    }

    method CheckViewChangeTimeout(now: i64) returns (vote: Option<(u64, u32)>)
      requires Valid()
      modifies this, consensus
      ensures Requested(State(), vote) == CheckTimeout(settings, old(State()), now)
    {
      vote := None;
      if pendingBlock.None? && settings.startedWithPeers {
        var elapsed := now - lastBlockTime;
        if elapsed > settings.viewChangeTimeoutMs {
          var latest := store.GetLatestHeight();
          var height := WrapAdd(latest, 1);
          var round := NextRound(consensus.round);
          var changed := consensus.RequestViewChange(height);
          if changed {
            lastBlockTime := now;
          }
          vote := Some((height, round));
        }
      }
    }

    /** Executes the drained transactions in order and keeps those that succeed. */
    method ExecuteAll(txs: seq<Transaction>, now: i64) returns (validTxs: seq<Transaction>, allEvents: seq<Event>)
      requires Valid()
      modifies store
      ensures Rules.Led(store.Image(), validTxs, allEvents) == Rules.Lead(settings.config, old(store.Image()), txs, now)
      ensures store.blocks == old(store.blocks) && store.latestHeight == old(store.latestHeight)
    {
      hide Rules.Execute;
      validTxs, allEvents := [], [];
      for i := 0 to |txs|
        invariant Rules.Led(store.Image(), validTxs, allEvents)
               == Rules.Lead(settings.config, old(store.Image()), txs[..i], now)
        invariant store.blocks == old(store.blocks) && store.latestHeight == old(store.latestHeight)
      {
        assert txs[..i + 1][..i] == txs[..i];
        var executed := stateMachine.Execute(txs[i], now);
        if executed.Ok? {
          allEvents := allEvents + executed.value;
          validTxs := validTxs + [txs[i]];
        }
      }
      assert txs[..|txs|] == txs;
    }

    method PublishBlock(block: Block, now: i64)
      requires Valid()
      modifies this, store, consensus
      ensures State() == Publish(settings, old(State()), block, now)
    {
      if |consensus.peers| > 0 {
        var finalized := consensus.IsFinalized(block);
        if finalized {
          store.PutBlock(block);
          lastBlockTime := now;
          consensus.ResetRound();
        } else {
          pendingBlock := Some(block);
        }
      } else {
        store.PutBlock(block);
        lastBlockTime := now;
      }
    }

    method ProduceBlock(now: i64) returns (produced: Option<Block>)
      requires Valid()
      modifies this, store, consensus
      ensures Produced(State(), produced) == Produce(settings, old(State()), now)
    {
      hide Rules.Lead, Rules.Execute, Publish;
      produced := None;
      if pendingBlock.Some? {
        return;
      }
      var latest := store.GetLatestHeight();
      var height := WrapAdd(latest, 1);
      if !consensus.IsLeader(height) || consensus.pendingTxs == [] {
        return;
      }
      var prev := store.GetBlock(WrapSub(height, 1));
      if prev.None? {
        return;
      }
      var prevHash := settings.prims.hashHeader(prev.value.header);
      var drained := consensus.DrainPendingTxs();
      var validTxs, allEvents := ExecuteAll(drained, now);
      if validTxs == [] {
        return;
      }
      var stateRoot := settings.prims.stateRoot(store.Image());
      var txHash := settings.prims.TxHash(validTxs);
      var header := BlockHeader(height, prevHash, now, |validTxs| % U32_LIMIT, txHash, stateRoot, consensus.nodeId);
      var signature := settings.prims.sign(header, consensus.privateKey);
      var block := Block(header, validTxs, [NodeSignature(consensus.nodeId, signature)]);
      produced := Some(block);
      PublishBlock(block, now);
    }

    /** Step 2 of an iteration: reacts to what arrived and sets proposals and transactions aside. */
    method DrainMessages(msgs: seq<Message>)
      returns (proposals: seq<Block>, submitted: seq<Transaction>, sent: seq<Sending>)
      requires Valid()
      modifies this, consensus
      ensures State() == Acts(settings, old(State()), Reactions(msgs))
      ensures sent == Sends(settings, old(State()), Reactions(msgs))
      ensures proposals == ProposalsIn(msgs) && submitted == SubmittedIn(msgs)
    {
      hide Act, Emits;
      proposals, submitted, sent := [], [], [];
      for i := 0 to |msgs|
        invariant State() == Acts(settings, old(State()), Reactions(msgs[..i]))
        invariant sent == Sends(settings, old(State()), Reactions(msgs[..i]))
        invariant proposals == ProposalsIn(msgs[..i]) && submitted == SubmittedIn(msgs[..i])
      {
        assert msgs[..i + 1][..i] == msgs[..i];
        var reply := React(msgs[i], old(State()), Reactions(msgs[..i]));
        sent := sent + reply;
        if msgs[i].Propose? {
          proposals := proposals + [msgs[i].block];
        }
        if msgs[i].SubmitTx? {
          submitted := submitted + [msgs[i].tx];
        }
      }
      assert msgs[..|msgs|] == msgs;
    }

    /** One message. */
    method React(msg: Message, ghost s: NodeState, ghost done: seq<Action>) returns (sent: seq<Sending>)
      requires Valid() && State() == Acts(settings, s, done)
      modifies this, consensus
      ensures State() == Acts(settings, s, done + Reaction(msg))
      ensures Sends(settings, s, done) + sent == Sends(settings, s, done + Reaction(msg))
    {
      hide Collect, HearViewChange, HearHandshake, Acts, Sends, HandleProposal, CheckTimeout, Produce;
      sent := [];
      assert done + [] == done;
      match msg {
        case Sign(height, sig) =>
          OnSign(height, sig);
          ActsNext(settings, s, done, Collects(height, sig));
        case ViewChange(height, round, from) =>
          OnViewChange(height, round, from);
          ActsNext(settings, s, done, HearsVote(height, round, from));
        case Handshake(id, publicKey) =>
          sent := OnHandshake(id, publicKey);
          ActsNext(settings, s, done, HearsPeer(id, publicKey));
        case Propose(_) =>
        case SubmitTx(_) =>
        case RequestTxs =>
      }
    }

    /** Step 4: the proposals set aside, in order; each signature goes to all peers. */
    method HandleProposals(proposals: seq<Block>, ghost s: NodeState, ghost done: seq<Action>)
      returns (sent: seq<Sending>)
      requires Valid() && State() == Acts(settings, s, done)
      modifies store
      ensures State() == Acts(settings, s, done + Following(proposals))
      ensures Sends(settings, s, done) + sent == Sends(settings, s, done + Following(proposals))
    {
      hide HandleProposal, Acts, Sends, Following;
      FollowingNone(done, proposals);
      sent := [];
      for i := 0 to |proposals|
        invariant State() == Acts(settings, s, done + Following(proposals[..i]))
        invariant Sends(settings, s, done) + sent == Sends(settings, s, done + Following(proposals[..i]))
      {
        var reply := OnProposal(proposals[i]);
        var signed := if reply.Some? then [Broadcast(Sign(proposals[i].header.height, reply.value))] else [];
        assert Sends(settings, s, done) + (sent + signed) == Sends(settings, s, done) + sent + signed;
        sent := sent + signed;
        ActsNext(settings, s, done + Following(proposals[..i]), Follows(proposals[i]));
        FollowingNext(done, proposals, i);
      }
      assert proposals[..|proposals|] == proposals;
    }

    /** Steps 2 to 4: messages, the pending block, proposals. */
    method Receive(msgs: seq<Message>, now: i64) returns (submitted: seq<Transaction>, sent: seq<Sending>)
      requires Valid()
      modifies this, store, consensus
      ensures State() == Acts(settings, old(State()), Receiving(msgs, now))
      ensures sent == Sends(settings, old(State()), Receiving(msgs, now))
      ensures submitted == SubmittedIn(msgs)
    {
      hide FinalizePending, HandleProposal, CheckTimeout, Produce, Acts, Sends, Reactions, ProposalsIn, SubmittedIn,
           Following;
      ghost var s := State();
      var proposals;
      proposals, submitted, sent := DrainMessages(msgs);
      TryFinalize(now);
      ActsNext(settings, s, Reactions(msgs), Completes(now));
      var replies := HandleProposals(proposals, s, Reactions(msgs) + [Completes(now)]);
      sent := sent + replies;
    }

    /** One iteration of the production loop, and everything it sends, in order. */
    method Tick(rpcTxs: seq<Transaction>, msgs: seq<Message>, queued: seq<Transaction>, clock: Clock)
      returns (sent: seq<Sending>)
      requires Valid()
      modifies this, store, consensus
      ensures State() == Acts(settings, old(State()), Schedule(rpcTxs, msgs, queued, clock))
      ensures sent == Sends(settings, old(State()), Schedule(rpcTxs, msgs, queued, clock))
    {
      hide CheckTimeout, Produce, Acts, Sends, Receiving, SubmittedIn;
      ghost var s := State();
      var submitted;
      submitted, sent := Receive(msgs, clock.finalizing);
      ghost var done := Receiving(msgs, clock.finalizing);
      FeedTransactions(rpcTxs + submitted, queued);
      ActsNext(settings, s, done, Feeds(rpcTxs + submitted + queued));
      done := done + [Feeds(rpcTxs + submitted + queued)];
      var vote := CheckViewChangeTimeout(clock.waiting);
      if vote.Some? {
        sent := sent + [Broadcast(ViewChange(vote.value.0, vote.value.1, consensus.nodeId))];
      }
      ActsNext(settings, s, done, Waits(clock.waiting));
      done := done + [Waits(clock.waiting)];
      var hasPeers := |consensus.peers| > 0;
      var block := ProduceBlock(clock.producing);
      if block.Some? && hasPeers {
        sent := sent + [Broadcast(Propose(block.value))];
      }
      ActsNext(settings, s, done, Leads(clock.producing));
    }
  }
}
