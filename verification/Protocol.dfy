/** The steps of one node, as functions: the specification of the production loop and of `handle_proposal`. */
module Protocol {
  import opened Types
  import opened Consensus
  import opened Quorum
  import opened ViewChange
  import Rules

  datatype Settings = Settings(
    prims: Primitives, config: Config, blockTimeMs: u64, viewChangeTimeoutMs: u64, startedWithPeers: bool)
  {
    /** How long a pending block waits for signatures: four times half a block time. */
    function SignatureTimeout(): nat {
      blockTimeMs / 2 * 4
    }
  }

  datatype NodeState = NodeState(
    roster: Roster, privateKey: Id, minSignatures: nat, view: View, pool: seq<Transaction>,
    ledger: Ledger, blocks: map<u64, Block>, latest: Option<u64>,
    pending: Option<Block>, lastBlockTime: i64)
  {
    function Identity(): Signer {
      Signer(roster, privateKey, view.round)
    }

    function Height(): u64 {
      if latest.Some? then latest.value else 0
    }

    function NextHeight(): u64 {
      WrapAdd(Height(), 1)
    }

    /** `put_block`: whatever was stored at that height is replaced. */
    function Put(b: Block): NodeState {
      this.(blocks := blocks[b.header.height := b], latest := Some(b.header.height))
    }
  }

  // ── 2. Messages ──

  /** A signature for the pending block is kept only if it verifies. */
  function Collect(st: Settings, s: NodeState, height: u64, sig: NodeSignature): NodeState {
    if s.pending.Some? && s.pending.value.header.height == height
       && s.roster.Verifies(st.prims, s.pending.value.header, sig)
    then s.(pending := Some(s.pending.value.(signatures := s.pending.value.signatures + [sig])))
    else s
  }

  function HearViewChange(s: NodeState, height: u64, round: u32, from: Id): NodeState {
    s.(view := Receive(s.view, |s.roster.peers| + 1, height, round, from).view)
  }

  function HearHandshake(s: NodeState, id: Id, publicKey: Id): NodeState {
    if id in s.roster.Validators() then s else s.(roster := s.roster.(peers := s.roster.peers + [Peer(id, publicKey)]))
  }

  // ── 3. Finalization ──

  predicate TimesOut(st: Settings, s: NodeState, now: i64) {
    && s.pending.Some?
    && !s.roster.Finalizes(st.prims, s.pending.value.header, s.pending.value.signatures, s.minSignatures)
    && now - s.pending.value.header.timestamp > st.SignatureTimeout()
  }

  function FinalizePending(st: Settings, s: NodeState, now: i64): NodeState {
    if s.pending.None? then s
    else
      var pb := s.pending.value;
      if s.roster.Finalizes(st.prims, pb.header, pb.signatures, s.minSignatures) then
        s.Put(pb).(pending := None, view := INITIAL, lastBlockTime := now)
      else if TimesOut(st, s, now) then s.(pending := None)
      else s
  }

  // ── 4. Proposals ──

  datatype Handled = Handled(state: NodeState, reply: Option<NodeSignature>)

  /** A follower signs, replies, and only then replays: the reply stands even if the root check fails. */
  function HandleProposal(st: Settings, s: NodeState, block: Block): Handled {
    var height := block.header.height;
    if height == 0 || height in s.blocks || height - 1 !in s.blocks then Handled(s, None)
    else if !s.Identity().Accepts(st.prims, block, st.prims.hashHeader(s.blocks[height - 1].header)) then
      Handled(s, None)
    else
      var replayed := Rules.Replay(st.prims, st.config, s.ledger, block.transactions, block.header.timestamp);
      var s' := s.(ledger := replayed.ledger);
      Handled(if Rules.RootMatches(st.prims, block.header, replayed.ledger) then s'.Put(block) else s',
              Some(s.Identity().Sign(st.prims, block.header)))
  }

  // ── 5. Transactions ──

  function Pool(s: NodeState, txs: seq<Transaction>): NodeState {
    s.(pool := s.pool + txs)
  }

  // ── 6.5. View change timeout ──

  datatype Requested = Requested(state: NodeState, vote: Option<(u64, u32)>)

  /** The vote that is broadcast names the round after the current one. */
  function CheckTimeout(st: Settings, s: NodeState, now: i64): Requested {
    if s.pending.None? && st.startedWithPeers && now - s.lastBlockTime > st.viewChangeTimeoutMs then
      var t := Request(s.view, |s.roster.peers| + 1, s.roster.self, s.NextHeight());
      Requested(s.(view := t.view, lastBlockTime := if t.changed then now else s.lastBlockTime),
                Some((s.NextHeight(), NextRound(s.view.round))))
    else Requested(s, None)
  }

  // ── 7, 8. Production ──

  datatype Produced = Produced(state: NodeState, block: Option<Block>)

  /** Alone, a node stores its block at once; with peers it broadcasts the block and, short of signatures, keeps it
      pending. */
  function Publish(st: Settings, s: NodeState, block: Block, now: i64): NodeState {
    if s.roster.peers == [] then s.Put(block).(lastBlockTime := now)
    else if s.roster.Finalizes(st.prims, block.header, block.signatures, s.minSignatures) then
      s.Put(block).(lastBlockTime := now, view := INITIAL)
    else s.(pending := Some(block))
  }

  /** A leader with transactions executes them all and blocks the successful ones. */
  function Produce(st: Settings, s: NodeState, now: i64): Produced {
    var height := s.NextHeight();
    var prev := WrapSub(height, 1);
    if s.pending.Some? || s.Identity().LeaderAt(height) != s.roster.self || s.pool == [] || prev !in s.blocks then
      Produced(s, None)
    else
      var led := Rules.Lead(st.config, s.ledger, s.pool, now);
      var s' := s.(pool := [], ledger := led.ledger);
      if led.kept == [] then Produced(s', None)
      else
        var block := NewBlock(st, s', height, st.prims.hashHeader(s.blocks[prev].header), led.kept, now);
        Produced(Publish(st, s', block, now), Some(block))
  }

  /** The header states the root of the tables as they are now, after execution. */
  function NewBlock(st: Settings, s: NodeState, height: u64, prevHash: Hash, txs: seq<Transaction>, now: i64): Block {
    var header := BlockHeader(height, prevHash, now, |txs| % U32_LIMIT, st.prims.TxHash(txs),
                              st.prims.stateRoot(s.ledger), s.roster.self);
    Block(header, txs, [s.Identity().Sign(st.prims, header)])
  }

  // ── One iteration of the loop ──

  datatype Message =
    | Propose(block: Block)
    | Sign(height: u64, sig: NodeSignature)
    | RequestTxs
    | SubmitTx(tx: Transaction)
    | ViewChange(height: u64, round: u32, nodeId: Id)
    | Handshake(nodeId: Id, publicKey: Id)

  datatype Action =
    | Collects(height: u64, sig: NodeSignature)
    | HearsVote(height: u64, round: u32, from: Id)
    | HearsPeer(id: Id, publicKey: Id)
    | Completes(now: i64)
    | Follows(block: Block)
    | Feeds(txs: seq<Transaction>)
    | Waits(now: i64)
    | Leads(now: i64)

  function Act(st: Settings, s: NodeState, a: Action): NodeState {
    match a
    case Collects(height, sig) => Collect(st, s, height, sig)
    case HearsVote(height, round, from) => HearViewChange(s, height, round, from)
    case HearsPeer(id, publicKey) => HearHandshake(s, id, publicKey)
    case Completes(now) => FinalizePending(st, s, now)
    case Follows(block) => HandleProposal(st, s, block).state
    case Feeds(txs) => Pool(s, txs)
    case Waits(now) => CheckTimeout(st, s, now).state
    case Leads(now) => Produce(st, s, now).state
  }

  function Acts(st: Settings, s: NodeState, actions: seq<Action>): NodeState {
    if actions == [] then s else Act(st, Acts(st, s, actions[..|actions| - 1]), actions[|actions| - 1])
  }

  // ── What an action sends ──

  datatype Sending = Broadcast(msg: Message) | SendTo(to: Id, msg: Message)

  /** A handshake goes back to a new peer; signatures, votes and blocks go to all peers. */
  function Emits(st: Settings, s: NodeState, a: Action): seq<Sending> {
    match a
    case HearsPeer(id, _) =>
      if id in s.roster.Validators() then [] else [SendTo(id, Handshake(s.roster.self, s.roster.self))]
    case Follows(block) =>
      var reply := HandleProposal(st, s, block).reply;
      if reply.Some? then [Broadcast(Sign(block.header.height, reply.value))] else []
    case Waits(now) =>
      var vote := CheckTimeout(st, s, now).vote;
      if vote.Some? then [Broadcast(ViewChange(vote.value.0, vote.value.1, s.roster.self))] else []
    case Leads(now) =>
      var block := Produce(st, s, now).block;
      if block.Some? && s.roster.peers != [] then [Broadcast(Propose(block.value))] else []
    case _ => []
  }

  function Sends(st: Settings, s: NodeState, actions: seq<Action>): seq<Sending> {
    if actions == [] then []
    else
      var before := actions[..|actions| - 1];
      Sends(st, s, before) + Emits(st, Acts(st, s, before), actions[|actions| - 1])
  }

  lemma ActsNext(st: Settings, s: NodeState, actions: seq<Action>, a: Action)
    ensures Acts(st, s, actions + [a]) == Act(st, Acts(st, s, actions), a)
    ensures Sends(st, s, actions + [a]) == Sends(st, s, actions) + Emits(st, Acts(st, s, actions), a)
  {
    assert (actions + [a])[..|actions + [a]| - 1] == actions;
  }

  /** What the node does as it drains its messages. */
  function Reactions(msgs: seq<Message>): seq<Action> {
    if msgs == [] then [] else Reactions(msgs[..|msgs| - 1]) + Reaction(msgs[|msgs| - 1])
  }

  function Reaction(msg: Message): seq<Action> {
    match msg
    case Sign(height, sig) => [Collects(height, sig)]
    case ViewChange(height, round, from) => [HearsVote(height, round, from)]
    case Handshake(id, publicKey) => [HearsPeer(id, publicKey)]
    case _ => []
  }

  function ProposalsIn(msgs: seq<Message>): seq<Block> {
    if msgs == [] then []
    else
      var last := msgs[|msgs| - 1];
      ProposalsIn(msgs[..|msgs| - 1]) + if last.Propose? then [last.block] else []
  }

  function SubmittedIn(msgs: seq<Message>): seq<Transaction> {
    if msgs == [] then []
    else
      var last := msgs[|msgs| - 1];
      SubmittedIn(msgs[..|msgs| - 1]) + if last.SubmitTx? then [last.tx] else []
  }

  function Following(blocks: seq<Block>): (actions: seq<Action>)
    ensures |actions| == |blocks| && forall i | 0 <= i < |blocks| :: actions[i] == Follows(blocks[i])
  {
    seq(|blocks|, i requires 0 <= i < |blocks| => Follows(blocks[i]))
  }

  lemma FollowingNext(actions: seq<Action>, blocks: seq<Block>, i: nat)
    requires i < |blocks|
    ensures actions + Following(blocks[..i]) + [Follows(blocks[i])] == actions + Following(blocks[..i + 1])
  {
  }

  lemma FollowingNone(actions: seq<Action>, blocks: seq<Block>)
    ensures actions + Following(blocks[..0]) == actions
  {
  }

  datatype Clock = Clock(finalizing: i64, waiting: i64, producing: i64)

  function Receiving(msgs: seq<Message>, now: i64): seq<Action> {
    Reactions(msgs) + [Completes(now)] + Following(ProposalsIn(msgs))
  }

  /** The order of one iteration: messages, the pending block, proposals, transactions, the timeout, production. */
  function Schedule(rpcTxs: seq<Transaction>, msgs: seq<Message>, queued: seq<Transaction>, clock: Clock): seq<Action> {
    Receiving(msgs, clock.finalizing) + [Feeds(rpcTxs + SubmittedIn(msgs) + queued)] + [Waits(clock.waiting)]
    + [Leads(clock.producing)]
  }
}
