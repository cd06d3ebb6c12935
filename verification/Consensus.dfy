/** rc-consensus: a node's peers, its round, its pending transactions, and what it signs and finalizes. */
module Consensus {
  import opened Types
  import opened Quorum
  import opened ViewChange
  import Rotation

  function PeerIds(peers: seq<Peer>): (ids: seq<Id>)
    ensures |ids| == |peers| && forall i | 0 <= i < |peers| :: ids[i] == peers[i].id
  {
    seq(|peers|, i requires 0 <= i < |peers| => peers[i].id)
  }

  /** Everything a node's signature depends on. */
  datatype Signer = Signer(roster: Roster, privateKey: Id, round: u32) {
    function Nodes(): (nodes: seq<Id>)
      ensures nodes != []
    {
      Rotation.AllNodes(PeerIds(roster.peers), roster.self)
    }

    function LeaderAt(height: u64): Id {
      Rotation.Leader(Nodes(), height, round)
    }

    /** When a follower signs: the first signature is checked only if it is by a known peer. */
    predicate Accepts(prims: Primitives, block: Block, prevHash: Hash) {
      && block.header.proposer == LeaderAt(block.header.height)
      && block.header.prevHash == prevHash
      && block.signatures != []
      && var first := block.signatures[0];
      && var key := roster.PeerKey(first.nodeId);
      && (key.Some? ==> prims.verify(block.header, first.signature, key.value))
      && prims.TxHash(block.transactions) == block.header.txHash
    }

    function Sign(prims: Primitives, header: BlockHeader): NodeSignature {
      NodeSignature(roster.self, prims.sign(header, privateKey))
    }
  }

  class Consensus {
    const nodeId: Id
    const privateKey: Id
    const minSignatures: nat
    const prims: Primitives
    var peers: seq<Peer>
    var pendingTxs: seq<Transaction>
    var round: u32
    var viewChangeVotes: map<(u64, u32), set<Id>>

    constructor (nodeId: Id, privateKey: Id, peers: seq<Peer>, minSignatures: nat, prims: Primitives)
      ensures this.nodeId == nodeId && this.privateKey == privateKey && this.minSignatures == minSignatures
      ensures this.prims == prims && this.peers == peers && pendingTxs == [] && State() == INITIAL
    {
      this.nodeId, this.privateKey, this.minSignatures, this.prims := nodeId, privateKey, minSignatures, prims;
      this.peers, pendingTxs, round, viewChangeVotes := peers, [], 0, map[];
    }

    function State(): View
      reads this
    {
      View(round, viewChangeVotes)
    }

    function Known(): Roster
      reads this
    {
      Roster(nodeId, peers)
    }

    function Identity(): Signer
      reads this
    {
      Signer(Known(), privateKey, round)
    }

    function AllNodeIds(): seq<Id>
      reads this
    {
      Rotation.AllNodes(PeerIds(peers), nodeId)
    }

    predicate IsLeader(height: u64)
      reads this
    {
      Identity().LeaderAt(height) == nodeId
    }

    method PushTxs(txs: seq<Transaction>)
      modifies `pendingTxs
      ensures pendingTxs == old(pendingTxs) + txs
    {
      pendingTxs := pendingTxs + txs;
    }

    /** What waits in the node's own transaction channel, one by one. */
    method CollectPendingTxs(queued: seq<Transaction>)
      modifies `pendingTxs
      ensures pendingTxs == old(pendingTxs) + queued
    {
      for i := 0 to |queued|
        invariant pendingTxs == old(pendingTxs) + queued[..i]
      {
        pendingTxs := pendingTxs + [queued[i]];
      }
      assert queued[..|queued|] == queued;
    }

    method DrainPendingTxs() returns (txs: seq<Transaction>)
      modifies `pendingTxs
      ensures txs == old(pendingTxs) && pendingTxs == []
    {
      txs := pendingTxs;
      pendingTxs := [];
    }

    method RequestViewChange(height: u64) returns (changed: bool)
      modifies `round, `viewChangeVotes
      ensures Tallied(State(), changed) == ViewChange.Request(old(State()), |old(AllNodeIds())|, nodeId, height)
      ensures changed
         <==> 2 * |old(State().Voters(height, NextRound(round))) + {nodeId}| > |old(AllNodeIds())|
    {
      var nextRound := (round + 1) % U32_LIMIT;
      var threshold := |AllNodeIds()| / 2 + 1;
      var entry := if (height, nextRound) in viewChangeVotes then viewChangeVotes[(height, nextRound)] else {};
      entry := entry + {nodeId};
      viewChangeVotes := viewChangeVotes[(height, nextRound) := entry];
      if |entry| >= threshold {
        round := nextRound;
        viewChangeVotes := map k | k in viewChangeVotes && k.0 >= height :: viewChangeVotes[k];
        changed := true;
      } else {
        changed := false;
      }
    }

    method ReceiveViewChange(height: u64, round: u32, from: Id) returns (changed: bool)
      modifies `round, `viewChangeVotes
      ensures Tallied(State(), changed) == ViewChange.Receive(old(State()), |old(AllNodeIds())|, height, round, from)
      ensures changed
         <==> round > old(this.round) && 2 * |old(State().Voters(height, round)) + {from}| > |old(AllNodeIds())|
    {
      var threshold := |AllNodeIds()| / 2 + 1;
      var entry := if (height, round) in viewChangeVotes then viewChangeVotes[(height, round)] else {};
      entry := entry + {from};
      viewChangeVotes := viewChangeVotes[(height, round) := entry];
      if |entry| >= threshold && round > this.round {
        this.round := round;
        viewChangeVotes := map k | k in viewChangeVotes && k.0 >= height :: viewChangeVotes[k];
        changed := true;
      } else {
        changed := false;
      }
    }

    method ResetRound()
      modifies `round, `viewChangeVotes
      ensures State() == INITIAL
    {
      round := 0;
      viewChangeVotes := map[];
    }

    /** A peer is added once, and never oneself: identifiers that are distinct stay distinct. */
    method AddPeer(id: Id, publicKey: Id) returns (added: bool)
      modifies `peers
      ensures added <==> id !in old(Known().Validators())
      ensures peers == if added then old(peers) + [Peer(id, publicKey)] else old(peers)
      ensures Known().Validators() == old(Known().Validators()) + {id}
      ensures old(Rotation.Distinct(PeerIds(peers) + [nodeId])) ==> Rotation.Distinct(PeerIds(peers) + [nodeId])
    {
      if id == nodeId {
        return false;
      }
      if exists i :: 0 <= i < |peers| && peers[i].id == id {
        return false;
      }
      NewPeer(Known(), Peer(id, publicKey));
      peers := peers + [Peer(id, publicKey)];
      added := true;
    }

    method VerifyAndSign(block: Block, expectedPrevHash: Hash) returns (r: Option<NodeSignature>)
      ensures r == if Identity().Accepts(prims, block, expectedPrevHash) then Some(Identity().Sign(prims, block.header))
                   else None
    {
      if block.header.proposer != Identity().LeaderAt(block.header.height) {
        return None;
      }
      if block.header.prevHash != expectedPrevHash {
        return None;
      }
      if |block.signatures| > 0 {
        var proposerSig := block.signatures[0];
        var proposerKey := if proposerSig.nodeId == nodeId then None else Known().PeerKey(proposerSig.nodeId);
        if proposerKey.Some? {
          if !prims.verify(block.header, proposerSig.signature, proposerKey.value) {
            return None;
          }
        }
      } else {
        return None;
      }
      var computedTxHash := prims.TxHash(block.transactions);
      if computedTxHash != block.header.txHash {
        return None;
      }
      r := Some(NodeSignature(nodeId, prims.sign(block.header, privateKey)));
    }

    method VerifyBlockSignature(block: Block, sig: NodeSignature) returns (valid: bool)
      ensures valid <==> Known().Verifies(prims, block.header, sig)
    {
      var pubKey;
      if sig.nodeId == nodeId {
        pubKey := nodeId;
      } else {
        var key := Known().PeerKey(sig.nodeId);
        if key.None? {
          return false;
        }
        pubKey := key.value;
      }
      valid := prims.verify(block.header, sig.signature, pubKey);
    }

    /** The loop over signatures counts each known id with a valid signature once, wherever it stands in the list and
        whatever invalid ones come before it, and every unknown id. */
    method IsFinalized(block: Block) returns (finalized: bool)
      ensures finalized <==> Known().Finalizes(prims, block.header, block.signatures, minSignatures)
    {
      var sigs := block.signatures;
      var uniqueSigners: set<Id> := {};
      for i := 0 to |sigs|
        invariant uniqueSigners == Known().Counted(prims, block.header, sigs[..i])
      {
        var sig := sigs[i];
        CountedStep(Known(), prims, block.header, sigs, i);
        if sig.nodeId in uniqueSigners {
          continue;
        }
        uniqueSigners := uniqueSigners + {sig.nodeId};
        var pubKey;
        if sig.nodeId == nodeId {
          pubKey := nodeId;
        } else {
          var key := Known().PeerKey(sig.nodeId);
          if key.None? {
            continue;
          }
          pubKey := key.value;
        }
        if !prims.verify(block.header, sig.signature, pubKey) {
          uniqueSigners := uniqueSigners - {sig.nodeId};
        }
      }
      assert sigs[..|sigs|] == sigs;
      finalized := |uniqueSigners| >= minSignatures;
    }
  }

  lemma NewPeer(r: Roster, p: Peer)
    requires p.id !in r.Validators()
    ensures Roster(r.self, r.peers + [p]).Validators() == r.Validators() + {p.id}
    ensures Rotation.Distinct(PeerIds(r.peers) + [r.self]) ==> Rotation.Distinct(PeerIds(r.peers + [p]) + [r.self])
  {
    var peers' := r.peers + [p];
    assert peers'[|r.peers|] == p && forall i | 0 <= i < |r.peers| :: peers'[i] == r.peers[i];
    assert forall i | 0 <= i < |r.peers| :: r.peers[i].id in r.Validators();
    if Rotation.Distinct(PeerIds(r.peers) + [r.self]) {
      var ids, ids' := PeerIds(r.peers) + [r.self], PeerIds(peers') + [r.self];
      assert ids[|r.peers|] == r.self;
      forall i, j | 0 <= i < j < |ids'| ensures ids'[i] != ids'[j] {
        assert i < |r.peers| ==> ids'[i] == ids[i];
        assert j < |r.peers| ==> ids'[j] == ids[j];
      }
    }
  }

  lemma CountedStep(r: Roster, prims: Primitives, header: BlockHeader, sigs: seq<NodeSignature>, i: nat)
    requires i < |sigs|
    ensures var s := sigs[i];
            r.Counted(prims, header, sigs[..i + 1])
            == r.Counted(prims, header, sigs[..i])
               + if r.KeyOf(s.nodeId).Some? ==> r.Verifies(prims, header, s) then {s.nodeId} else {}
  {
    assert sigs[..i + 1] == sigs[..i] + [sigs[i]];
  }

  // ── What acceptance says about the proposer ──

  /** The block carries a signature of its proposer that verifies. */
  predicate SignedByProposer(r: Roster, prims: Primitives, block: Block) {
    && block.signatures != []
    && block.signatures[0].nodeId == block.header.proposer
    && r.Verifies(prims, block.header, block.signatures[0])
  }

  /** A block for `height` whose first signature names `first`, on which the follower's checks can be tried. */
  function Claimed(s: Signer, height: u64, first: Id): Block {
    Block(BlockHeader(height, EMPTY_HASH, 0, 0, EMPTY_HASH, EMPTY_HASH, s.LeaderAt(height)), [],
          [NodeSignature(first, 0)])
  }

  function Answering(verdict: bool): Primitives {
    Primitives(_ => verdict, (_, _) => 0, (_, _, _) => verdict, _ => 0, _ => 0, _ => 0)
  }

  /** A follower signs only what its proposer validly signed if and only if the first signature names the leader of that
      height and the leader is a known peer: it is then the one signature that is checked. */
  lemma AcceptsOnlySignedIff(s: Signer, height: u64, first: Id)
    ensures (forall prims: Primitives, block: Block, prevHash: Hash |
               block.header.height == height && block.signatures != [] && block.signatures[0].nodeId == first
               && s.Accepts(prims, block, prevHash) ::
               SignedByProposer(s.roster, prims, block))
       <==> first == s.LeaderAt(height) && s.roster.PeerKey(first).Some?
  {
    hide Signer.Nodes, FirstKey;
    var verdict := s.roster.PeerKey(first).Some?;
    var block := Claimed(s, height, first);
    assert s.Accepts(Answering(verdict), block, EMPTY_HASH);
    if first != s.LeaderAt(height) || !verdict {
      assert !SignedByProposer(s.roster, Answering(verdict), block);
    }
  }

  // ── Nodes that know the same validators ──

  ghost predicate Knows(r: Roster, validators: set<Id>) {
    && Rotation.Distinct(PeerIds(r.peers) + [r.self])
    && r.Validators() == validators
  }

  lemma MembersAreValidators(r: Roster, id: Id)
    ensures id in PeerIds(r.peers) + [r.self] <==> id in r.Validators()
  {
    var ids := PeerIds(r.peers) + [r.self];
    if id in r.Validators() && id != r.self {
      var i :| 0 <= i < |r.peers| && r.peers[i].id == id;
      assert ids[i] == id;
    }
    assert ids[|r.peers|] == r.self;
  }

  /** They take turns alike. */
  lemma SameLeaders(r: Roster, r': Roster, validators: set<Id>, height: u64, round: u32)
    requires Knows(r, validators) && Knows(r', validators)
    ensures var nodes := Rotation.AllNodes(PeerIds(r.peers), r.self);
            var nodes' := Rotation.AllNodes(PeerIds(r'.peers), r'.self);
            nodes == nodes' && Rotation.Leader(nodes, height, round) == Rotation.Leader(nodes', height, round)
  {
    var ids, ids' := PeerIds(r.peers) + [r.self], PeerIds(r'.peers) + [r'.self];
    forall id ensures id in ids <==> id in ids' {
      MembersAreValidators(r, id);
      MembersAreValidators(r', id);
    }
    Rotation.LeaderIgnoresView(PeerIds(r.peers), r.self, PeerIds(r'.peers), r'.self, height, round);
  }

  /** Once they have heard the same votes at one height, in whatever order and however often, they name the same
      leader. */
  lemma SameVotesSameLeader(r: Roster, r': Roster, validators: set<Id>, privateKey: Id, privateKey': Id, height: u64,
                            ds: seq<Delivery>, ds': seq<Delivery>)
    requires Knows(r, validators) && Knows(r', validators)
    requires forall d :: d in ds <==> d in ds'
    ensures Signer(r, privateKey, Deliver(|r.peers| + 1, height, ds).round).LeaderAt(height)
         == Signer(r', privateKey', Deliver(|r'.peers| + 1, height, ds').round).LeaderAt(height)
  {
    hide Deliver, Knows;
    var round := Deliver(|r.peers| + 1, height, ds).round;
    SameLeaders(r, r', validators, height, round);
    DeliveriesCommute(|r.peers| + 1, height, ds, ds');
  }
}
