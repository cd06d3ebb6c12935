/** Which signatures count towards finalizing a block, and why two quorums share a signer. */
module Quorum {
  import opened Sets
  import opened Types

  datatype Peer = Peer(id: Id, publicKey: Id)

  /** Who a node is and whom it knows. */
  datatype Roster = Roster(self: Id, peers: seq<Peer>) {
    /** `get_peer_key`: the first peer with that id, and never oneself. */
    function PeerKey(id: Id): Option<Id> {
      if id == self then None else FirstKey(peers, id)
    }

    /** A node's own key is its id. */
    function KeyOf(id: Id): Option<Id> {
      if id == self then Some(self) else FirstKey(peers, id)
    }

    predicate Verifies(prims: Primitives, header: BlockHeader, s: NodeSignature) {
      KeyOf(s.nodeId).Some? && prims.verify(header, s.signature, KeyOf(s.nodeId).value)
    }

    /** Oneself and the peers. */
    function Validators(): set<Id> {
      {self} + set i | 0 <= i < |peers| :: peers[i].id
    }

    /** What `is_finalized` counts: known ids with at least one valid signature, and every unknown id. */
    function Counted(prims: Primitives, header: BlockHeader, sigs: seq<NodeSignature>): set<Id> {
      set s | s in sigs && (KeyOf(s.nodeId).Some? ==> Verifies(prims, header, s)) :: s.nodeId
    }

    predicate Finalizes(prims: Primitives, header: BlockHeader, sigs: seq<NodeSignature>, min: nat) {
      |Counted(prims, header, sigs)| >= min
    }

    predicate AllVerify(prims: Primitives, header: BlockHeader, sigs: seq<NodeSignature>) {
      forall s | s in sigs :: Verifies(prims, header, s)
    }
  }

  function FirstKey(peers: seq<Peer>, id: Id): Option<Id> {
    if peers == [] then None else if peers[0].id == id then Some(peers[0].publicKey) else FirstKey(peers[1..], id)
  }

  lemma {:induction false} KnownIffPeer(peers: seq<Peer>, id: Id)
    ensures FirstKey(peers, id).Some? <==> exists i :: 0 <= i < |peers| && peers[i].id == id
  {
    if peers != [] && peers[0].id != id {
      KnownIffPeer(peers[1..], id);
      assert forall i | 0 < i < |peers| :: peers[i] == peers[1..][i - 1];
    }
  }

  lemma KnownIffValidator(r: Roster, id: Id)
    ensures r.KeyOf(id).Some? <==> id in r.Validators()
  {
    KnownIffPeer(r.peers, id);
  }

  /** When every signature was verified on arrival, the count is that of distinct validators that signed. */
  lemma VerifiedSignersCount(r: Roster, prims: Primitives, header: BlockHeader, sigs: seq<NodeSignature>)
    requires r.AllVerify(prims, header, sigs)
    ensures r.Counted(prims, header, sigs) == (set s | s in sigs :: s.nodeId) <= r.Validators()
  {
    forall s | s in sigs ensures s.nodeId in r.Validators() {
      KnownIffValidator(r, s.nodeId);
    }
  }

  /** Without that, ids the node does not know are counted too, their signatures unchecked. */
  lemma CountSplits(r: Roster, prims: Primitives, header: BlockHeader, sigs: seq<NodeSignature>)
    ensures var known := set s | s in sigs && r.Verifies(prims, header, s) :: s.nodeId;
            var unknown := set s | s in sigs && r.KeyOf(s.nodeId).None? :: s.nodeId;
            && known <= r.Validators() && unknown * r.Validators() == {}
            && |r.Counted(prims, header, sigs)| == |known| + |unknown|
  {
    var known := set s | s in sigs && r.Verifies(prims, header, s) :: s.nodeId;
    var unknown := set s | s in sigs && r.KeyOf(s.nodeId).None? :: s.nodeId;
    forall id ensures r.KeyOf(id).Some? <==> id in r.Validators() {
      KnownIffValidator(r, id);
    }
    assert r.Counted(prims, header, sigs) == known + unknown;
    assert known * unknown == {};
  }

  // ── Intersection ──

  ghost predicate QuorumsMeet(validators: set<Id>, min: nat) {
    forall a: set<Id>, b: set<Id> | a <= validators && b <= validators && |a| >= min && |b| >= min :: a * b != {}
  }

  /** Any two quorums of `min` validators share one, if and only if twice `min` exceeds their number. */
  lemma QuorumsMeetIff(validators: set<Id>, min: nat)
    ensures QuorumsMeet(validators, min) <==> 2 * min > |validators|
  {
    if 2 * min > |validators| {
      forall a: set<Id>, b: set<Id> | a <= validators && b <= validators && |a| >= min && |b| >= min
        ensures a * b != {} {
        SubsetSize(a + b, validators);
        assert |a + b| == |a| + |b| - |a * b|;
      }
    } else {
      var a := SubsetOfSize(validators, min);
      var b := validators - a;
      assert |b| == |validators| - min && a * b == {};
    }
  }

  /** Two blocks finalized from verified signatures by nodes that know the same validators share a signer. */
  lemma FinalizedBlocksShareSigner(prims: Primitives, r: Roster, header: BlockHeader, sigs: seq<NodeSignature>,
                                   r': Roster, header': BlockHeader, sigs': seq<NodeSignature>, min: nat)
    returns (id: Id)
    requires r.Validators() == r'.Validators() && 2 * min > |r.Validators()|
    requires r.AllVerify(prims, header, sigs) && r.Finalizes(prims, header, sigs, min)
    requires r'.AllVerify(prims, header', sigs') && r'.Finalizes(prims, header', sigs', min)
    ensures exists s, s' :: s in sigs && s' in sigs' && s.nodeId == s'.nodeId == id
                            && r.Verifies(prims, header, s) && r'.Verifies(prims, header', s')
  {
    VerifiedSignersCount(r, prims, header, sigs);
    VerifiedSignersCount(r', prims, header', sigs');
    QuorumsMeetIff(r.Validators(), min);
    var a, b := r.Counted(prims, header, sigs), r'.Counted(prims, header', sigs');
    assert a * b != {};
    id :| id in a * b;
  }
}
