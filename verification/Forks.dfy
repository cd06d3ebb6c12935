/** Why agreement needs its assumptions: three nodes, two of them enough to finalize, any state root that is stated and
    honest signatures throughout. One participant joins at height 1 and updates its record twice after that, and since
    an update overwrites the one before, a node that missed the first one still reproduces the root of the second. */
module Forks {
  import opened Types
  import opened Chain
  import opened Consensus
  import opened Protocol
  import opened Quorum
  import opened Sets
  import Agreement
  import History
  import Rotation
  import Rules
  import ViewChange

  /** Hashes and signatures, the nodes' keys, and the three transactions of one participant. */
  datatype World = World(
    prims: Primitives, keys: Id -> Id, joining: Transaction, first: Transaction, second: Transaction)

  /** Every root is stated, keys match, and the transactions are signed and numbered in order. */
  ghost predicate Honest(w: World) {
    && (forall l: Ledger :: w.prims.stateRoot(l) != EMPTY_HASH)
    && (forall header, id: Id :: w.prims.verify(header, w.prims.sign(header, w.keys(id)), id))
    && w.prims.verifyTx(w.joining) && w.prims.verifyTx(w.first) && w.prims.verifyTx(w.second)
    && w.joining.payload == RegisterParticipant(w.joining.sender, Buyer, []) && w.joining.nonce == 1
    && IsUpdate(w.first, w.joining.sender, 2) && IsUpdate(w.second, w.joining.sender, 3)
  }

  /** Such worlds exist. */
  lemma HonestWorldExists()
    ensures exists w: World :: Honest(w)
  {
    var prims := Primitives(_ => true, (_, _) => 0, (_, _, _) => true, _ => 0, _ => 0, _ => 1);
    var joining := Transaction(RegisterParticipant(7, Buyer, []), 7, 0, 0, 1);
    var first := Transaction(UpdateParticipant(7, [1]), 7, 0, 0, 2);
    var second := Transaction(UpdateParticipant(7, [2]), 7, 0, 0, 3);
    assert Honest(World(prims, id => id, joining, first, second));
  }

  predicate IsUpdate(tx: Transaction, who: Id, nonce: u64) {
    tx.payload.UpdateParticipant? && tx.payload.id == who && tx.sender == who && tx.nonce == nonce
  }

  const CONFIG: Config := Config(0, 0, 0, 0, 3, [])
  const ROOT: Block := Block(BlockHeader(0, 0, 0, 0, 0, 0, 0), [], [])

  function Rules3(w: World): Settings {
    Settings(w.prims, CONFIG, 1000, 10000, true)
  }

  // ── Three nodes ──

  function RosterOf(self: Id): Roster
    requires self < 3
  {
    Roster(self, if self == 0 then [Peer(1, 1), Peer(2, 2)] else if self == 1 then [Peer(0, 0), Peer(2, 2)]
                 else [Peer(0, 0), Peer(1, 1)])
  }

  function Fresh(w: World, self: Id): NodeState
    requires self < 3
  {
    NodeState(RosterOf(self), w.keys(self), 2, ViewChange.INITIAL, [], History.GENESIS, map[0 := ROOT], Some(0), None,
              0)
  }

  /** One of the three nodes. */
  predicate Member(w: World, s: NodeState, self: Id) {
    self < 3 && s.roster == RosterOf(self) && s.privateKey == w.keys(self) && s.minSignatures == 2
  }

  lemma InOrder(ids: seq<Id>)
    requires multiset(ids) == multiset{0, 1, 2}
    ensures Rotation.Sort(ids) == [0, 1, 2]
  {
    Rotation.SortSorted(ids);
    hide Rotation.Sort;
    Rotation.SortedUnique(Rotation.Sort(ids), [0, 1, 2]);
  }

  lemma AllThree(self: Id)
    requires self < 3
    ensures multiset(PeerIds(RosterOf(self).peers) + [self]) == multiset{0, 1, 2}
  {
    var ids := PeerIds(RosterOf(self).peers) + [self];
    assert ids == if self == 0 then [1, 2, 0] else if self == 1 then [0, 2, 1] else [0, 1, 2];
  }

  lemma NodesOfThree(self: Id)
    requires self < 3
    ensures RosterOf(self).self == self
    ensures Rotation.AllNodes(PeerIds(RosterOf(self).peers), self) == [0, 1, 2]
  {
    AllThree(self);
    hide Rotation.Sort, PeerIds;
    InOrder(PeerIds(RosterOf(self).peers) + [self]);
  }

  lemma TurnOfThree(height: u64, round: u32)
    requires height <= 2 && round <= 1
    ensures Rotation.Turn(height, round, 3) == (height + round) % 3
  {
  }

  /** They take turns by number. */
  lemma Turns(w: World, s: NodeState, self: Id, height: u64)
    requires Member(w, s, self) && s.view.round <= 1 && height <= 2
    ensures s.Identity().LeaderAt(height) == (height + s.view.round) % 3
  {
    NodesOfThree(self);
    hide Rotation.AllNodes, Rotation.Turn, PeerIds, RosterOf;
    assert s.Identity().Nodes() == [0, 1, 2];
    TurnOfThree(height, s.view.round);
  }

  lemma KnowEachOther(self: Id, other: Id)
    requires self < 3 && other < 3 && self != other
    ensures RosterOf(self).PeerKey(other) == RosterOf(self).KeyOf(other) == Some(other)
  {
    var peers := RosterOf(self).peers;
    assert peers[1..][0] == peers[1];
    assert FirstKey(peers[1..], other) == if peers[1].id == other then Some(other)
                                          else FirstKey(peers[1..][1..], other);
  }

  lemma MemberKeys(w: World, s: NodeState, self: Id)
    requires Honest(w) && Member(w, s, self)
    ensures KeysMatch(w.prims, s)
  {
  }

  // ── Executing the three transactions ──

  function Executed(l: Ledger, tx: Transaction, now: i64): Ledger {
    Rules.Execute(CONFIG, l, tx, now).ledger
  }

  predicate Succeeds(l: Ledger, tx: Transaction, now: i64) {
    Rules.Execute(CONFIG, l, tx, now).result.Ok?
  }

  lemma Joins(w: World, now: i64)
    requires Honest(w)
    ensures Succeeds(History.GENESIS, w.joining, now)
    ensures var l := Executed(History.GENESIS, w.joining, now);
            w.joining.sender in l.tables.participants && l.Nonce(w.joining.sender) == 1
  {
  }

  lemma Updates(l: Ledger, tx: Transaction, who: Id, nonce: u64, now: i64)
    requires IsUpdate(tx, who, nonce) && who in l.tables.participants && l.Nonce(who) < nonce
    ensures Succeeds(l, tx, now)
    ensures var l' := Executed(l, tx, now); who in l'.tables.participants && l'.Nonce(who) == nonce
  {
  }

  /** An update overwrites the one before it, nonce included. */
  lemma UpdatesOverwrite(l: Ledger, a: Transaction, b: Transaction, who: Id, early: i64, late: i64)
    requires IsUpdate(a, who, 2) && IsUpdate(b, who, 3) && who in l.tables.participants && l.Nonce(who) < 2
    ensures Executed(Executed(l, a, early), b, late) == Executed(l, b, late)
  {
    var l1 := Executed(l, a, early);
    assert l1.nonces == l.nonces[who := 2];
    assert l1.nonces[who := 3] == l.nonces[who := 3];
    var p, q := Executed(l1, b, late).tables.participants, Executed(l, b, late).tables.participants;
    assert p == q;
  }

  lemma OneByOne(w: World, l: Ledger, tx: Transaction, now: i64)
    requires w.prims.verifyTx(tx)
    ensures Rules.Replay(w.prims, CONFIG, l, [tx], now).ledger == Executed(l, tx, now)
    ensures Succeeds(l, tx, now) ==>
              var led := Rules.Lead(CONFIG, l, [tx], now); led.kept == [tx] && led.ledger == Executed(l, tx, now)
  {
    hide Rules.Execute;
    assert [tx][..0] == [] && [] + [tx] == [tx];
    assert Rules.Replay(w.prims, CONFIG, l, [], now).ledger == l;
    assert Rules.Lead(CONFIG, l, [], now) == Rules.Led(l, [], []);
  }

  // ── Proposing and following ──

  /** The chain of `s` ends at height `h` in this header. */
  predicate EndsAt(s: NodeState, h: u64, header: BlockHeader) {
    && s.latest == Some(h) && h < MAX_U64 && h in s.blocks && s.blocks[h].header == header && h + 1 !in s.blocks
  }

  /** The block that a leader in state `s` makes of `tx`. */
  function Offer(w: World, s: NodeState, tip: BlockHeader, tx: Transaction, now: i64): Block {
    NewBlock(Rules3(w), s.(ledger := Executed(s.ledger, tx, now)), s.NextHeight(), w.prims.hashHeader(tip), [tx], now)
  }

  /** One signature is not enough: the block is left pending. */
  lemma OfferPends(w: World, s: NodeState, self: Id, tip: BlockHeader, tx: Transaction, now: i64)
    requires Honest(w) && Member(w, s, self)
    ensures var s' := s.(pool := [], ledger := Executed(s.ledger, tx, now));
            var b := Offer(w, s, tip, tx, now);
            Publish(Rules3(w), s', b, now) == s'.(pending := Some(b))
  {
    assert s.roster.peers != [];
    MemberKeys(w, s, self);
    var b := Offer(w, s, tip, tx, now);
    assert b.signatures == [s.Identity().Sign(w.prims, b.header)];
    hide Honest, Executed, KeysMatch, RosterOf, Signer.Sign, Roster.Finalizes, Offer;
    OwnSignatureCounts(w.prims, s, b.header);
  }

  lemma LeaderProposes(w: World, s: NodeState, self: Id, h: u64, tip: BlockHeader, tx: Transaction, now: i64)
    requires Honest(w) && Member(w, s, self) && EndsAt(s, h, tip) && s.pending.None? && s.pool == [tx]
    requires s.Identity().LeaderAt(h + 1) == self && w.prims.verifyTx(tx) && Succeeds(s.ledger, tx, now)
    ensures Produce(Rules3(w), s, now)
         == Produced(s.(pool := [], ledger := Executed(s.ledger, tx, now), pending := Some(Offer(w, s, tip, tx, now))),
                     Some(Offer(w, s, tip, tx, now)))
  {
    assert s.roster.self == self;
    hide Honest, Rules.Lead, Executed, Succeeds, Member, Publish, RosterOf, Signer.LeaderAt, Produce, NewBlock;
    OneByOne(w, s.ledger, tx, now);
    LeaderMakes(Rules3(w), s, now);
    NewBlockIgnoresPool(Rules3(w), s.(ledger := Executed(s.ledger, tx, now)), h + 1, w.prims.hashHeader(tip), [tx],
                        now);
    OfferPends(w, s, self, tip, tx, now);
  }

  /** Production in the case that makes a block. */
  lemma LeaderMakes(st: Settings, s: NodeState, now: i64)
    requires s.pending.None? && s.latest.Some? && s.latest.value < MAX_U64 && s.latest.value in s.blocks
    requires s.Identity().LeaderAt(s.latest.value + 1) == s.roster.self && s.pool != []
    requires Rules.Lead(st.config, s.ledger, s.pool, now).kept != []
    ensures var led := Rules.Lead(st.config, s.ledger, s.pool, now);
            var s' := s.(pool := [], ledger := led.ledger);
            var tip := s.blocks[s.latest.value].header;
            var b := NewBlock(st, s', s.latest.value + 1, st.prims.hashHeader(tip), led.kept, now);
            Produce(st, s, now) == Produced(Publish(st, s', b, now), Some(b))
  {
    hide Rules.Lead, NewBlock, Publish, Signer.LeaderAt;
  }

  lemma NewBlockIgnoresPool(st: Settings, s: NodeState, height: u64, prevHash: Hash, txs: seq<Transaction>, now: i64)
    ensures NewBlock(st, s.(pool := []), height, prevHash, txs, now) == NewBlock(st, s, height, prevHash, txs, now)
  {
  }

  /** Another node at the same tip stores it, and answers with its signature, if the transaction leads it to the same
      ledger. */
  lemma FollowerStores(w: World, s: NodeState, self: Id, leader: NodeState, other: Id, h: u64, tip: BlockHeader,
                       tx: Transaction, now: i64)
    requires Honest(w) && Member(w, s, self) && Member(w, leader, other) && self != other
    requires EndsAt(s, h, tip) && EndsAt(leader, h, tip) && s.Identity().LeaderAt(h + 1) == other
    requires w.prims.verifyTx(tx) && Executed(s.ledger, tx, now) == Executed(leader.ledger, tx, now)
    ensures var b := Offer(w, leader, tip, tx, now);
            HandleProposal(Rules3(w), s, b)
            == Handled(s.(ledger := Executed(s.ledger, tx, now)).Put(b), Some(s.Identity().Sign(w.prims, b.header)))
  {
    OneByOne(w, s.ledger, tx, now);
    KnowEachOther(self, other);
    var b := Offer(w, leader, tip, tx, now);
    assert w.prims.verify(b.header, b.signatures[0].signature, other);
    assert w.prims.stateRoot(Executed(s.ledger, tx, now)) == b.header.stateRoot;
    hide Executed, Rules.Replay, Signer.LeaderAt, RosterOf, FirstKey;
  }

  /** The node receives a transaction and leads. */
  function Offering(w: World, s: NodeState, tx: Transaction, now: i64): NodeState {
    Act(Rules3(w), Act(Rules3(w), s, Feeds([tx])), Leads(now))
  }

  lemma Offers(w: World, s: NodeState, self: Id, h: u64, tip: BlockHeader, tx: Transaction, now: i64)
    requires Honest(w) && Member(w, s, self) && EndsAt(s, h, tip) && s.pending.None? && s.pool == []
    requires s.Identity().LeaderAt(h + 1) == self && w.prims.verifyTx(tx) && Succeeds(s.ledger, tx, now)
    ensures Offering(w, s, tx, now)
         == s.(ledger := Executed(s.ledger, tx, now), pending := Some(Offer(w, s, tip, tx, now)))
  {
    hide Honest, Executed, Succeeds, Produce, RosterOf, Signer.LeaderAt, Offer;
    assert [] + [tx] == [tx];
    var s' := s.(pool := [tx]);
    assert s'.Identity() == s.Identity();
    LeaderProposes(w, s', self, h, tip, tx, now);
    OfferIgnoresPool(w, s, tip, tx, now);
  }

  lemma OfferIgnoresPool(w: World, s: NodeState, tip: BlockHeader, tx: Transaction, now: i64)
    ensures Offer(w, s.(pool := [tx]), tip, tx, now) == Offer(w, s, tip, tx, now)
    ensures var b := Offer(w, s, tip, tx, now);
            && b.header.height == s.NextHeight() && b.header.timestamp == now && b.transactions == [tx]
            && b.signatures == [s.Identity().Sign(w.prims, b.header)]
  {
  }

  /** A pending block with its maker's signature and another node's is final. */
  lemma TwoSignaturesFinalize(w: World, s: NodeState, self: Id, header: BlockHeader, other: Id)
    requires Honest(w) && Member(w, s, self) && other < 3 && other != self
    ensures var sig := NodeSignature(other, w.prims.sign(header, w.keys(other)));
            && s.roster.Verifies(w.prims, header, sig)
            && s.roster.Finalizes(w.prims, header, [s.Identity().Sign(w.prims, header), sig], 2)
  {
    KnowEachOther(self, other);
    var own, sig := s.Identity().Sign(w.prims, header), NodeSignature(other, w.prims.sign(header, w.keys(other)));
    assert w.prims.verify(header, own.signature, self) && w.prims.verify(header, sig.signature, other);
    hide FirstKey, RosterOf;
    var counted := s.roster.Counted(w.prims, header, [own, sig]);
    assert own in [own, sig] && sig in [own, sig];
    assert {self, other} <= counted;
    SubsetSize({self, other}, counted);
  }

  /** Collecting that signature and finalizing stores the pending block. */
  lemma PendingIsStored(w: World, s: NodeState, self: Id, b: Block, other: Id, now: i64)
    requires Honest(w) && Member(w, s, self) && other < 3 && other != self
    requires s.pending == Some(b) && b.signatures == [s.Identity().Sign(w.prims, b.header)]
    ensures var sig := NodeSignature(other, w.prims.sign(b.header, w.keys(other)));
            var b' := b.(signatures := b.signatures + [sig]);
            Act(Rules3(w), Act(Rules3(w), s, Collects(b.header.height, sig)), Completes(now))
            == s.Put(b').(pending := None, view := ViewChange.INITIAL, lastBlockTime := now)
  {
    TwoSignaturesFinalize(w, s, self, b.header, other);
    hide Honest, RosterOf, Roster.Finalizes, Roster.Verifies, Signer.Sign;
    var sig := NodeSignature(other, w.prims.sign(b.header, w.keys(other)));
    assert b.signatures + [sig] == [s.Identity().Sign(w.prims, b.header), sig];
  }

  /** Without it, the pending block is discarded two seconds on. */
  lemma PendingIsDiscarded(w: World, s: NodeState, self: Id, b: Block, now: i64)
    requires Honest(w) && Member(w, s, self) && now - b.header.timestamp > 2000
    requires s.pending == Some(b) && b.signatures == [s.Identity().Sign(w.prims, b.header)]
    ensures TimesOut(Rules3(w), s, now)
    ensures Act(Rules3(w), s, Completes(now)) == s.(pending := None)
  {
    MemberKeys(w, s, self);
    OwnSignatureCounts(w.prims, s, b.header);
    hide Honest, RosterOf, Roster.Finalizes, Signer.Sign, KeysMatch;
  }

  // ── Height 1, agreed by all ──

  function Opening(w: World): Block {
    Offer(w, Fresh(w, 1), ROOT.header, w.joining, 0)
  }

  function Opened(w: World): Ledger {
    Executed(History.GENESIS, w.joining, 0)
  }

  /** Node 1 proposes the opening block, and with node 0's signature finalizes it; the others follow. */
  function Joined(w: World, self: Id): NodeState
    requires self < 3
  {
    if self != 1 then Act(Rules3(w), Fresh(w, self), Follows(Opening(w)))
    else
      var proposed := Offering(w, Fresh(w, 1), w.joining, 0);
      var signed := Act(Rules3(w), proposed, Collects(1, Fresh(w, 0).Identity().Sign(w.prims, Opening(w).header)));
      Act(Rules3(w), signed, Completes(1))
  }

  /** All three nodes after height 1. */
  ghost predicate AfterJoining(w: World, s: NodeState, self: Id) {
    && Member(w, s, self) && s.view == ViewChange.INITIAL && s.pool == [] && s.pending.None? && s.lastBlockTime <= 1
    && EndsAt(s, 1, Opening(w).header) && s.ledger == Opened(w)
  }

  lemma FreshIsMember(w: World, self: Id)
    requires self < 3
    ensures Member(w, Fresh(w, self), self) && EndsAt(Fresh(w, self), 0, ROOT.header)
  {
  }

  lemma HonestSigned(w: World)
    requires Honest(w)
    ensures w.prims.verifyTx(w.joining) && w.prims.verifyTx(w.first) && w.prims.verifyTx(w.second)
    ensures IsUpdate(w.first, w.joining.sender, 2) && IsUpdate(w.second, w.joining.sender, 3)
  {
  }

  lemma StoredOpening(w: World, s: NodeState, self: Id, b: Block)
    requires Member(w, s, self) && s.view == ViewChange.INITIAL && s.pool == [] && s.pending.None?
    requires s.lastBlockTime <= 1
    requires s.blocks == map[0 := ROOT] && b.header == Opening(w).header && s.ledger == Opened(w)
    ensures AfterJoining(w, s.Put(b), self)
  {
    hide Executed, RosterOf;
    assert b.header.height == 1;
  }

  lemma FollowersJoin(w: World, self: Id)
    requires Honest(w) && self < 3 && self != 1
    ensures AfterJoining(w, Joined(w, self), self)
  {
    hide Honest, Executed, HandleProposal, RosterOf, Signer.LeaderAt, Offer, EndsAt;
    HonestSigned(w);
    var s, leader := Fresh(w, self), Fresh(w, 1);
    FreshIsMember(w, self);
    FreshIsMember(w, 1);
    Turns(w, s, self, 1);
    FollowerStores(w, s, self, leader, 1, 0, ROOT.header, w.joining, 0);
    StoredOpening(w, s.(ledger := Opened(w)), self, Opening(w));
  }

  lemma OpeningOffered(w: World)
    requires Honest(w)
    ensures Offering(w, Fresh(w, 1), w.joining, 0) == Fresh(w, 1).(ledger := Opened(w), pending := Some(Opening(w)))
  {
    HonestSigned(w);
    Joins(w, 0);
    hide Honest, Executed, Succeeds, Offering, RosterOf, Signer.LeaderAt, Offer;
    FreshIsMember(w, 1);
    Turns(w, Fresh(w, 1), 1, 1);
    Offers(w, Fresh(w, 1), 1, 0, ROOT.header, w.joining, 0);
  }

  lemma LeaderJoins(w: World)
    requires Honest(w)
    ensures AfterJoining(w, Joined(w, 1), 1)
  {
    OpeningOffered(w);
    FreshIsMember(w, 1);
    OfferIgnoresPool(w, Fresh(w, 1), ROOT.header, w.joining, 0);
    var s := Fresh(w, 1).(ledger := Opened(w), pending := Some(Opening(w)));
    var sig := Fresh(w, 0).Identity().Sign(w.prims, Opening(w).header);
    assert sig == NodeSignature(0, w.prims.sign(Opening(w).header, w.keys(0)));
    hide Executed, Offering, RosterOf, Offer, Collect, FinalizePending, Honest;
    PendingIsStored(w, s, 1, Opening(w), 0, 1);
    var b := Opening(w).(signatures := Opening(w).signatures + [sig]);
    StoredOpening(w, s.(pending := None, lastBlockTime := 1), 1, b);
  }

  lemma AllJoin(w: World, self: Id)
    requires Honest(w) && self < 3
    ensures AfterJoining(w, Joined(w, self), self)
  {
    hide Joined, AfterJoining;
    if self == 1 {
      LeaderJoins(w);
    } else {
      FollowersJoin(w, self);
    }
  }

  /** Node 2 offers the first update, then, unless it hears otherwise, the second. */
  lemma UpdatesSucceed(w: World, early: i64, late: i64)
    requires Honest(w)
    ensures Succeeds(Opened(w), w.first, early) && Succeeds(Opened(w), w.second, late)
    ensures Succeeds(Executed(Opened(w), w.first, early), w.second, late)
    ensures Executed(Executed(Opened(w), w.first, early), w.second, late) == Executed(Opened(w), w.second, late)
  {
    HonestSigned(w);
    Joins(w, 0);
    hide Honest, Executed, Succeeds, IsUpdate;
    Updates(Opened(w), w.first, w.joining.sender, 2, early);
    Updates(Opened(w), w.second, w.joining.sender, 3, late);
    Updates(Executed(Opened(w), w.first, early), w.second, w.joining.sender, 3, late);
    UpdatesOverwrite(Opened(w), w.first, w.second, w.joining.sender, early, late);
  }

  // ── A discarded proposal at height 2 ──

  function Offered(w: World, now: i64): Block {
    Offer(w, Joined(w, 2), Opening(w).header, w.first, now)
  }

  lemma FirstOffer(w: World, now: i64)
    requires Honest(w)
    ensures Offering(w, Joined(w, 2), w.first, now)
         == Joined(w, 2).(ledger := Executed(Opened(w), w.first, now), pending := Some(Offered(w, now)))
  {
    hide Honest, Executed, Succeeds, Offering, RosterOf, Offer, Joined, Opening, Opened, IsUpdate, EndsAt, Member,
         Signer.LeaderAt;
    HonestSigned(w);
    UpdatesSucceed(w, now, now);
    AllJoin(w, 2);
    Turns(w, Joined(w, 2), 2, 2);
    Offers(w, Joined(w, 2), 2, 1, Opening(w).header, w.first, now);
  }

  /** Node 2 after waiting too long for signatures. */
  function Discarding(w: World): NodeState {
    Act(Rules3(w), Offering(w, Joined(w, 2), w.first, 10), Completes(5000))
  }

  lemma FirstDiscarded(w: World)
    requires Honest(w)
    ensures TimesOut(Rules3(w), Offering(w, Joined(w, 2), w.first, 10), 5000)
    ensures Discarding(w) == Joined(w, 2).(ledger := Executed(Opened(w), w.first, 10))
  {
    FirstOffer(w, 10);
    AllJoin(w, 2);
    OfferIgnoresPool(w, Joined(w, 2), Opening(w).header, w.first, 10);
    hide Honest, Executed, Offering, RosterOf, Offer, Joined, Opening, FinalizePending, TimesOut;
    PendingIsDiscarded(w, Offering(w, Joined(w, 2), w.first, 10), 2, Offered(w, 10), 5000);
  }

  lemma DiscardingStillJoined(w: World)
    requires Honest(w)
    ensures Member(w, Discarding(w), 2) && EndsAt(Discarding(w), 1, Opening(w).header)
    ensures Executed(Discarding(w).ledger, w.second, 5000) == Executed(Opened(w), w.second, 5000)
  {
    FirstDiscarded(w);
    UpdatesSucceed(w, 10, 5000);
    AllJoin(w, 2);
    hide Honest, Executed, Succeeds, RosterOf, Offer, Joined, Opening, Discarding, TimesOut;
  }

  function OfferedAgain(w: World): Block {
    Offer(w, Discarding(w), Opening(w).header, w.second, 5000)
  }

  lemma SecondOffer(w: World)
    requires Honest(w)
    ensures Offering(w, Discarding(w), w.second, 5000).pending == Some(OfferedAgain(w))
  {
    hide Honest, Executed, Succeeds, Offering, RosterOf, Offer, Joined, Opening, Opened, Discarding, IsUpdate, EndsAt,
         Member, Signer.LeaderAt, TimesOut, Rules3;
    HonestSigned(w);
    UpdatesSucceed(w, 10, 5000);
    AllJoin(w, 2);
    FirstDiscarded(w);
    DiscardingStillJoined(w);
    Turns(w, Discarding(w), 2, 2);
    Offers(w, Discarding(w), 2, 1, Opening(w).header, w.second, 5000);
  }

  /** A node at the opening block stores the offer of the node whose turn it takes height 2 to be, and signs it. */
  lemma OfferStored(w: World, s: NodeState, self: Id, leader: NodeState, other: Id, tip: BlockHeader, tx: Transaction,
                    now: i64)
    requires Honest(w) && Member(w, s, self) && Member(w, leader, other) && self != other
    requires EndsAt(s, 1, tip) && EndsAt(leader, 1, tip) && s.view.round <= 1 && (2 + s.view.round) % 3 == other
    requires w.prims.verifyTx(tx) && Executed(s.ledger, tx, now) == Executed(leader.ledger, tx, now)
    ensures var b := Offer(w, leader, tip, tx, now);
            var h := HandleProposal(Rules3(w), s, b);
            && h.state == s.(ledger := Executed(s.ledger, tx, now)).Put(b)
            && Lookup(h.state.blocks, 2) == Some(b)
            && h.reply == Some(NodeSignature(self, w.prims.sign(b.header, w.keys(self))))
  {
    Turns(w, s, self, 2);
    OfferIgnoresPool(w, leader, tip, tx, now);
    hide Honest, Executed, HandleProposal, RosterOf, Signer.LeaderAt, Offer;
    FollowerStores(w, s, self, leader, other, 1, tip, tx, now);
  }

  lemma FirstStored(w: World, self: Id, s: NodeState, now: i64)
    requires Honest(w) && self < 2 && Member(w, s, self) && s.view.round == 0
    requires EndsAt(s, 1, Opening(w).header) && s.ledger == Opened(w)
    ensures var h := HandleProposal(Rules3(w), s, Offered(w, now));
            && Lookup(h.state.blocks, 2) == Some(Offered(w, now))
            && h.reply == Some(NodeSignature(self, w.prims.sign(Offered(w, now).header, w.keys(self))))
  {
    HonestSigned(w);
    AllJoin(w, 2);
    hide Honest, Executed, HandleProposal, RosterOf, Offer, Joined, Opening, IsUpdate, EndsAt, Member;
    OfferStored(w, s, self, Joined(w, 2), 2, Opening(w).header, w.first, now);
  }

  lemma SecondStored(w: World)
    requires Honest(w)
    ensures Lookup(HandleProposal(Rules3(w), Joined(w, 1), OfferedAgain(w)).state.blocks, 2) == Some(OfferedAgain(w))
  {
    hide Honest, Executed, HandleProposal, RosterOf, Offer, Joined, Opening, Opened, Discarding, IsUpdate, EndsAt,
         Member, NodeState.Put, Rules3;
    HonestSigned(w);
    AllJoin(w, 1);
    DiscardingStillJoined(w);
    OfferStored(w, Joined(w, 1), 1, Discarding(w), 2, Opening(w).header, w.second, 5000);
  }

  lemma OffersDiffer(w: World)
    requires Honest(w)
    ensures !Agreement.SameContent(Offered(w, 10), OfferedAgain(w))
  {
    OfferIgnoresPool(w, Joined(w, 2), Opening(w).header, w.first, 10);
    OfferIgnoresPool(w, Discarding(w), Opening(w).header, w.second, 5000);
    HonestSigned(w);
    hide Honest, Offer, Joined, Opening, Discarding;
    assert [w.first][0] != [w.second][0];
  }

  /** Node 2 proposes one block for height 2, which node 0 stores; it discards it when no signature arrives in time, and
      proposes another, which node 1 stores. Both pass the root check. */
  lemma DiscardingForks(w: World)
    requires Honest(w)
    ensures Offering(w, Joined(w, 2), w.first, 10).pending == Some(Offered(w, 10))
    ensures TimesOut(Rules3(w), Offering(w, Joined(w, 2), w.first, 10), 5000)
    ensures Offering(w, Discarding(w), w.second, 5000).pending == Some(OfferedAgain(w))
    ensures Lookup(HandleProposal(Rules3(w), Joined(w, 0), Offered(w, 10)).state.blocks, 2) == Some(Offered(w, 10))
    ensures Lookup(HandleProposal(Rules3(w), Joined(w, 1), OfferedAgain(w)).state.blocks, 2) == Some(OfferedAgain(w))
    ensures !Agreement.SameContent(Offered(w, 10), OfferedAgain(w))
  {
    AllJoin(w, 0);
    hide Honest, Offering, Offered, OfferedAgain, Joined, Opening, Opened, Discarding, HandleProposal, TimesOut,
         EndsAt, Member;
    FirstOffer(w, 10);
    FirstDiscarded(w);
    SecondOffer(w);
    FirstStored(w, 0, Joined(w, 0), 10);
    SecondStored(w);
    OffersDiffer(w);
  }

  // ── A block finalized late at height 2 ──

  lemma JoinedPeers(w: World, self: Id)
    requires Honest(w) && self < 3
    ensures var s := Joined(w, self);
            |s.roster.peers| == 2 && s.roster.self == self && s.NextHeight() == 2 && s.view == ViewChange.INITIAL
  {
    AllJoin(w, self);
    hide Honest, Joined, Opening, Opened;
  }

  /** A node that has seen no block for ten seconds votes for the next round. */
  function Voting(w: World, self: Id): NodeState
    requires self < 2
  {
    Act(Rules3(w), Joined(w, self), Waits(19000))
  }

  lemma VotingState(w: World, self: Id)
    requires Honest(w) && self < 2
    ensures CheckTimeout(Rules3(w), Joined(w, self), 19000).vote == Some((2, 1))
    ensures var v := Voting(w, self).view;
            Voting(w, self) == Joined(w, self).(view := v) && v.round == 0 && v.Voters(2, 1) == {self}
  {
    hide Honest, Executed, Joined, Opening, Opened, RosterOf, EndsAt, Member, ViewChange.Request;
    AllJoin(w, self);
    JoinedPeers(w, self);
    var t := ViewChange.Request(ViewChange.INITIAL, 3, self, 2);
    assert t.view.Voters(2, 1) == {self};
  }

  /** Node 0 hears node 1's vote, moves to round 1 and offers the second update. */
  function Replacing(w: World): NodeState {
    Act(Rules3(w), Voting(w, 0), HearsVote(2, 1, 1))
  }

  function Replacement(w: World): Block {
    Offer(w, Replacing(w), Opening(w).header, w.second, 19600)
  }

  lemma ReplacingState(w: World)
    requires Honest(w)
    ensures Replacing(w) == Joined(w, 0).(view := Replacing(w).view) && Replacing(w).view.round == 1
  {
    hide Honest, Executed, RosterOf, Joined, Opening, Opened, Voting, EndsAt, Member, ViewChange.Receive;
    JoinedPeers(w, 0);
    VotingState(w, 0);
    ViewChange.TwoVoters(0, 1);
    assert {0} + {1} == {0, 1};
  }

  lemma ReplacementOffered(w: World)
    requires Honest(w)
    ensures Offering(w, Replacing(w), w.second, 19600).pending == Some(Replacement(w))
  {
    HonestSigned(w);
    UpdatesSucceed(w, 19500, 19600);
    AllJoin(w, 0);
    ReplacingState(w);
    hide Honest, Executed, Succeeds, Offering, RosterOf, Offer, Joined, Opening, Replacing, IsUpdate;
    Turns(w, Replacing(w), 0, 2);
    hide Signer.LeaderAt;
    Offers(w, Replacing(w), 0, 1, Opening(w).header, w.second, 19600);
  }

  /** Node 2 has offered the first update, hears both votes, and stores the replacement. */
  function VotedPast(w: World): NodeState {
    var voted := Act(Rules3(w), Offering(w, Joined(w, 2), w.first, 19500), HearsVote(2, 1, 0));
    Act(Rules3(w), voted, HearsVote(2, 1, 1))
  }

  function Replaced(w: World): NodeState {
    Act(Rules3(w), VotedPast(w), Follows(Replacement(w)))
  }

  lemma TwoVotesMoveOn()
    ensures ViewChange.Receive(ViewChange.Receive(ViewChange.INITIAL, 3, 2, 1, 0).view, 3, 2, 1, 1).view.round == 1
  {
    hide ViewChange.Receive;
    ViewChange.TwoVoters(0, 1);
    assert ViewChange.Receive(ViewChange.INITIAL, 3, 2, 1, 0).view.Voters(2, 1) == {0};
  }

  lemma VotedPastState(w: World)
    requires Honest(w)
    ensures VotedPast(w) == Joined(w, 2).(ledger := Executed(Opened(w), w.first, 19500),
                                          pending := Some(Offered(w, 19500)), view := VotedPast(w).view)
    ensures VotedPast(w).view.round == 1
  {
    hide Honest, Executed, RosterOf, Joined, Opening, Opened, Offering, Offered, EndsAt, Member, ViewChange.Receive,
         ViewChange.Tallies;
    JoinedPeers(w, 2);
    FirstOffer(w, 19500);
    TwoVotesMoveOn();
  }

  lemma ReplacedState(w: World)
    requires Honest(w)
    ensures var s := Replaced(w);
            && Lookup(s.blocks, 2) == Some(Replacement(w)) && s.pending == Some(Offered(w, 19500))
            && Member(w, s, 2)
  {
    hide Honest, Executed, Succeeds, HandleProposal, RosterOf, Offer, Joined, Opening, Opened, Replacing, VotedPast,
         IsUpdate, Rules3;
    HonestSigned(w);
    UpdatesSucceed(w, 19500, 19600);
    AllJoin(w, 0);
    AllJoin(w, 2);
    ReplacingState(w);
    VotedPastState(w);
    OfferStored(w, VotedPast(w), 2, Replacing(w), 0, Opening(w).header, w.second, 19600);
  }

  /** Node 1's answer to node 2's first offer, which it stored and signed although it had voted for the next round. */
  function LateSignature(w: World): NodeSignature {
    NodeSignature(1, w.prims.sign(Offered(w, 19500).header, w.keys(1)))
  }

  lemma LateSignatureSent(w: World)
    requires Honest(w)
    ensures HandleProposal(Rules3(w), Voting(w, 1), Offered(w, 19500)).reply == Some(LateSignature(w))
  {
    AllJoin(w, 1);
    VotingState(w, 1);
    hide Honest, Executed, HandleProposal, RosterOf, Offered, Joined, Opening, Voting;
    FirstStored(w, 1, Voting(w, 1), 19500);
  }

  /** Two nodes vote past node 2's pending block, node 2 stores node 0's block in its place, and then node 1's signature
      arrives after all: finalizing the pending block replaces the stored one. Every root check passes. */
  lemma LateFinalizationReplaces(w: World)
    requires Honest(w)
    ensures Offering(w, Joined(w, 2), w.first, 19500).pending == Some(Offered(w, 19500))
    ensures Offering(w, Replacing(w), w.second, 19600).pending == Some(Replacement(w))
    ensures HandleProposal(Rules3(w), Voting(w, 1), Offered(w, 19500)).reply == Some(LateSignature(w))
    ensures Lookup(Replaced(w).blocks, 2) == Some(Replacement(w))
    ensures var s := Act(Rules3(w), Act(Rules3(w), Replaced(w), Collects(2, LateSignature(w))), Completes(19700));
            var b := Offered(w, 19500);
            Lookup(s.blocks, 2) == Some(b.(signatures := b.signatures + [LateSignature(w)]))
    ensures Offered(w, 19500).header != Replacement(w).header
  {
    FirstOffer(w, 19500);
    ReplacementOffered(w);
    LateSignatureSent(w);
    ReplacedState(w);
    AllJoin(w, 2);
    OfferIgnoresPool(w, Joined(w, 2), Opening(w).header, w.first, 19500);
    OfferIgnoresPool(w, Replacing(w), Opening(w).header, w.second, 19600);
    hide Honest, Executed, Offering, RosterOf, Offer, Joined, Opening, Replacing, Replaced, Voting, HandleProposal,
         Collect, FinalizePending;
    PendingIsStored(w, Replaced(w), 2, Offered(w, 19500), 1, 19700);
  }
}
