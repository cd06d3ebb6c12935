/** View-change votes: tallies, rounds, and what they depend on. */
module ViewChange {
  import opened Sets
  import opened Types
  import Quorum

  const MAX_U32: u32 := U32_LIMIT - 1

  /** The round of a node and the votes it has collected, by height and round. */
  datatype View = View(round: u32, votes: map<(u64, u32), set<Id>>) {
    function Voters(height: u64, round: u32): set<Id> {
      if (height, round) in votes then votes[(height, round)] else {}
    }
  }

  datatype Tallied = Tallied(view: View, changed: bool)

  const INITIAL: View := View(0, map[])

  /** The number of votes that completes a view change among `n` nodes. */
  function Threshold(n: nat): nat {
    n / 2 + 1
  }

  /** More than half of `n` nodes. */
  predicate Majority(voters: set<Id>, n: nat) {
    2 * |voters| > n
  }

  /** `retain`: votes for lower heights are dropped. */
  function Retain(votes: map<(u64, u32), set<Id>>, height: u64): map<(u64, u32), set<Id>> {
    map k | k in votes && k.0 >= height :: votes[k]
  }

  function Cast(v: View, height: u64, round: u32, id: Id): (v': View)
    ensures v'.round == v.round
    ensures forall h: u64, r: u32 ::
              v'.Voters(h, r) == if h == height && r == round then v.Voters(h, r) + {id} else v.Voters(h, r)
  {
    v.(votes := v.votes[(height, round) := v.Voters(height, round) + {id}])
  }

  function MoveTo(v: View, height: u64, round: u32): (v': View)
    ensures v'.round == round
    ensures forall h: u64, r: u32 :: v'.Voters(h, r) == if h >= height then v.Voters(h, r) else {}
  {
    View(round, Retain(v.votes, height))
  }

  /** The round after the last one is 0. */
  function NextRound(round: u32): u32 {
    (round + 1) % U32_LIMIT
  }

  /** The tally once `id` has voted, less what completing a view change drops. */
  ghost predicate Tallies(v: View, t: Tallied, height: u64, round: u32, id: Id) {
    forall h: u64, r: u32 ::
      t.view.Voters(h, r) == if t.changed && h < height then {}
                             else if h == height && r == round then v.Voters(h, r) + {id} else v.Voters(h, r)
  }

  function Request(v: View, n: nat, self: Id, height: u64): (t: Tallied)
    ensures t.view.round == if t.changed then NextRound(v.round) else v.round
    ensures t.changed <==> Majority(v.Voters(height, NextRound(v.round)) + {self}, n)
    ensures Tallies(v, t, height, NextRound(v.round), self)
  {
    var next := NextRound(v.round);
    var cast := Cast(v, height, next, self);
    if |cast.Voters(height, next)| >= Threshold(n) then Tallied(MoveTo(cast, height, next), true)
    else Tallied(cast, false)
  }

  function Receive(v: View, n: nat, height: u64, round: u32, from: Id): (t: Tallied)
    ensures t.changed <==> round > v.round && Majority(v.Voters(height, round) + {from}, n)
    ensures t.view.round == if t.changed then round else v.round
    ensures Tallies(v, t, height, round, from)
  {
    var cast := Cast(v, height, round, from);
    if |cast.Voters(height, round)| >= Threshold(n) && round > v.round then Tallied(MoveTo(cast, height, round), true)
    else Tallied(cast, false)
  }

  // ── Runs of one node ──

  /** Its own request, a vote it hears, a peer it discovers, a block it finalizes. */
  datatype Move = Asks(height: u64) | Hears(height: u64, round: u32, from: Id) | Discovers | Finalizes

  /** A node's view and how many nodes it knows, itself included. */
  datatype Node = Node(view: View, n: nat)

  function Step(self: Id, s: Node, m: Move): Node {
    match m
    case Asks(height) => s.(view := Request(s.view, s.n, self, height).view)
    case Hears(height, round, from) => s.(view := Receive(s.view, s.n, height, round, from).view)
    case Discovers => s.(n := s.n + 1)
    case Finalizes => s.(view := INITIAL)
  }

  function After(self: Id, n: nat, moves: seq<Move>): Node {
    if moves == [] then Node(INITIAL, n) else Step(self, After(self, n, moves[..|moves| - 1]), moves[|moves| - 1])
  }

  lemma AfterNext(self: Id, n: nat, moves: seq<Move>, m: Move)
    ensures After(self, n, moves + [m]) == Step(self, After(self, n, moves), m)
  {
    assert (moves + [m])[..|moves + [m]| - 1] == moves;
  }

  lemma AfterOne(self: Id, n: nat, m: Move)
    ensures After(self, n, [m]) == Step(self, Node(INITIAL, n), m)
  {
    assert [] + [m] == [m];
    AfterNext(self, n, [], m);
  }

  /** No retained vote set for a round above the current one is a majority. */
  ghost predicate NoneOverdue(s: Node) {
    forall h: u64, r: u32 :: r > s.view.round ==> !Majority(s.view.Voters(h, r), s.n)
  }

  /** A request at the last round, whose next round wraps to 0. */
  predicate WrapsRound(s: Node, m: Move) {
    m.Asks? && s.view.round == MAX_U32
  }

  /** Such a request whose vote for round 0 completes, while a completed vote for a higher round is kept. */
  ghost predicate Overtakes(self: Id, s: Node, m: Move) {
    && WrapsRound(s, m) && Majority(s.view.Voters(m.height, 0) + {self}, s.n)
    && exists h: u64, r: u32 :: h >= m.height && r > 0 && Majority(s.view.Voters(h, r), s.n)
  }

  /** The one move that leaves an overdue vote behind. */
  lemma StepKeepsNoneOverdueIff(self: Id, s: Node, m: Move)
    requires NoneOverdue(s)
    ensures NoneOverdue(Step(self, s, m)) <==> !Overtakes(self, s, m)
  {
    hide Cast, MoveTo;
    if Overtakes(self, s, m) {
      var h: u64, r: u32 :| h >= m.height && r > 0 && Majority(s.view.Voters(h, r), s.n);
      assert Step(self, s, m).view.Voters(h, r) == s.view.Voters(h, r);
    }
  }

  ghost predicate NeverOvertakes(self: Id, n: nat, moves: seq<Move>) {
    forall k | 0 <= k < |moves| :: !Overtakes(self, After(self, n, moves[..k]), moves[k])
  }

  /** Over every run, with several heights, requests of its own, growing peers and resets: no vote is overdue at any
      moment if and only if no request at the last round overtakes a completed vote. */
  lemma NeverOverdueIff(self: Id, n: nat, moves: seq<Move>)
    ensures (forall k | 0 <= k <= |moves| :: NoneOverdue(After(self, n, moves[..k])))
        <==> NeverOvertakes(self, n, moves)
  {
    hide After, NoneOverdue, Overtakes;
    if NeverOvertakes(self, n, moves) {
      forall k | 0 <= k <= |moves| ensures NoneOverdue(After(self, n, moves[..k])) {
        NeverOverdue(self, n, moves, k);
      }
    } else if forall k | 0 <= k <= |moves| :: NoneOverdue(After(self, n, moves[..k])) {
      forall k | 0 <= k < |moves| ensures !Overtakes(self, After(self, n, moves[..k]), moves[k]) {
        AfterPrefix(self, n, moves, k);
        StepKeepsNoneOverdueIff(self, After(self, n, moves[..k]), moves[k]);
      }
    }
  }

  lemma AfterPrefix(self: Id, n: nat, moves: seq<Move>, k: nat)
    requires k < |moves|
    ensures After(self, n, moves[..k + 1]) == Step(self, After(self, n, moves[..k]), moves[k])
  {
    hide Step;
    assert moves[..k + 1] == moves[..k] + [moves[k]];
    AfterNext(self, n, moves[..k], moves[k]);
  }

  lemma {:induction false} NeverOverdue(self: Id, n: nat, moves: seq<Move>, k: nat)
    requires NeverOvertakes(self, n, moves) && k <= |moves|
    ensures NoneOverdue(After(self, n, moves[..k]))
  {
    hide Overtakes;
    if k > 0 {
      NeverOverdue(self, n, moves, k - 1);
      AfterPrefix(self, n, moves, k - 1);
      StepKeepsNoneOverdueIff(self, After(self, n, moves[..k - 1]), moves[k - 1]);
    } else {
      assert forall h: u64, r: u32 :: INITIAL.Voters(h, r) == {};
    }
  }

  /** It happens: of three nodes, two vote this one into the last round, one of them also for round 0, and then this one
      asks for the round after the last. */
  lemma WrapLeavesOverdue(self: Id, x: Id, y: Id)
    requires x != y && x != self
    ensures var s := After(self, 3, [Hears(5, MAX_U32, x), Hears(5, MAX_U32, y), Hears(5, 0, x), Asks(5)]);
            s.view.round == 0 && !NoneOverdue(s)
  {
    AfterFour(self, 3, Hears(5, MAX_U32, x), Hears(5, MAX_U32, y), Hears(5, 0, x), Asks(5));
    hide After, Receive, Request;
    TwoVoters(x, y);
    TwoVoters(x, self);
    var s0 := Node(INITIAL, 3);
    var s1 := Step(self, s0, Hears(5, MAX_U32, x));
    var s2 := Step(self, s1, Hears(5, MAX_U32, y));
    var s3 := Step(self, s2, Hears(5, 0, x));
    assert s1.view.Voters(5, MAX_U32) == {x} && s1.view.round == 0;
    assert s2.view.Voters(5, MAX_U32) == {x, y} && s2.view.Voters(5, 0) == {} && s2.view.round == MAX_U32;
    assert s3.view.Voters(5, MAX_U32) == {x, y} && s3.view.Voters(5, 0) == {x} && s3.view.round == MAX_U32;
    WrapOvertakes(self, x, s3);
  }

  lemma WrapOvertakes(self: Id, x: Id, s: Node)
    requires s.n == 3 && s.view.round == MAX_U32 && x != self
    requires |s.view.Voters(5, MAX_U32)| == 2 && s.view.Voters(5, 0) == {x}
    ensures var s' := Step(self, s, Asks(5)); s'.view.round == 0 && !NoneOverdue(s')
  {
    TwoVoters(x, self);
    assert {x} + {self} == {x, self};
    hide Cast, MoveTo;
    var s' := Step(self, s, Asks(5));
    assert s'.view.Voters(5, MAX_U32) == s.view.Voters(5, MAX_U32);
  }

  /** Between finalized blocks the round never goes back, except by a request at the last round that completes. */
  lemma RoundGoesBackIff(self: Id, s: Node, m: Move)
    requires !m.Finalizes?
    ensures Step(self, s, m).view.round < s.view.round
       <==> WrapsRound(s, m) && Majority(s.view.Voters(m.height, 0) + {self}, s.n)
  {
    hide Cast, MoveTo;
  }

  // ── Every change of round is backed by a majority of votes ──

  /** Who has voted for `round` at `height` since the last finalized block. */
  function Ballots(self: Id, n: nat, moves: seq<Move>, height: u64, round: u32): set<Id> {
    if moves == [] then {}
    else
      var before := moves[..|moves| - 1];
      var cast := Ballots(self, n, before, height, round);
      match moves[|moves| - 1]
      case Finalizes => {}
      case Discovers => cast
      case Hears(h, r, from) => if h == height && r == round then cast + {from} else cast
      case Asks(h) =>
        if h == height && NextRound(After(self, n, before).view.round) == round then cast + {self} else cast
  }

  lemma {:induction false} VotersAreBallots(self: Id, n: nat, moves: seq<Move>, height: u64, round: u32)
    ensures After(self, n, moves).view.Voters(height, round) <= Ballots(self, n, moves, height, round)
  {
    hide Request, Receive, Majority, NextRound;
    if moves != [] {
      VotersAreBallots(self, n, moves[..|moves| - 1], height, round);
    }
  }

  /** A move that changes the round to a new one was cast by a majority of the nodes known at that moment. */
  lemma ChangeIsBacked(self: Id, n: nat, moves: seq<Move>) returns (height: u64)
    requires moves != [] && !moves[|moves| - 1].Finalizes?
    requires After(self, n, moves).view.round != After(self, n, moves[..|moves| - 1]).view.round
    ensures var s := After(self, n, moves);
            Majority(Ballots(self, n, moves, height, s.view.round), s.n)
  {
    hide Request, Receive, NextRound, Ballots;
    var s := After(self, n, moves);
    height := moves[|moves| - 1].height;
    VotersAreBallots(self, n, moves, height, s.view.round);
    SubsetSize(s.view.Voters(height, s.view.round), Ballots(self, n, moves, height, s.view.round));
  }

  // ── Completed rounds share a voter ──

  /** The last move of the run takes the node into another round. */
  predicate Enters(self: Id, n: nat, moves: seq<Move>) {
    && moves != [] && !moves[|moves| - 1].Finalizes?
    && After(self, n, moves).view.round != After(self, n, moves[..|moves| - 1]).view.round
  }

  /** The votes behind that round, at the height they were cast for. */
  function Backing(self: Id, n: nat, moves: seq<Move>, height: u64): set<Id> {
    Ballots(self, n, moves, height, After(self, n, moves).view.round)
  }

  /** Two nodes that know as many nodes as there are validators, and have heard from validators only: if each has
      entered a round, at one height or at two, some validator voted for both. */
  lemma CompletedRoundsShareVoter(validators: set<Id>, self: Id, n: nat, moves: seq<Move>, self': Id, n': nat,
                                  moves': seq<Move>)
    returns (height: u64, height': u64, id: Id)
    requires Enters(self, n, moves) && Enters(self', n', moves')
    requires After(self, n, moves).n == After(self', n', moves').n == |validators|
    requires forall h: u64 :: Backing(self, n, moves, h) <= validators
    requires forall h: u64 :: Backing(self', n', moves', h) <= validators
    ensures id in Backing(self, n, moves, height) && id in Backing(self', n', moves', height')
    ensures Majority(Backing(self, n, moves, height), |validators|)
    ensures Majority(Backing(self', n', moves', height'), |validators|)
  {
    hide After, Ballots;
    height := ChangeIsBacked(self, n, moves);
    height' := ChangeIsBacked(self', n', moves');
    var a, b := Backing(self, n, moves, height), Backing(self', n', moves', height');
    var least := Threshold(|validators|);
    Quorum.QuorumsMeetIff(validators, least);
    assert a * b != {};
    id :| id in a * b;
  }

  /** The threshold is the least number of votes with that property. */
  lemma ThresholdIsLeast(validators: set<Id>)
    ensures Quorum.QuorumsMeet(validators, Threshold(|validators|))
    ensures forall m: nat | m < Threshold(|validators|) :: !Quorum.QuorumsMeet(validators, m)
  {
    hide Quorum.QuorumsMeet;
    Quorum.QuorumsMeetIff(validators, Threshold(|validators|));
    forall m: nat | m < Threshold(|validators|) ensures !Quorum.QuorumsMeet(validators, m) {
      Quorum.QuorumsMeetIff(validators, m);
    }
  }

  /** Votes are not checked to come from validators: of three nodes, two strangers can move one into another round. */
  lemma StrangersCount(self: Id, x: Id, y: Id, height: u64, round: u32)
    requires x != y && round > 0
    ensures After(self, 3, [Hears(height, round, x), Hears(height, round, y)]).view.round == round
  {
    AfterOne(self, 3, Hears(height, round, x));
    assert [Hears(height, round, x)] + [Hears(height, round, y)] == [Hears(height, round, x), Hears(height, round, y)];
    AfterNext(self, 3, [Hears(height, round, x)], Hears(height, round, y));
    hide After, Receive;
    TwoVoters(x, y);
    assert INITIAL.Voters(height, round) == {};
  }

  // ── Deliveries at one height commute ──

  datatype Delivery = Delivery(round: u32, from: Id)

  /** The view after hearing `ds`, all at one height, from a fixed set of `n` nodes and no votes. */
  function Deliver(n: nat, height: u64, ds: seq<Delivery>): View {
    if ds == [] then INITIAL
    else
      var d := ds[|ds| - 1];
      Receive(Deliver(n, height, ds[..|ds| - 1]), n, height, d.round, d.from).view
  }

  function VotersIn(ds: seq<Delivery>, round: u32): set<Id> {
    set d | d in ds && d.round == round :: d.from
  }

  /** `round` is the largest with a majority of distinct voters, or 0 if there is none. */
  ghost predicate IsWinner(n: nat, ds: seq<Delivery>, round: u32) {
    && (round == 0 || Majority(VotersIn(ds, round), n))
    && forall r: u32 :: r > round ==> !Majority(VotersIn(ds, r), n)
  }

  lemma VotersInStep(ds: seq<Delivery>, round: u32)
    requires ds != []
    ensures var d := ds[|ds| - 1];
            VotersIn(ds, round) == VotersIn(ds[..|ds| - 1], round) + if d.round == round then {d.from} else {}
  {
    assert ds == ds[..|ds| - 1] + [ds[|ds| - 1]];
  }

  lemma {:induction false} TalliesDeliveries(n: nat, height: u64, ds: seq<Delivery>, round: u32)
    ensures Deliver(n, height, ds).Voters(height, round) == VotersIn(ds, round)
  {
    if ds != [] {
      hide Receive, VotersIn;
      TalliesDeliveries(n, height, ds[..|ds| - 1], round);
      VotersInStep(ds, round);
    }
  }

  lemma {:induction false} DeliveriesNotOverdue(n: nat, height: u64, ds: seq<Delivery>)
    ensures var v := Deliver(n, height, ds);
            NoneOverdue(Node(v, n)) && (v.round == 0 || Majority(v.Voters(height, v.round), n))
  {
    if ds != [] {
      hide Receive, NoneOverdue, Majority;
      var d := ds[|ds| - 1];
      var before := Deliver(n, height, ds[..|ds| - 1]);
      DeliveriesNotOverdue(n, height, ds[..|ds| - 1]);
      StepKeepsNoneOverdueIff(d.from, Node(before, n), Hears(height, d.round, d.from));
      SubsetSize(before.Voters(height, before.round), Deliver(n, height, ds).Voters(height, before.round));
    } else {
      assert forall h: u64, r: u32 :: INITIAL.Voters(h, r) == {};
    }
  }

  lemma DeliveriesElectWinner(n: nat, height: u64, ds: seq<Delivery>)
    ensures IsWinner(n, ds, Deliver(n, height, ds).round)
  {
    hide Deliver, VotersIn, Majority;
    DeliveriesNotOverdue(n, height, ds);
    forall r: u32 ensures VotersIn(ds, r) == Deliver(n, height, ds).Voters(height, r) {
      TalliesDeliveries(n, height, ds, r);
    }
  }

  /** The final round depends only on which votes were delivered: not on their order, nor on how often. */
  lemma DeliveriesCommute(n: nat, height: u64, ds: seq<Delivery>, ds': seq<Delivery>)
    requires forall d :: d in ds <==> d in ds'
    ensures Deliver(n, height, ds).round == Deliver(n, height, ds').round
  {
    DeliveriesElectWinner(n, height, ds);
    DeliveriesElectWinner(n, height, ds');
    forall r ensures VotersIn(ds, r) == VotersIn(ds', r) {
    }
  }

  lemma AfterFour(self: Id, n: nat, a: Move, b: Move, c: Move, d: Move)
    ensures After(self, n, [a, b, c, d])
         == Step(self, Step(self, Step(self, Step(self, Node(INITIAL, n), a), b), c), d)
  {
    hide Step;
    AfterOne(self, n, a);
    AfterNext(self, n, [a], b);
    assert [a] + [b] == [a, b];
    AfterNext(self, n, [a, b], c);
    assert [a, b] + [c] == [a, b, c];
    AfterNext(self, n, [a, b, c], d);
    assert [a, b, c] + [d] == [a, b, c, d];
  }

  lemma TwoVoters(x: Id, y: Id)
    requires x != y
    ensures {} + {x} == {x} && {} + {y} == {y} && {x} + {y} == {x, y} && |{x, y}| == 2 && |{x}| == 1 && |{y}| == 1
  {
  }

  /** Across heights the order matters: completing a higher height drops the votes of a lower one, here the first of
      the two votes that round 2 needs. */
  lemma HeightsDoNotCommute(self: Id, x: Id, y: Id)
    requires x != y
    ensures After(self, 3, [Hears(1, 2, x), Hears(1, 2, y), Hears(2, 1, x), Hears(2, 1, y)]).view.round == 2
    ensures After(self, 3, [Hears(1, 2, x), Hears(2, 1, x), Hears(2, 1, y), Hears(1, 2, y)]).view.round == 1
  {
    AfterFour(self, 3, Hears(1, 2, x), Hears(1, 2, y), Hears(2, 1, x), Hears(2, 1, y));
    AfterFour(self, 3, Hears(1, 2, x), Hears(2, 1, x), Hears(2, 1, y), Hears(1, 2, y));
    hide After, Receive;
    TwoVoters(x, y);
  }
}
