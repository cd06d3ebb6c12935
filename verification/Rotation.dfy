/** Leader rotation: the validators in id order, indexed by height plus round. */
module Rotation {
  import opened Types

  // ── Sorting identifiers ──

  ghost predicate Sorted(ids: seq<Id>) {
    forall i, j | 0 <= i < j < |ids| :: ids[i] <= ids[j]
  }

  function InsertId(ids: seq<Id>, id: Id): (r: seq<Id>)
    ensures multiset(r) == multiset(ids) + multiset{id}
    ensures |r| == |ids| + 1
  {
    if ids == [] || id <= ids[0] then [id] + ids
    else
      assert ids == [ids[0]] + ids[1..];
      [ids[0]] + InsertId(ids[1..], id)
  }

  function Sort(ids: seq<Id>): (r: seq<Id>)
    ensures multiset(r) == multiset(ids)
    ensures |r| == |ids|
  {
    if ids == [] then []
    else
      assert ids == [ids[0]] + ids[1..];
      InsertId(Sort(ids[1..]), ids[0])
  }

  lemma {:induction false} InsertIdSorted(ids: seq<Id>, id: Id)
    requires Sorted(ids)
    ensures Sorted(InsertId(ids, id))
  {
    if ids != [] && ids[0] < id {
      InsertIdSorted(ids[1..], id);
      var rest := InsertId(ids[1..], id);
      forall j | 0 <= j < |rest| ensures ids[0] <= rest[j] {
        assert rest[j] in multiset(rest);
        assert rest[j] in ids[1..] || rest[j] == id;
      }
    }
  }

  lemma {:induction false} SortSorted(ids: seq<Id>)
    ensures Sorted(Sort(ids))
  {
    if ids != [] {
      SortSorted(ids[1..]);
      InsertIdSorted(Sort(ids[1..]), ids[0]);
    }
  }

  lemma LeastIsFirst(a: seq<Id>, id: Id)
    requires Sorted(a) && id in multiset(a)
    ensures a[0] <= id
  {
    var i :| 0 <= i < |a| && a[i] == id;
  }

  lemma MultisetOfTail(a: seq<Id>)
    requires a != []
    ensures multiset(a[1..]) == multiset(a) - multiset{a[0]} && a[0] in multiset(a)
  {
    assert a == [a[0]] + a[1..];
  }

  lemma SameHead(a: seq<Id>, b: seq<Id>)
    requires Sorted(a) && Sorted(b) && multiset(a) == multiset(b) && a != [] && b != []
    ensures a[0] == b[0]
  {
    MultisetOfTail(a);
    MultisetOfTail(b);
    LeastIsFirst(b, a[0]);
    LeastIsFirst(a, b[0]);
  }

  lemma {:induction false} SortedUnique(a: seq<Id>, b: seq<Id>)
    requires Sorted(a) && Sorted(b) && multiset(a) == multiset(b)
    ensures a == b
  {
    assert |a| == |multiset(a)| && |b| == |multiset(b)|;
    if a != [] {
      SameHead(a, b);
      MultisetOfTail(a);
      MultisetOfTail(b);
      SortedUnique(a[1..], b[1..]);
      assert a == [a[0]] + a[1..] && b == [b[0]] + b[1..];
    }
  }

  ghost predicate Distinct(nodes: seq<Id>) {
    forall i, j | 0 <= i < j < |nodes| :: nodes[i] != nodes[j]
  }

  lemma {:induction false} DistinctIffOnce(ids: seq<Id>)
    ensures Distinct(ids) <==> forall id | id in ids :: multiset(ids)[id] == 1
  {
    if ids != [] {
      var rest := ids[1..];
      DistinctIffOnce(rest);
      assert ids == [ids[0]] + rest;
      assert forall id :: multiset(ids)[id] == multiset(rest)[id] + if id == ids[0] then 1 else 0;
      if Distinct(ids) {
        assert ids[0] !in rest;
        assert forall i, j | 0 <= i < j < |rest| :: rest[i] != rest[j] by {
          assert forall i | 0 <= i < |rest| :: rest[i] == ids[i + 1];
        }
      }
    }
  }

  // ── Leaders ──

  /** Whose turn it is `j` steps after the sum `start`: `usize` is 64 bits wide and the sum wraps. */
  function Turn(start: nat, j: nat, n: nat): (t: nat)
    requires n > 0
    ensures t < n
  {
    (start + j) % U64_LIMIT % n
  }

  function Leader(nodes: seq<Id>, height: u64, round: u32): Id
    requires nodes != []
  {
    nodes[Turn(height, round, |nodes|)]
  }

  /** The validators as one node lists them: its peers, in any order, and itself. */
  function AllNodes(peerIds: seq<Id>, self: Id): (nodes: seq<Id>)
    ensures |nodes| == |peerIds| + 1
  {
    Sort(peerIds + [self])
  }

  lemma SameMembersSameMultiset(a: seq<Id>, b: seq<Id>)
    requires Distinct(a) && Distinct(b) && forall id :: id in a <==> id in b
    ensures multiset(a) == multiset(b)
  {
    DistinctIffOnce(a);
    DistinctIffOnce(b);
    forall id ensures multiset(a)[id] == multiset(b)[id] {
      assert id in a <==> id in multiset(a);
      assert id in b <==> id in multiset(b);
    }
  }

  lemma AllNodesDistinct(peers: seq<Id>, self: Id)
    requires Distinct(peers + [self])
    ensures Distinct(AllNodes(peers, self))
  {
    var nodes := AllNodes(peers, self);
    DistinctIffOnce(peers + [self]);
    DistinctIffOnce(nodes);
    forall id | id in nodes ensures multiset(nodes)[id] == 1 {
      assert id in multiset(nodes);
      assert id in peers + [self];
    }
  }

  /** Who leads does not depend on which validator one is, nor on the order in which peers became known. */
  lemma LeaderIgnoresView(peers: seq<Id>, self: Id, peers': seq<Id>, self': Id, height: u64, round: u32)
    requires Distinct(peers + [self]) && Distinct(peers' + [self'])
    requires forall id :: id in peers + [self] <==> id in peers' + [self']
    ensures AllNodes(peers, self) == AllNodes(peers', self')
    ensures Leader(AllNodes(peers, self), height, round) == Leader(AllNodes(peers', self'), height, round)
  {
    SameMembersSameMultiset(peers + [self], peers' + [self']);
    SortSorted(peers + [self]);
    SortSorted(peers' + [self']);
    SortedUnique(AllNodes(peers, self), AllNodes(peers', self'));
  }

  // ── Fairness ──

  /** Among the `n` sums from `start` on, turn `t` comes up exactly once. */
  ghost predicate OneTurn(start: nat, n: nat, t: nat)
    requires n > 0
  {
    exists k | 0 <= k < n :: OnlyAt(start, n, t, k)
  }

  ghost predicate OnlyAt(start: nat, n: nat, t: nat, k: nat)
    requires n > 0
  {
    forall j | 0 <= j < n :: Turn(start, j, n) == t <==> j == k
  }

  lemma AtLeastOneMultiple(d: int, n: int)
    requires d != 0 && n > 0
    ensures d * n >= n || d * n <= -n
  {
  }

  lemma ModUnique(a: int, q: int, r: int, n: int)
    requires n > 0 && 0 <= r < n && a == q * n + r
    ensures a % n == r
  {
    var d := a / n - q;
    assert d * n == r - a % n by { assert a == a / n * n + a % n; }
    if d != 0 {
      AtLeastOneMultiple(d, n);
    }
  }

  /** Two sums less than a round apart fall on different turns. */
  lemma ModDistinct(a: nat, b: nat, n: nat)
    requires n > 0 && a < b < a + n
    ensures a % n != b % n
  {
    if a % n == b % n {
      ModUnique(b - a, b / n - a / n, 0, n);
      ModUnique(b - a, 0, b - a, n);
    }
  }

  /** Before the wrap the turn is the sum modulo `n`; after it, modulo `n` less the wrap. */
  lemma TurnOf(start: nat, s: nat, j: nat, n: nat)
    requires 0 < n < U64_LIMIT && j < n && s == start % U64_LIMIT
    ensures Turn(start, j, n) == if s + j < U64_LIMIT then (s + j) % n else (s + j - U64_LIMIT) % n
  {
    var q := start / U64_LIMIT;
    if s + j < U64_LIMIT {
      ModUnique(start + j, q, s + j, U64_LIMIT);
    } else {
      ModUnique(start + j, q + 1, s + j - U64_LIMIT, U64_LIMIT);
    }
  }

  /** If the counter's range is a multiple of `n`, wrapping does not show. */
  lemma WrapIsHidden(sum: nat, n: nat)
    requires n > 0 && U64_LIMIT % n == 0 && sum >= U64_LIMIT
    ensures (sum - U64_LIMIT) % n == sum % n
  {
    var q, r := sum / n, sum % n;
    ModUnique(sum - U64_LIMIT, q - U64_LIMIT / n, r, n);
  }

  lemma PlainTurn(start: nat, s: nat, j: nat, n: nat)
    requires 0 < n < U64_LIMIT && j < n && s == start % U64_LIMIT
    requires s + n <= U64_LIMIT || U64_LIMIT % n == 0
    ensures Turn(start, j, n) == (s + j) % n
  {
    TurnOf(start, s, j, n);
    if s + j >= U64_LIMIT {
      WrapIsHidden(s + j, n);
    }
  }

  lemma ResidueComesUp(s: nat, n: nat, t: nat) returns (k: nat)
    requires n > 0 && t < n
    ensures k < n && (s + k) % n == t
  {
    var r := s % n;
    k := if t >= r then t - r else t - r + n;
    ModUnique(s + k, s / n + (if t >= r then 0 else 1), t, n);
  }

  lemma FairWindow(start: nat, n: nat, t: nat)
    requires 0 < n < U64_LIMIT && t < n
    requires start % U64_LIMIT + n <= U64_LIMIT || U64_LIMIT % n == 0
    ensures OneTurn(start, n, t)
  {
    hide Turn;
    var s := start % U64_LIMIT;
    var k := ResidueComesUp(s, n, t);
    PlainTurn(start, s, k, n);
    forall j | 0 <= j < n ensures Turn(start, j, n) == t <==> j == k {
      PlainTurn(start, s, j, n);
      if j < k { ModDistinct(s + j, s + k, n); }
      if k < j { ModDistinct(s + k, s + j, n); }
    }
    assert OnlyAt(start, n, t, k);
  }

  lemma NextIsFirst(a: nat, n: nat)
    requires n > 0 && a % n == n - 1
    ensures (a + 1) % n == 0
  {
    ModUnique(a + 1, a / n + 1, 0, n);
  }

  /** A window that wraps without skipping the last turn or repeating the first wraps at a multiple of `n`. */
  lemma UnfairWindow(start: nat, n: nat, last: nat, first: nat)
    requires 0 < n < U64_LIMIT && start % U64_LIMIT + n > U64_LIMIT
    requires last < n && OnlyAt(start, n, n - 1, last)
    requires first < n && OnlyAt(start, n, 0, first)
    ensures U64_LIMIT % n == 0
  {
    hide Turn;
    var s := start % U64_LIMIT;
    var m := U64_LIMIT - s;
    TurnOf(start, s, last, n);
    if last >= m {
      ModUnique(last - m, 0, last - m, n);
    } else {
      NextIsFirst(s + last, n);
      TurnOf(start, s, last + 1, n);
      TurnOf(start, s, m, n);
    }
  }

  // ── Who leads ──

  function LeaderAfter(nodes: seq<Id>, start: nat, j: nat): Id
    requires nodes != []
  {
    nodes[Turn(start, j, |nodes|)]
  }

  /** `v` leads exactly one of the `n` consecutive steps from `start` on. */
  ghost predicate LeadsOnce(nodes: seq<Id>, start: nat, v: Id)
    requires nodes != []
  {
    exists k | 0 <= k < |nodes| :: LeadsOnlyAt(nodes, start, v, k)
  }

  ghost predicate LeadsOnlyAt(nodes: seq<Id>, start: nat, v: Id, k: nat)
    requires nodes != []
  {
    forall j | 0 <= j < |nodes| :: LeaderAfter(nodes, start, j) == v <==> j == k
  }

  /** Consecutive heights at one round, and consecutive rounds at one height, are consecutive steps. */
  lemma StepsAreHeightsAndRounds(nodes: seq<Id>, height: u64, round: u32, j: nat)
    requires nodes != []
    ensures height + j < U64_LIMIT ==> Leader(nodes, height + j, round) == LeaderAfter(nodes, height + round, j)
    ensures round + j < U32_LIMIT ==> Leader(nodes, height, round + j) == LeaderAfter(nodes, height + round, j)
  {
  }

  /** Every validator leads exactly once among n consecutive heights or rounds, if and only if the 64-bit sum does not
      wrap among them or n divides 2^64. */
  lemma RotationIsFairIff(nodes: seq<Id>, start: nat)
    requires 0 < |nodes| < U64_LIMIT && Distinct(nodes)
    ensures (forall v | v in nodes :: LeadsOnce(nodes, start, v))
       <==> start % U64_LIMIT + |nodes| <= U64_LIMIT || U64_LIMIT % |nodes| == 0
  {
    hide Turn;
    var n := |nodes|;
    forall t, k | 0 <= t < n && 0 <= k < n
      ensures OnlyAt(start, n, t, k) <==> LeadsOnlyAt(nodes, start, nodes[t], k)
    {
      SameTurns(nodes, start, t, k);
    }
    if start % U64_LIMIT + n <= U64_LIMIT || U64_LIMIT % n == 0 {
      forall v | v in nodes ensures LeadsOnce(nodes, start, v) {
        var t :| 0 <= t < n && nodes[t] == v;
        FairWindow(start, n, t);
      }
    } else if forall v | v in nodes :: LeadsOnce(nodes, start, v) {
      assert LeadsOnce(nodes, start, nodes[n - 1]) && LeadsOnce(nodes, start, nodes[0]);
      var last :| 0 <= last < n && LeadsOnlyAt(nodes, start, nodes[n - 1], last);
      var first :| 0 <= first < n && LeadsOnlyAt(nodes, start, nodes[0], first);
      UnfairWindow(start, n, last, first);
    }
  }

  lemma SameTurns(nodes: seq<Id>, start: nat, t: nat, k: nat)
    requires Distinct(nodes) && t < |nodes|
    ensures OnlyAt(start, |nodes|, t, k) <==> LeadsOnlyAt(nodes, start, nodes[t], k)
  {
    hide Turn;
    forall j | 0 <= j < |nodes| ensures Turn(start, j, |nodes|) == t <==> LeaderAfter(nodes, start, j) == nodes[t] {
    }
  }

  // ── Which validator that is ──

  function Members(nodes: seq<Id>): set<Id> {
    set v | v in nodes
  }

  function Below(nodes: seq<Id>, id: Id): set<Id> {
    set v | v in nodes && v < id
  }

  lemma {:induction false} DistinctSize(nodes: seq<Id>, k: nat)
    requires Distinct(nodes) && k <= |nodes|
    ensures |Members(nodes[..k])| == k
  {
    if k > 0 {
      DistinctSize(nodes, k - 1);
      assert nodes[..k] == nodes[..k - 1] + [nodes[k - 1]];
      assert Members(nodes[..k]) == Members(nodes[..k - 1]) + {nodes[k - 1]};
      assert nodes[k - 1] !in nodes[..k - 1];
    }
  }

  lemma BelowIsPrefix(nodes: seq<Id>, k: nat)
    requires Sorted(nodes) && Distinct(nodes) && k < |nodes|
    ensures Below(nodes, nodes[k]) == Members(nodes[..k])
  {
    forall v | v in nodes ensures v < nodes[k] <==> v in nodes[..k] {
      var i :| 0 <= i < |nodes| && nodes[i] == v;
      assert i < k ==> nodes[..k][i] == v;
      if v in nodes[..k] {
        var j :| 0 <= j < k && nodes[..k][j] == v;
        assert nodes[j] == v;
      }
    }
  }

  /** With distinct ids, the leader at a height and a round is the validator with exactly (height + round) mod n others
      below it, the sum taken in 64 bits. */
  lemma LeaderHasRank(peerIds: seq<Id>, self: Id, height: u64, round: u32)
    requires Distinct(peerIds + [self])
    ensures var leader := Leader(AllNodes(peerIds, self), height, round);
            && leader in peerIds + [self]
            && |Below(peerIds + [self], leader)| == (height + round) % U64_LIMIT % (|peerIds| + 1)
  {
    var ids, nodes := peerIds + [self], AllNodes(peerIds, self);
    AllNodesDistinct(peerIds, self);
    SortSorted(ids);
    forall v ensures v in ids <==> v in nodes {
      assert v in multiset(ids) <==> v in multiset(nodes);
    }
    var leader := Leader(nodes, height, round);
    assert Below(ids, leader) == Below(nodes, leader);
    hide Sort, Sorted, Distinct, Members, Below;
    var k := (height + round) % U64_LIMIT % |nodes|;
    BelowIsPrefix(nodes, k);
    DistinctSize(nodes, k);
  }
}
