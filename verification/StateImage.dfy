/** The bytes under the state root: every row of the seven state tables, key and value back to back. */
module StateImage {
  import opened Types
  import opened Bytes
  import opened Codec

  // ── Keys ──

  function Ascii(s: string): (b: Bytes)
    requires forall i | 0 <= i < |s| :: s[i] < 128 as char
    ensures |b| == |s| && forall i | 0 <= i < |s| :: b[i] == s[i] as int
  {
    seq(|s|, i requires 0 <= i < |s| => s[i] as int)
  }

  function Prefix(t: Table): (p: Bytes)
    ensures |p| == 4
  {
    match t
    case Participants => Ascii("prt/")
    case Settlements => Ascii("stl/")
    case Balances => Ascii("bal/")
    case Escrows => Ascii("esc/")
    case Disputes => Ascii("dsp/")
    case Nonces => Ascii("nnc/")
    case Anchors => Ascii("anc/")
  }

  /** The order in which `compute_state_root` scans the tables. */
  const TABLES: seq<Table> := [Participants, Settlements, Balances, Escrows, Disputes, Nonces, Anchors]

  datatype Key = State(table: Table, id: Id) | BlockAt(height: u64) | LatestHeight

  function KeyBytes(k: Key): Bytes {
    match k
    case State(t, id) => Prefix(t) + IdBytes(id)
    case BlockAt(height) => Ascii("blk/") + NonceBytes(height)
    case LatestHeight => Ascii("meta/latest_height")
  }

  lemma PrefixesDiffer(t: Table, u: Table)
    ensures Prefix(t) == Prefix(u) <==> t == u
    ensures Prefix(t) != Ascii("blk/") && Prefix(t) != Ascii("meta")
  {
    var p, q := Prefix(t), Prefix(u);
    assert t != u ==> p[0] != q[0];
    assert if t == Balances then p[1] != Ascii("blk/")[1] else p[0] != Ascii("blk/")[0];
    assert p[0] != Ascii("meta")[0];
  }

  /** No key outside a table has that table's prefix. */
  lemma OnlyItsTable(t: Table, k: Key)
    ensures Prefix(t) <= KeyBytes(k) <==> k.State? && k.table == t
  {
    hide Prefix, IdBytes, NonceBytes;
    match k {
      case State(u, id) =>
        PrefixesDiffer(t, u);
        assert KeyBytes(k)[..4] == Prefix(u);
      case BlockAt(height) =>
        PrefixesDiffer(t, t);
        assert KeyBytes(k)[..4] == Ascii("blk/");
      case LatestHeight =>
        PrefixesDiffer(t, t);
        assert KeyBytes(k)[..4] == Ascii("meta");
    }
  }

  lemma KeysDiffer(j: Key, k: Key)
    requires KeyBytes(j) == KeyBytes(k)
    ensures j == k
  {
    hide Prefix, IdBytes, NonceBytes;
    if j.State? && k.State? {
      OnlyItsTable(j.table, j);
      OnlyItsTable(j.table, k);
      assert IdBytes(j.id) == KeyBytes(j)[4..] && IdBytes(k.id) == KeyBytes(k)[4..];
    } else if j.BlockAt? && k.BlockAt? {
      assert NonceBytes(j.height) == KeyBytes(j)[4..] && NonceBytes(k.height) == KeyBytes(k)[4..];
    }
  }

  // ── Rows of a ledger ──

  function RowsOf(l: Ledger, t: Table): (rows: map<Id, Record>)
    ensures forall id | id in rows :: rows[id].Table() == t
  {
    match t
    case Participants => map id | id in l.tables.participants :: ParticipantRecord(l.tables.participants[id])
    case Settlements => map id | id in l.tables.settlements :: SettlementRow(l.tables.settlements[id])
    case Balances => map id | id in l.tables.balances :: BalanceRecord(l.tables.balances[id])
    case Escrows => map id | id in l.tables.escrows :: EscrowRecord(l.tables.escrows[id])
    case Disputes => map id | id in l.tables.disputes :: DisputeRecord(l.tables.disputes[id])
    case Nonces => map id | id in l.nonces :: NonceRecord(l.nonces[id])
    case Anchors => map id | id in l.tables.anchors :: AnchorRow(l.tables.anchors[id])
  }

  /** The ledger with one record written. */
  function With(l: Ledger, id: Id, r: Record): Ledger {
    match r
    case ParticipantRecord(p) => l.(tables := l.tables.(participants := l.tables.participants[id := p]))
    case SettlementRow(s) => l.(tables := l.tables.(settlements := l.tables.settlements[id := s]))
    case BalanceRecord(b) => l.(tables := l.tables.(balances := l.tables.balances[id := b]))
    case EscrowRecord(e) => l.(tables := l.tables.(escrows := l.tables.escrows[id := e]))
    case DisputeRecord(d) => l.(tables := l.tables.(disputes := l.tables.disputes[id := d]))
    case NonceRecord(n) => l.(nonces := l.nonces[id := n])
    case AnchorRow(a) => l.(tables := l.tables.(anchors := l.tables.anchors[id := a]))
  }

  lemma WithRows(l: Ledger, id: Id, r: Record, t: Table)
    ensures RowsOf(With(l, id, r), t) == if t == r.Table() then RowsOf(l, t)[id := r] else RowsOf(l, t)
  {
  }

  lemma RowsDetermineTable(l: Ledger, m: Ledger, t: Table)
    requires RowsOf(l, t) == RowsOf(m, t)
    ensures match t
            case Participants => l.tables.participants == m.tables.participants
            case Settlements => l.tables.settlements == m.tables.settlements
            case Balances => l.tables.balances == m.tables.balances
            case Escrows => l.tables.escrows == m.tables.escrows
            case Disputes => l.tables.disputes == m.tables.disputes
            case Nonces => l.nonces == m.nonces
            case Anchors => l.tables.anchors == m.tables.anchors
  {
    var a, b := RowsOf(l, t), RowsOf(m, t);
    assert forall id | id in a :: id in b && a[id] == b[id];
    assert a.Keys == b.Keys;
    match t {
      case Participants => assert l.tables.participants.Keys == a.Keys && m.tables.participants.Keys == b.Keys;
      case Settlements => assert l.tables.settlements.Keys == a.Keys && m.tables.settlements.Keys == b.Keys;
      case Balances => assert l.tables.balances.Keys == a.Keys && m.tables.balances.Keys == b.Keys;
      case Escrows => assert l.tables.escrows.Keys == a.Keys && m.tables.escrows.Keys == b.Keys;
      case Disputes => assert l.tables.disputes.Keys == a.Keys && m.tables.disputes.Keys == b.Keys;
      case Nonces => assert l.nonces.Keys == a.Keys && m.nonces.Keys == b.Keys;
      case Anchors => assert l.tables.anchors.Keys == a.Keys && m.tables.anchors.Keys == b.Keys;
    }
  }

  lemma RowsDetermineLedger(l: Ledger, m: Ledger)
    requires forall t :: RowsOf(l, t) == RowsOf(m, t)
    ensures l == m
  {
    hide RowsOf;
    RowsDetermineTable(l, m, Participants);
    RowsDetermineTable(l, m, Settlements);
    RowsDetermineTable(l, m, Balances);
    RowsDetermineTable(l, m, Escrows);
    RowsDetermineTable(l, m, Disputes);
    RowsDetermineTable(l, m, Nonces);
    RowsDetermineTable(l, m, Anchors);
  }

  // ── Rows in key order ──

  ghost predicate IsLeast(s: set<Id>, m: Id) {
    m in s && forall x | x in s :: m <= x
  }

  lemma {:induction false} LeastExists(s: set<Id>)
    requires s != {}
    ensures exists m :: IsLeast(s, m)
  {
    var x :| x in s;
    if s == {x} {
      assert IsLeast(s, x);
    } else {
      LeastExists(s - {x});
      var m :| IsLeast(s - {x}, m);
      assert forall y | y in s :: y == x || y in s - {x};
      assert IsLeast(s, if m < x then m else x);
    }
  }

  ghost function SortedIds(s: set<Id>): seq<Id> {
    if s == {} then []
    else
      LeastExists(s);
      var m :| IsLeast(s, m);
      [m] + SortedIds(s - {m})
  }

  ghost predicate Increasing(ids: seq<Id>) {
    forall i, j | 0 <= i < j < |ids| :: ids[i] < ids[j]
  }

  ghost predicate Enumerates(ids: seq<Id>, s: set<Id>) {
    forall id :: id in ids <==> id in s
  }

  lemma TailEnumerates(ids: seq<Id>, s: set<Id>)
    requires ids != [] && Increasing(ids) && Enumerates(ids, s)
    ensures IsLeast(s, ids[0]) && Enumerates(ids[1..], s - {ids[0]})
  {
    forall id ensures id in ids[1..] <==> id in s - {ids[0]} {
      assert ids == [ids[0]] + ids[1..];
      if id in ids[1..] {
        var i :| 0 <= i < |ids[1..]| && ids[1..][i] == id;
        assert ids[0] < ids[i + 1];
      }
    }
  }

  /** A set has one increasing enumeration. */
  lemma {:induction false} SortedIdsUnique(ids: seq<Id>, s: set<Id>)
    requires Increasing(ids) && Enumerates(ids, s)
    ensures ids == SortedIds(s)
  {
    if ids == [] {
      assert forall id | id in s :: id in ids;
      assert s == {};
    } else {
      TailEnumerates(ids, s);
      hide Enumerates;
      SortedIdsUnique(ids[1..], s - {ids[0]});
      assert forall m | IsLeast(s, m) :: m == ids[0];
      assert ids == [ids[0]] + ids[1..];
    }
  }

  lemma {:induction false} SortedIdsMembers(s: set<Id>, id: Id)
    ensures id in SortedIds(s) <==> id in s
  {
    if s != {} {
      LeastExists(s);
      var m := SortedIds(s)[0];
      SortedIdsMembers(s - {m}, id);
    }
  }

  datatype Row = Row(table: Table, id: Id, record: Record)

  predicate Holds(rows: map<Id, Record>, id: Id, record: Record) {
    id in rows && rows[id] == record
  }

  ghost function TableRows(t: Table, rows: map<Id, Record>, ids: seq<Id>): (listing: seq<Row>)
    requires forall id | id in ids :: id in rows
    ensures |listing| == |ids| && forall i | 0 <= i < |ids| :: listing[i] == Row(t, ids[i], rows[ids[i]])
  {
    seq(|ids|, i requires 0 <= i < |ids| => Row(t, ids[i], rows[ids[i]]))
  }

  ghost function RowsIn(l: Ledger, t: Table): seq<Row> {
    var ids := SortedIds(RowsOf(l, t).Keys);
    assert forall id | id in ids :: id in RowsOf(l, t) by {
      forall id | id in ids ensures id in RowsOf(l, t) {
        SortedIdsMembers(RowsOf(l, t).Keys, id);
      }
    }
    TableRows(t, RowsOf(l, t), ids)
  }

  /** The rows of the first `n` tables, table by table and in key order. */
  ghost function RowsUpTo(l: Ledger, n: nat): seq<Row>
    requires n <= |TABLES|
  {
    if n == 0 then [] else RowsUpTo(l, n - 1) + RowsIn(l, TABLES[n - 1])
  }

  function RowBytes(r: Row): Bytes {
    KeyBytes(State(r.table, r.id)) + Serialize(r.record)
  }

  function ImageOf(rows: seq<Row>): Bytes {
    if rows == [] then [] else ImageOf(rows[..|rows| - 1]) + RowBytes(rows[|rows| - 1])
  }

  ghost function LedgerImage(l: Ledger): Bytes {
    ImageOf(RowsUpTo(l, |TABLES|))
  }

  lemma {:induction false} ImageOfConcat(a: seq<Row>, b: seq<Row>)
    ensures ImageOf(a + b) == ImageOf(a) + ImageOf(b)
  {
    if b == [] {
      assert a + b == a;
      assert ImageOf(a) + [] == ImageOf(a);
    } else {
      var n := |b| - 1;
      assert (a + b)[..|a + b| - 1] == a + b[..n];
      ImageOfConcat(a, b[..n]);
      ConcatAssociates(ImageOf(a), ImageOf(b[..n]), RowBytes(b[n]));
    }
  }

  // ── The image determines the ledger ──

  predicate Storable(r: Row) {
    r.record.Table() == r.table && r.record.Fits()
  }

  lemma RowBytesPrefixFree(a: Row, r: Bytes, b: Row, s: Bytes)
    requires Storable(a) && Storable(b) && RowBytes(a) + r == RowBytes(b) + s
    ensures a == b && r == s
  {
    hide Prefix, IdBytes, Serialize;
    var j, k := State(a.table, a.id), State(b.table, b.id);
    ConcatAssociates(KeyBytes(j), Serialize(a.record), r);
    ConcatAssociates(KeyBytes(k), Serialize(b.record), s);
    SplitConcat(KeyBytes(j), Serialize(a.record) + r, KeyBytes(k), Serialize(b.record) + s);
    KeysDiffer(j, k);
    assert a.record.Table() == b.record.Table() && a.record.Fits() && b.record.Fits();
    SerializePrefixFree(a.record, r, b.record, s);
  }

  /** Rows written back to back without delimiters can be told apart. */
  lemma {:induction false} ImageInjective(a: seq<Row>, b: seq<Row>)
    requires (forall r | r in a :: Storable(r)) && (forall r | r in b :: Storable(r))
    requires ImageOf(a) == ImageOf(b)
    ensures a == b
  {
    hide RowBytes, Storable;
    if a == [] || b == [] {
      NonEmptyImage(a);
      NonEmptyImage(b);
    } else {
      assert a == a[..1] + a[1..] && b == b[..1] + b[1..];
      ImageOfConcat(a[..1], a[1..]);
      ImageOfConcat(b[..1], b[1..]);
      FirstRow(a[0]);
      FirstRow(b[0]);
      assert a[..1] == [a[0]] && b[..1] == [b[0]];
      RowBytesPrefixFree(a[0], ImageOf(a[1..]), b[0], ImageOf(b[1..]));
      ImageInjective(a[1..], b[1..]);
    }
  }

  lemma FirstRow(r: Row)
    ensures ImageOf([r]) == RowBytes(r)
  {
    assert [r][..0] == [];
    assert [] + RowBytes(r) == RowBytes(r);
  }

  lemma NonEmptyImage(rows: seq<Row>)
    ensures rows != [] ==> ImageOf(rows) != []
  {
  }

  lemma RowsInMembers(l: Ledger, t: Table, r: Row)
    ensures r in RowsIn(l, t) <==> r.table == t && Holds(RowsOf(l, t), r.id, r.record)
  {
    hide RowsOf, SortedIds;
    SortedIdsMembers(RowsOf(l, t).Keys, r.id);
    var ids := SortedIds(RowsOf(l, t).Keys);
    if r.id in ids {
      var i :| 0 <= i < |ids| && ids[i] == r.id;
      assert RowsIn(l, t)[i] == Row(t, r.id, RowsOf(l, t)[r.id]);
    }
  }

  predicate Among(tables: seq<Table>, t: Table) {
    exists i | 0 <= i < |tables| :: tables[i] == t
  }

  lemma {:induction false} RowsUpToMembers(l: Ledger, n: nat, r: Row)
    requires n <= |TABLES|
    ensures r in RowsUpTo(l, n) <==> Among(TABLES[..n], r.table) && Holds(RowsOf(l, r.table), r.id, r.record)
  {
    hide RowsOf, RowsIn;
    if n > 0 {
      RowsUpToMembers(l, n - 1, r);
      RowsInMembers(l, TABLES[n - 1], r);
      assert TABLES[..n] == TABLES[..n - 1] + [TABLES[n - 1]];
      assert TABLES[..n][n - 1] == TABLES[n - 1];
      assert forall i | 0 <= i < n - 1 :: TABLES[..n][i] == TABLES[..n - 1][i];
    }
  }

  lemma AllTables(t: Table)
    ensures Among(TABLES[..|TABLES|], t)
  {
    var i := match t
      case Participants => 0
      case Settlements => 1
      case Balances => 2
      case Escrows => 3
      case Disputes => 4
      case Nonces => 5
      case Anchors => 6;
    assert TABLES[..|TABLES|][i] == t;
  }

  lemma RowsAreStorable(l: Ledger, r: Row)
    requires l.Fits() && r in RowsUpTo(l, |TABLES|)
    ensures Storable(r)
  {
    hide RowsUpTo;
    RowsUpToMembers(l, |TABLES|, r);
  }

  /** Equal images come from equal ledgers, though nothing separates one row from the next. */
  lemma LedgerImageInjective(l: Ledger, m: Ledger)
    requires l.Fits() && m.Fits()
    ensures LedgerImage(l) == LedgerImage(m) <==> l == m
  {
    hide RowsUpTo, RowsOf, ImageOf, Storable;
    if LedgerImage(l) == LedgerImage(m) {
      var a, b := RowsUpTo(l, |TABLES|), RowsUpTo(m, |TABLES|);
      forall r | r in a ensures Storable(r) { RowsAreStorable(l, r); }
      forall r | r in b ensures Storable(r) { RowsAreStorable(m, r); }
      ImageInjective(a, b);
      forall t ensures RowsOf(l, t) == RowsOf(m, t) {
        SameRows(l, m, t);
      }
      RowsDetermineLedger(l, m);
    }
  }

  lemma SameRows(l: Ledger, m: Ledger, t: Table)
    requires RowsUpTo(l, |TABLES|) == RowsUpTo(m, |TABLES|)
    ensures RowsOf(l, t) == RowsOf(m, t)
  {
    hide RowsUpTo, RowsOf;
    AllTables(t);
    forall id, record: Record ensures Holds(RowsOf(l, t), id, record) <==> Holds(RowsOf(m, t), id, record) {
      RowsUpToMembers(l, |TABLES|, Row(t, id, record));
      RowsUpToMembers(m, |TABLES|, Row(t, id, record));
    }
    SameEntries(RowsOf(l, t), RowsOf(m, t));
  }

  lemma SameEntries(a: map<Id, Record>, b: map<Id, Record>)
    requires forall id, r :: Holds(a, id, r) <==> Holds(b, id, r)
    ensures a == b
  {
    forall id ensures id in a <==> id in b {
      if id in a { assert Holds(a, id, a[id]); }
      if id in b { assert Holds(b, id, b[id]); }
    }
    forall id | id in a ensures a[id] == b[id] {
      assert Holds(a, id, a[id]);
    }
  }
}
