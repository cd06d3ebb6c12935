/** rc-store as it is laid out: one sorted byte-keyed database holding the state tables, the blocks and the latest
    height, and a state root computed by prefix scans. */
module KvStore {
  import opened Types
  import opened Bytes
  import opened Codec
  import opened Database
  import opened StateImage

  /** The database holds the encoded keys of `contents` and nothing else. */
  ghost predicate Mirrors(db: seq<Entry>, contents: map<Key, Bytes>) {
    && (forall k | k in contents :: Entry(KeyBytes(k), contents[k]) in db)
    && (forall e | e in db :: exists k :: k in contents && e == Entry(KeyBytes(k), contents[k]))
  }

  /** What `contents` stands for. */
  ghost predicate Represents(contents: map<Key, Bytes>, l: Ledger, blocks: map<u64, Bytes>, latest: Option<u64>) {
    && (forall t, id :: Lookup(contents, State(t, id)) == Stored(RowsOf(l, t), id))
    && (forall height :: Lookup(contents, BlockAt(height)) == Lookup(blocks, height))
    && Lookup(contents, LatestHeight) == if latest.Some? then Some(NonceBytes(latest.value)) else None
  }

  function Stored(rows: map<Id, Record>, id: Id): Option<Bytes> {
    if id in rows then Some(Serialize(rows[id])) else None
  }

  lemma PutMirrors(db: seq<Entry>, contents: map<Key, Bytes>, k: Key, value: Bytes)
    requires Ascending(db) && Mirrors(db, contents)
    ensures Mirrors(Insert(db, KeyBytes(k), value), contents[k := value])
  {
    hide Insert, KeyBytes;
    var db', contents' := Insert(db, KeyBytes(k), value), contents[k := value];
    forall j | j in contents' ensures Entry(KeyBytes(j), contents'[j]) in db' {
      if j != k && KeyBytes(j) == KeyBytes(k) {
        KeysDiffer(j, k);
      }
      InsertMembers(db, KeyBytes(k), value, Entry(KeyBytes(j), contents'[j]));
    }
    forall e | e in db' ensures exists j :: j in contents' && e == Entry(KeyBytes(j), contents'[j]) {
      InsertMembers(db, KeyBytes(k), value, e);
      if e == Entry(KeyBytes(k), value) {
        assert k in contents' && contents'[k] == value;
      } else {
        var j :| j in contents && e == Entry(KeyBytes(j), contents[j]);
        assert j in contents';
      }
    }
  }

  lemma FindMirrors(db: seq<Entry>, contents: map<Key, Bytes>, k: Key)
    requires Ascending(db) && Mirrors(db, contents)
    ensures Find(db, KeyBytes(k)) == Lookup(contents, k)
  {
    hide KeyBytes, Find;
    if k in contents {
      FindsExactly(db, KeyBytes(k), contents[k]);
    } else if Find(db, KeyBytes(k)).Some? {
      var e := Entry(KeyBytes(k), Find(db, KeyBytes(k)).value);
      FindsExactly(db, e.key, e.value);
      var j :| j in contents && e == Entry(KeyBytes(j), contents[j]);
      KeysDiffer(j, k);
    }
  }

  // ── A prefix scan lists one table ──

  lemma StateKeyOrder(t: Table, a: Id, b: Id)
    ensures Less(KeyBytes(State(t, a)), KeyBytes(State(t, b))) <==> a < b
  {
    WidthLimits();
    BigEndianOrder(a, b, 32);
    LessAfterPrefix(Prefix(t), IdBytes(a), IdBytes(b));
  }

  lemma ScanVisitsRow(db: seq<Entry>, contents: map<Key, Bytes>, rows: map<Id, Record>, t: Table, i: nat)
      returns (id: Id)
    requires Mirrors(db, contents) && i < |db| && StartsWith(db[i].key, Prefix(t))
    requires forall id :: Lookup(contents, State(t, id)) == Stored(rows, id)
    ensures id in rows && db[i] == EntryOf(Row(t, id, rows[id]))
  {
    hide KeyBytes, Prefix, Serialize;
    assert db[i] in db;
    var k :| k in contents && db[i] == Entry(KeyBytes(k), contents[k]);
    OnlyItsTable(t, k);
    id := k.id;
    assert Lookup(contents, State(t, id)) == Stored(rows, id);
  }

  /** Every entry a scan of `t` visits before `upto` is a row of `t`. */
  lemma {:induction false} ScanVisitsRows(db: seq<Entry>, contents: map<Key, Bytes>, rows: map<Id, Record>, t: Table,
                                          hi: nat, upto: nat)
    returns (ids: seq<Id>)
    requires Mirrors(db, contents) && StopsAt(db, Prefix(t), hi)
    requires forall id :: Lookup(contents, State(t, id)) == Stored(rows, id)
    requires LowerBound(db, Prefix(t)) <= upto <= hi
    ensures var lo := LowerBound(db, Prefix(t));
            |ids| == upto - lo && ListsRows(db, lo, t, rows, ids)
  {
    hide KeyBytes, Prefix, LowerBound, Serialize, Mirrors, Stored;
    var lo := LowerBound(db, Prefix(t));
    if upto == lo {
      ids := [];
    } else {
      ids := ScanVisitsRows(db, contents, rows, t, hi, upto - 1);
      var id := ScanVisitsRow(db, contents, rows, t, upto - 1);
      ids := ids + [id];
    }
  }

  function EntryOf(r: Row): Entry {
    Entry(KeyBytes(State(r.table, r.id)), Serialize(r.record))
  }

  /** The entries from `lo` on are the rows of `t` under `ids`. */
  ghost predicate ListsRows(db: seq<Entry>, lo: nat, t: Table, rows: map<Id, Record>, ids: seq<Id>) {
    && lo + |ids| <= |db|
    && forall i | 0 <= i < |ids| :: ids[i] in rows && db[lo + i] == EntryOf(Row(t, ids[i], rows[ids[i]]))
  }

  lemma ScanIncreases(db: seq<Entry>, lo: nat, t: Table, rows: map<Id, Record>, ids: seq<Id>)
    requires Ascending(db) && ListsRows(db, lo, t, rows, ids)
    ensures Increasing(ids)
  {
    hide KeyBytes, Serialize, Less;
    forall i, j | 0 <= i < j < |ids| ensures ids[i] < ids[j] {
      assert Less(db[lo + i].key, db[lo + j].key);
      StateKeyOrder(t, ids[i], ids[j]);
    }
  }

  lemma ScanMissesNone(db: seq<Entry>, contents: map<Key, Bytes>, t: Table, rows: map<Id, Record>, ids: seq<Id>, id: Id)
    requires Ascending(db) && Mirrors(db, contents) && ListsRows(db, LowerBound(db, Prefix(t)), t, rows, ids)
    requires StopsAt(db, Prefix(t), LowerBound(db, Prefix(t)) + |ids|)
    requires Lookup(contents, State(t, id)) == Stored(rows, id) && id in rows
    ensures id in ids
  {
    hide KeyBytes, Serialize, Prefix, LowerBound, Ascending;
    var lo := LowerBound(db, Prefix(t));
    assert State(t, id) in contents;
    assert Entry(KeyBytes(State(t, id)), contents[State(t, id)]) in db;
    var i :| 0 <= i < |db| && db[i] == Entry(KeyBytes(State(t, id)), contents[State(t, id)]);
    OnlyItsTable(t, State(t, id));
    ScanIsExact(db, Prefix(t), lo + |ids|, i);
    assert db[lo + (i - lo)] == db[i];
    KeysDiffer(State(t, id), State(t, ids[i - lo]));
  }

  /** A scan that starts at the prefix of `t` and stops at the first other key visits the rows of `t`, each once, in
      the order of their identifiers. */
  lemma ScanListsTable(db: seq<Entry>, contents: map<Key, Bytes>, l: Ledger, t: Table, hi: nat)
    requires Ascending(db) && Mirrors(db, contents) && StopsAt(db, Prefix(t), hi)
    requires forall id :: Lookup(contents, State(t, id)) == Stored(RowsOf(l, t), id)
    ensures var lo := LowerBound(db, Prefix(t));
            |RowsIn(l, t)| == hi - lo && forall i | 0 <= i < hi - lo :: db[lo + i] == EntryOf(RowsIn(l, t)[i])
  {
    hide KeyBytes, Prefix, LowerBound, Serialize, RowsOf, Ascending, Mirrors, Stored;
    var rows := RowsOf(l, t);
    var ids := ScanVisitsRows(db, contents, rows, t, hi, hi);
    ScanIncreases(db, LowerBound(db, Prefix(t)), t, rows, ids);
    forall id | id in rows ensures id in ids {
      ScanMissesNone(db, contents, t, rows, ids, id);
    }
    SortedIdsUnique(ids, rows.Keys);
  }

  /** What the hasher is fed for a list of entries. */
  function Hashed(entries: seq<Entry>): Bytes {
    if entries == [] then []
    else Hashed(entries[..|entries| - 1]) + entries[|entries| - 1].key + entries[|entries| - 1].value
  }

  lemma {:induction false} HashedRows(entries: seq<Entry>, rows: seq<Row>)
    requires |entries| == |rows| && forall i | 0 <= i < |rows| :: entries[i] == EntryOf(rows[i])
    ensures Hashed(entries) == ImageOf(rows)
  {
    if rows != [] {
      hide KeyBytes, Serialize;
      var n := |rows| - 1;
      HashedRows(entries[..n], rows[..n]);
      ConcatAssociates(Hashed(entries[..n]), entries[n].key, entries[n].value);
    }
  }

  lemma HashedNothing(before: Bytes, db: seq<Entry>, start: nat)
    requires start <= |db|
    ensures before + Hashed(db[start..start]) == before
  {
  }

  lemma HashedStep(before: Bytes, db: seq<Entry>, start: nat, i: nat)
    requires start <= i < |db|
    ensures before + Hashed(db[start..i]) + db[i].key + db[i].value == before + Hashed(db[start..i + 1])
  {
    assert db[start..i + 1][..i - start] == db[start..i];
    var sofar := Hashed(db[start..i]);
    ConcatAssociates(before, sofar, db[i].key);
    ConcatAssociates(before, sofar + db[i].key, db[i].value);
  }

  /** One scan adds one table to what the hasher has been fed. */
  lemma ScanFeedsTable(db: seq<Entry>, contents: map<Key, Bytes>, l: Ledger, blocks: map<u64, Bytes>,
                       latest: Option<u64>,
                       n: nat, hi: nat)
    requires n < |TABLES|
    requires Ascending(db) && Mirrors(db, contents) && Represents(contents, l, blocks, latest)
    requires StopsAt(db, Prefix(TABLES[n]), hi)
    ensures ImageOf(RowsUpTo(l, n)) + Hashed(db[LowerBound(db, Prefix(TABLES[n]))..hi]) == ImageOf(RowsUpTo(l, n + 1))
  {
    hide KeyBytes, Prefix, RowsIn, LowerBound, Serialize, RowsOf, Mirrors, Ascending, ImageOf, Hashed;
    ScanListsTable(db, contents, l, TABLES[n], hi);
    HashedRows(db[LowerBound(db, Prefix(TABLES[n]))..hi], RowsIn(l, TABLES[n]));
    ImageOfConcat(RowsUpTo(l, n), RowsIn(l, TABLES[n]));
  }

  /** Nothing stored, bytes that do not decode, or a record. */
  datatype Loaded = Missing | Corrupt | Found(record: Record)

  class KvStore {
    const hash: Bytes -> Hash
    var db: seq<Entry>
    ghost var contents: map<Key, Bytes>
    ghost var ledger: Ledger
    ghost var blocks: map<u64, Bytes>
    ghost var latest: Option<u64>

    ghost predicate Valid()
      reads this
    {
      Ascending(db) && Mirrors(db, contents) && Represents(contents, ledger, blocks, latest)
    }

    constructor (hash: Bytes -> Hash)
      ensures Valid() && this.hash == hash
      ensures ledger == Ledger(Tables(map[], map[], map[], map[], map[], map[]), map[])
      ensures blocks == map[] && latest == None
    {
      this.hash := hash;
      db, contents := [], map[];
      ledger := Ledger(Tables(map[], map[], map[], map[], map[], map[]), map[]);
      blocks, latest := map[], None;
    }

    method Get(k: Key) returns (value: Option<Bytes>)
      requires Valid()
      ensures value == Lookup(contents, k)
    {
      FindMirrors(db, contents, k);
      value := Find(db, KeyBytes(k));
    }

    method Put(k: Key, value: Bytes)
      requires Ascending(db) && Mirrors(db, contents)
      modifies `db, `contents
      ensures Ascending(db) && Mirrors(db, contents)
      ensures contents == old(contents)[k := value]
    {
      InsertStaysAscending(db, KeyBytes(k), value);
      PutMirrors(db, contents, k, value);
      db := Insert(db, KeyBytes(k), value);
      contents := contents[k := value];
    }

    /** `get_state`: reads and decodes exactly the record last written under this table and key. */
    method GetState(t: Table, id: Id) returns (loaded: Loaded)
      requires Valid()
      ensures loaded == Missing <==> id !in RowsOf(ledger, t)
      ensures id in RowsOf(ledger, t) && RowsOf(ledger, t)[id].Fits() ==> loaded == Found(RowsOf(ledger, t)[id])
    {
      hide Serialize, Deserialize, KeyBytes, RowsOf;
      var value := Get(State(t, id));
      assert value == Stored(RowsOf(ledger, t), id);
      if value.None? {
        return Missing;
      }
      var record := Deserialize(t, value.value);
      loaded := if record.Some? then Found(record.value.value) else Corrupt;
      if RowsOf(ledger, t)[id].Fits() {
        DeserializeSerialized(RowsOf(ledger, t)[id], []);
        assert value.value + [] == value.value;
      }
    }

    method SetState(id: Id, r: Record)
      requires Valid()
      modifies `db, `contents, `ledger
      ensures Valid() && ledger == With(old(ledger), id, r)
    {
      hide Mirrors, Represents, KeyBytes, With;
      Put(State(r.Table(), id), Serialize(r));
      RepresentsWith(old(contents), ledger, blocks, latest, id, r);
      ledger := With(ledger, id, r);
    }

    method GetNonce(sender: Id) returns (nonce: u64)
      requires Valid()
      ensures nonce == ledger.Nonce(sender)
    {
      var found := Get(State(Nonces, sender));
      NonceStored(ledger, sender);
      if found.Some? && |found.value| == 8 {
        WidthLimits();
        nonce := FromBigEndian(found.value);
      } else {
        nonce := 0;
      }
    }

    method PutBlock(height: u64, block: Bytes)
      requires Valid()
      modifies `db, `contents, `blocks, `latest
      ensures Valid() && blocks == old(blocks)[height := block] && latest == Some(height)
    {
      hide Mirrors, Represents, KeyBytes;
      Put(BlockAt(height), block);
      Put(LatestHeight, NonceBytes(height));
      RepresentsBlock(old(contents), ledger, blocks, latest, height, block);
      blocks := blocks[height := block];
      latest := Some(height);
    }

    method GetBlock(height: u64) returns (block: Option<Bytes>)
      requires Valid()
      ensures block == Lookup(blocks, height)
    {
      block := Get(BlockAt(height));
    }

    method GetLatestHeight() returns (height: u64)
      requires Valid()
      ensures height == if latest.Some? then latest.value else 0
    {
      var found := Get(LatestHeight);
      if found.Some? && |found.value| == 8 {
        WidthLimits();
        height := FromBigEndian(found.value);
      } else {
        height := 0;
      }
    }

    /** The root depends on the state tables alone: not on the order of the writes, the blocks or the latest height. */
    method ComputeStateRoot() returns (root: Hash)
      requires Valid()
      ensures root == hash(LedgerImage(ledger))
    {
      var fed: Bytes := [];
      assert fed == ImageOf(RowsUpTo(ledger, 0));
      hide *;
      var n := 0;
      while n < |TABLES|
        invariant n <= |TABLES| && fed == ImageOf(RowsUpTo(ledger, n))
      {
        fed := Feed(n, fed);
        n := n + 1;
      }
      assert LedgerImage(ledger) == ImageOf(RowsUpTo(ledger, |TABLES|)) by { ImageIsAllRows(ledger); }
      root := hash(fed);
    }

    /** The scan of one table. */
    method Feed(n: nat, before: Bytes) returns (fed: Bytes)
      requires Valid() && n < |TABLES| && before == ImageOf(RowsUpTo(ledger, n))
      ensures fed == ImageOf(RowsUpTo(ledger, n + 1))
    {
      hide Prefix, RowsUpTo, ImageOf, LowerBound, Mirrors, Ascending, Represents, StopsAt, Hashed, KeyBytes;
      var end;
      fed, end := FeedTable(db, Prefix(TABLES[n]), before);
      ScanFeedsTable(db, contents, ledger, blocks, latest, n, end);
    }
  }

  lemma ImageIsAllRows(l: Ledger)
    ensures LedgerImage(l) == ImageOf(RowsUpTo(l, |TABLES|))
  {
  }

  /** The inner loop: from the lower bound of the prefix to the first key without it. */
  method FeedTable(db: seq<Entry>, prefix: Bytes, before: Bytes) returns (fed: Bytes, end: nat)
    ensures StopsAt(db, prefix, end)
    ensures fed == before + Hashed(db[LowerBound(db, prefix)..end])
  {
    hide LowerBound, Hashed, StartsWith;
    var start := LowerBound(db, prefix);
    var i := start;
    fed := before;
    HashedNothing(before, db, start);
    while i < |db| && StartsWith(db[i].key, prefix)
      invariant start <= i <= |db|
      invariant forall j | start <= j < i :: StartsWith(db[j].key, prefix)
      invariant fed == before + Hashed(db[start..i])
    {
      HashedStep(before, db, start, i);
      fed := fed + db[i].key;
      fed := fed + db[i].value;
      i := i + 1;
    }
    end := i;
  }

  lemma NonceStored(l: Ledger, sender: Id)
    ensures Stored(RowsOf(l, Nonces), sender)
         == if sender in l.nonces then Some(NonceBytes(l.nonces[sender])) else None
  {
    if sender in l.nonces {
      var f := Raw(NonceBytes(l.nonces[sender]));
      assert Fields(NonceRecord(l.nonces[sender])) == [f] && [f][1..] == [];
      assert WriteAll([f]) == Write(f) + WriteAll([]) == Write(f);
      assert RowsOf(l, Nonces)[sender] == NonceRecord(l.nonces[sender]);
    }
  }

  lemma RepresentsWith(contents: map<Key, Bytes>, l: Ledger, blocks: map<u64, Bytes>, latest: Option<u64>, id: Id,
                       r: Record)
    requires Represents(contents, l, blocks, latest)
    ensures Represents(contents[State(r.Table(), id) := Serialize(r)], With(l, id, r), blocks, latest)
  {
    hide RowsOf, With, Serialize;
    var contents' := contents[State(r.Table(), id) := Serialize(r)];
    forall t, key ensures Lookup(contents', State(t, key)) == Stored(RowsOf(With(l, id, r), t), key) {
      WithRows(l, id, r, t);
    }
  }

  lemma RepresentsBlock(contents: map<Key, Bytes>, l: Ledger, blocks: map<u64, Bytes>, latest: Option<u64>, height: u64,
                        block: Bytes)
    requires Represents(contents, l, blocks, latest)
    ensures Represents(contents[BlockAt(height) := block][LatestHeight := NonceBytes(height)], l,
                       blocks[height := block],
                       Some(height))
  {
    hide RowsOf, Serialize;
  }

  /** Unless their images collide, two databases have equal roots exactly when all seven state tables are equal. */
  lemma EqualRootsIff(hash: Bytes -> Hash, l: Ledger, m: Ledger)
    requires l.Fits() && m.Fits()
    requires hash(LedgerImage(l)) == hash(LedgerImage(m)) ==> LedgerImage(l) == LedgerImage(m)
    ensures hash(LedgerImage(l)) == hash(LedgerImage(m)) <==> l == m
  {
    hide LedgerImage;
    if hash(LedgerImage(l)) == hash(LedgerImage(m)) {
      LedgerImageInjective(l, m);
    }
  }
}
