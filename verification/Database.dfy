/** The sorted byte-keyed database under rc-store: put, get and forward iteration, infallible. */
module Database {
  import opened Types
  import opened Bytes

  datatype Entry = Entry(key: Bytes, value: Bytes)

  ghost predicate Ascending(db: seq<Entry>) {
    forall i, j | 0 <= i < j < |db| :: Less(db[i].key, db[j].key)
  }

  /** Where an iterator that starts at `key` begins. */
  function LowerBound(db: seq<Entry>, key: Bytes): (pos: nat)
    ensures pos <= |db|
    ensures forall i | 0 <= i < pos :: Less(db[i].key, key)
    ensures pos < |db| ==> !Less(db[pos].key, key)
  {
    if db == [] || !Less(db[0].key, key) then 0 else 1 + LowerBound(db[1..], key)
  }

  function Find(db: seq<Entry>, key: Bytes): Option<Bytes> {
    var pos := LowerBound(db, key);
    if pos < |db| && db[pos].key == key then Some(db[pos].value) else None
  }

  function Insert(db: seq<Entry>, key: Bytes, value: Bytes): seq<Entry> {
    var pos := LowerBound(db, key);
    if pos < |db| && db[pos].key == key then db[pos := Entry(key, value)]
    else db[..pos] + [Entry(key, value)] + db[pos..]
  }

  lemma AtOrAfter(db: seq<Entry>, key: Bytes, i: nat)
    requires Ascending(db) && LowerBound(db, key) <= i < |db|
    ensures !Less(db[i].key, key)
    ensures i > LowerBound(db, key) ==> db[i].key != key
  {
    var pos := LowerBound(db, key);
    if i > pos {
      if Less(db[i].key, key) {
        LessTransitive(db[pos].key, db[i].key, key);
      }
    }
  }

  lemma FindsExactly(db: seq<Entry>, key: Bytes, value: Bytes)
    requires Ascending(db)
    ensures Find(db, key) == Some(value) <==> Entry(key, value) in db
  {
    var pos := LowerBound(db, key);
    LessTrichotomy(key, key);
    if Entry(key, value) in db {
      var i :| 0 <= i < |db| && db[i] == Entry(key, value);
      if i >= pos {
        AtOrAfter(db, key, i);
      }
    }
  }

  lemma InsertStaysAscending(db: seq<Entry>, key: Bytes, value: Bytes)
    requires Ascending(db)
    ensures Ascending(Insert(db, key, value))
  {
    var pos := LowerBound(db, key);
    forall i | pos <= i < |db| ensures (db[i].key == key && i == pos) || Less(key, db[i].key) {
      AtOrAfter(db, key, i);
      LessTrichotomy(db[i].key, key);
    }
  }

  /** A put replaces the entry of its key and touches no other. */
  lemma InsertMembers(db: seq<Entry>, key: Bytes, value: Bytes, e: Entry)
    requires Ascending(db)
    ensures e in Insert(db, key, value) <==> e == Entry(key, value) || (e in db && e.key != key)
  {
    var pos := LowerBound(db, key);
    var db' := Insert(db, key, value);
    LessTrichotomy(key, key);
    if pos < |db| && db[pos].key == key {
      assert db' == db[..pos] + [Entry(key, value)] + db[pos + 1..] && db == db[..pos] + [db[pos]] + db[pos + 1..];
      forall i | pos < i < |db| ensures db[i].key != key {
        AtOrAfter(db, key, i);
      }
    } else {
      assert db == db[..pos] + db[pos..];
      forall i | pos <= i < |db| ensures db[i].key != key {
        AtOrAfter(db, key, i);
      }
    }
  }

  // ── Prefix scans ──

  lemma {:induction false} PrefixNotLess(prefix: Bytes, key: Bytes)
    requires prefix <= key
    ensures !Less(key, prefix)
  {
    if prefix != [] {
      PrefixNotLess(prefix[1..], key[1..]);
    }
  }

  /** Keys that share a prefix are neighbours, and the first of them is where an iterator from the prefix starts. */
  lemma {:induction false} PrefixConvex(prefix: Bytes, a: Bytes, b: Bytes)
    requires !Less(a, prefix) && Less(a, b) && prefix <= b
    ensures prefix <= a
  {
    if prefix != [] {
      PrefixConvex(prefix[1..], a[1..], b[1..]);
    }
  }

  predicate StartsWith(key: Bytes, prefix: Bytes) {
    prefix <= key
  }

  /** `hi` is where a scan from `prefix` stops: at the end, or at the first key without the prefix. */
  predicate StopsAt(db: seq<Entry>, prefix: Bytes, hi: nat) {
    && LowerBound(db, prefix) <= hi <= |db|
    && (forall i | LowerBound(db, prefix) <= i < hi :: StartsWith(db[i].key, prefix))
    && (hi < |db| ==> !StartsWith(db[hi].key, prefix))
  }

  /** A scan sees exactly the entries whose keys have the prefix. */
  lemma ScanIsExact(db: seq<Entry>, prefix: Bytes, hi: nat, i: nat)
    requires Ascending(db) && StopsAt(db, prefix, hi) && i < |db|
    ensures StartsWith(db[i].key, prefix) <==> LowerBound(db, prefix) <= i < hi
  {
    if StartsWith(db[i].key, prefix) {
      PrefixNotLess(prefix, db[i].key);
      if i > hi {
        AtOrAfter(db, prefix, hi);
        PrefixConvex(prefix, db[hi].key, db[i].key);
      }
    }
  }
}
