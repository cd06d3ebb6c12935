/** bincode layouts of the state records: little-endian integers, 8-byte lengths, 1-byte option tags, 4-byte enum
    variants, and identifiers as their 32 bytes. Reading a written record gives it back, whatever follows. */
module Codec {
  import opened Types
  import opened Bytes

  // ── Fields ──

  /** What bincode writes for one field: raw bytes, an optional item, or a length and that many rows. */
  datatype Field = Raw(bytes: Bytes) | Tagged(item: Option<Bytes>) | Rows(width: nat, rows: seq<Bytes>)

  function Flat(rows: seq<Bytes>): Bytes {
    if rows == [] then [] else rows[0] + Flat(rows[1..])
  }

  function Write(f: Field): Bytes {
    match f
    case Raw(bytes) => bytes
    case Tagged(None) => [0]
    case Tagged(Some(item)) => [1] + item
    case Rows(_, rows) => LittleEndian(|rows|, 8) + Flat(rows)
  }

  function WriteAll(fs: seq<Field>): Bytes {
    if fs == [] then [] else Write(fs[0]) + WriteAll(fs[1..])
  }

  predicate Even(width: nat, rows: seq<Bytes>) {
    forall i | 0 <= i < |rows| :: |rows[i]| == width
  }

  predicate Uniform(width: nat, rows: seq<Bytes>) {
    |rows| < U64_LIMIT && Even(width, rows)
  }

  /** What a reader expects: so many bytes, an option of so many, or a length and rows of so many. */
  datatype Shape = Fixed(width: nat) | Optional(width: nat) | Listed(width: nat)

  predicate Fits(f: Field, shape: Shape) {
    match (f, shape)
    case (Raw(bytes), Fixed(width)) => |bytes| == width
    case (Tagged(item), Optional(width)) => item.Some? ==> |item.value| == width
    case (Rows(w, rows), Listed(width)) => w == width && Uniform(width, rows)
    case _ => false
  }

  predicate FitAll(fs: seq<Field>, shapes: seq<Shape>) {
    |fs| == |shapes| && forall i | 0 <= i < |fs| :: Fits(fs[i], shapes[i])
  }

  // ── Reading ──

  datatype Read<T> = Read(value: T, rest: Bytes)

  function ReadRows(width: nat, n: nat, b: Bytes): (r: Option<Read<seq<Bytes>>>)
    ensures r.Some? ==> |r.value.value| == n && Even(width, r.value.value)
  {
    if n == 0 then Some(Read([], b))
    else if |b| < width then None
    else
      var more := ReadRows(width, n - 1, b[width..]);
      if more.Some? then Some(Read([b[..width]] + more.value.value, more.value.rest)) else None
  }

  function ReadField(shape: Shape, b: Bytes): (r: Option<Read<Field>>)
    ensures r.Some? ==> Fits(r.value.value, shape)
  {
    WidthLimits();
    match shape
    case Fixed(width) => if |b| < width then None else Some(Read(Raw(b[..width]), b[width..]))
    case Optional(width) =>
      if b == [] then None
      else if b[0] == 0 then Some(Read(Tagged(None), b[1..]))
      else if b[0] == 1 && |b| > width then Some(Read(Tagged(Some(b[1..width + 1])), b[width + 1..]))
      else None
    case Listed(width) =>
      if |b| < 8 then None
      else
        var rows := ReadRows(width, FromLittleEndian(b[..8]), b[8..]);
        if rows.Some? then Some(Read(Rows(width, rows.value.value), rows.value.rest)) else None
  }

  function ReadAll(shapes: seq<Shape>, b: Bytes): (r: Option<Read<seq<Field>>>)
    ensures r.Some? ==> FitAll(r.value.value, shapes)
  {
    if shapes == [] then Some(Read([], b))
    else
      var first := ReadField(shapes[0], b);
      if first.None? then None
      else
        var more := ReadAll(shapes[1..], first.value.rest);
        if more.Some? then Some(Read([first.value.value] + more.value.value, more.value.rest)) else None
  }

  lemma SplitConcat(a: Bytes, r: Bytes, b: Bytes, s: Bytes)
    requires |a| == |b| && a + r == b + s
    ensures a == b && r == s
  {
    assert a == (a + r)[..|a|] && b == (b + s)[..|a|];
    assert r == (a + r)[|a|..] && s == (b + s)[|a|..];
  }

  lemma ConcatAssociates(a: Bytes, b: Bytes, c: Bytes)
    ensures a + b + c == a + (b + c)
  {
  }

  lemma {:induction false} ReadFlat(width: nat, rows: seq<Bytes>, rest: Bytes)
    requires Uniform(width, rows)
    ensures ReadRows(width, |rows|, Flat(rows) + rest) == Some(Read(rows, rest))
  {
    if rows == [] {
      assert [] + rest == rest;
    } else {
      ReadFlat(width, rows[1..], rest);
      ConcatAssociates(rows[0], Flat(rows[1..]), rest);
      var b := rows[0] + (Flat(rows[1..]) + rest);
      assert b[..width] == rows[0] && b[width..] == Flat(rows[1..]) + rest;
      assert [rows[0]] + rows[1..] == rows;
    }
  }

  lemma ReadListed(width: nat, rows: seq<Bytes>, rest: Bytes)
    requires Uniform(width, rows)
    ensures ReadField(Listed(width), Write(Rows(width, rows)) + rest) == Some(Read(Rows(width, rows), rest))
  {
    hide LittleEndian, FromLittleEndian, Flat, ReadRows;
    WidthLimits();
    LittleEndianRoundTrip(|rows|, 8);
    var n := LittleEndian(|rows|, 8);
    var b := n + Flat(rows) + rest;
    ConcatAssociates(n, Flat(rows), rest);
    assert b[..8] == n && b[8..] == Flat(rows) + rest;
    ReadFlat(width, rows, rest);
  }

  lemma ReadOptional(width: nat, item: Option<Bytes>, rest: Bytes)
    requires Fits(Tagged(item), Optional(width))
    ensures ReadField(Optional(width), Write(Tagged(item)) + rest) == Some(Read(Tagged(item), rest))
  {
    var b := Write(Tagged(item)) + rest;
    if item.Some? {
      assert b[1..width + 1] == item.value && b[width + 1..] == rest;
    } else {
      assert b[1..] == rest;
    }
  }

  lemma ReadWritten(f: Field, shape: Shape, rest: Bytes)
    requires Fits(f, shape)
    ensures ReadField(shape, Write(f) + rest) == Some(Read(f, rest))
  {
    match f {
      case Raw(bytes) => assert (bytes + rest)[..|bytes|] == bytes && (bytes + rest)[|bytes|..] == rest;
      case Tagged(item) => ReadOptional(shape.width, item, rest);
      case Rows(width, rows) => ReadListed(width, rows, rest);
    }
  }

  lemma {:induction false} ReadAllWritten(fs: seq<Field>, shapes: seq<Shape>, rest: Bytes)
    requires FitAll(fs, shapes)
    ensures ReadAll(shapes, WriteAll(fs) + rest) == Some(Read(fs, rest))
  {
    hide Write, Fits, ReadField;
    if fs == [] {
      assert [] + rest == rest;
    } else {
      ConcatAssociates(Write(fs[0]), WriteAll(fs[1..]), rest);
      ReadWritten(fs[0], shapes[0], WriteAll(fs[1..]) + rest);
      ReadAllWritten(fs[1..], shapes[1..], rest);
      assert [fs[0]] + fs[1..] == fs;
    }
  }

  // ── Rust types ──

  function IdBytes(id: Id): (b: Bytes)
    ensures |b| == 32 && IdFrom(b) == id
  {
    WidthLimits();
    BigEndianRoundTrip(id, 32);
    BigEndian(id, 32)
  }

  function IdFrom(b: Bytes): Id
    requires |b| == 32
  {
    WidthLimits();
    FromBigEndian(b)
  }

  function U64Bytes(n: u64): (b: Bytes)
    ensures |b| == 8 && U64From(b) == n
  {
    WidthLimits();
    LittleEndianRoundTrip(n, 8);
    LittleEndian(n, 8)
  }

  function U64From(b: Bytes): u64
    requires |b| == 8
  {
    WidthLimits();
    FromLittleEndian(b)
  }

  /** i64 in two's complement. */
  function I64Bytes(n: i64): (b: Bytes)
    ensures |b| == 8 && I64From(b) == n
  {
    U64Bytes(if n >= 0 then n else n + U64_LIMIT)
  }

  function I64From(b: Bytes): i64
    requires |b| == 8
  {
    if U64From(b) < I64_LIMIT then U64From(b) else U64From(b) - U64_LIMIT
  }

  function U32Bytes(n: u32): (b: Bytes)
    ensures |b| == 4 && U32From(b) == n
  {
    WidthLimits();
    LittleEndianRoundTrip(n, 4);
    LittleEndian(n, 4)
  }

  function U32From(b: Bytes): u32
    requires |b| == 4
  {
    WidthLimits();
    FromLittleEndian(b)
  }

  /** A nonce is not a bincode record: `set_nonce` stores its eight bytes, most significant first. */
  function NonceBytes(n: u64): (b: Bytes)
    ensures |b| == 8 && NonceFrom(b) == n
  {
    WidthLimits();
    BigEndianRoundTrip(n, 8);
    BigEndian(n, 8)
  }

  function NonceFrom(b: Bytes): u64
    requires |b| == 8
  {
    WidthLimits();
    FromBigEndian(b)
  }

  function TextRows(s: Text): (rows: seq<Bytes>)
    ensures Uniform(1, rows) && |rows| == |s| && TextFrom(rows) == s
  {
    var rows := seq(|s|, i requires 0 <= i < |s| => [s[i]]);
    assert TextFrom(rows) == s;
    rows
  }

  function TextFrom(rows: seq<Bytes>): Text
    requires Uniform(1, rows)
  {
    seq(|rows|, i requires 0 <= i < |rows| => rows[i][0])
  }

  function VoteRow(v: DisputeVote): (b: Bytes)
    ensures |b| == 41 && VoteFrom(b) == v
  {
    var b := IdBytes(v.voter) + [v.decision] + I64Bytes(v.votedAt);
    assert b[..32] == IdBytes(v.voter) && b[33..] == I64Bytes(v.votedAt);
    b
  }

  function VoteFrom(b: Bytes): DisputeVote
    requires |b| == 41
  {
    DisputeVote(IdFrom(b[..32]), b[32], I64From(b[33..]))
  }

  function VoteRows(votes: seq<DisputeVote>): (rows: seq<Bytes>)
    ensures |rows| == |votes| && Even(41, rows) && VotesFrom(rows) == votes
  {
    var rows := seq(|votes|, i requires 0 <= i < |votes| => VoteRow(votes[i]));
    assert VotesFrom(rows) == votes;
    rows
  }

  function VotesFrom(rows: seq<Bytes>): seq<DisputeVote>
    requires Even(41, rows)
  {
    seq(|rows|, i requires 0 <= i < |rows| => VoteFrom(rows[i]))
  }

  function HashRows(hashes: seq<Hash>): (rows: seq<Bytes>)
    ensures |rows| == |hashes| && Even(32, rows) && HashesFrom(rows) == hashes
  {
    var rows := seq(|hashes|, i requires 0 <= i < |hashes| => IdBytes(hashes[i]));
    assert HashesFrom(rows) == hashes;
    rows
  }

  function HashesFrom(rows: seq<Bytes>): seq<Hash>
    requires Even(32, rows)
  {
    seq(|rows|, i requires 0 <= i < |rows| => IdFrom(rows[i]))
  }

  function EscrowVariant(s: EscrowState): (n: u32)
    ensures EscrowStateFrom(n) == Some(s)
  {
    match s
    case Created => 0
    case Funded => 1
    case Released => 2
    case Refunded => 3
    case Disputed => 4
  }

  function EscrowStateFrom(n: u32): Option<EscrowState> {
    if n == 0 then Some(Created)
    else if n == 1 then Some(Funded)
    else if n == 2 then Some(Released)
    else if n == 3 then Some(EscrowState.Refunded)
    else if n == 4 then Some(Disputed)
    else None
  }

  function DisputeVariant(s: DisputeState): (n: u32)
    ensures DisputeStateFrom(n) == Some(s)
  {
    match s
    case Raised => 0
    case Evidence => 1
    case Voting => 2
    case Resolved => 3
  }

  function DisputeStateFrom(n: u32): Option<DisputeState> {
    if n == 0 then Some(Raised)
    else if n == 1 then Some(Evidence)
    else if n == 2 then Some(Voting)
    else if n == 3 then Some(Resolved)
    else None
  }

  // ── Records ──

  datatype Table = Participants | Settlements | Balances | Escrows | Disputes | Nonces | Anchors

  datatype Record =
    | ParticipantRecord(participant: Participant)
    | SettlementRow(settlement: SettlementRecord)
    | BalanceRecord(balance: Balance)
    | EscrowRecord(escrow: Escrow)
    | DisputeRecord(dispute: Dispute)
    | NonceRecord(nonce: u64)
    | AnchorRow(anchor: AnchorRecord)
  {
    function Table(): Table {
      match this
      case ParticipantRecord(_) => Participants
      case SettlementRow(_) => Settlements
      case BalanceRecord(_) => Balances
      case EscrowRecord(_) => Escrows
      case DisputeRecord(_) => Disputes
      case NonceRecord(_) => Nonces
      case AnchorRow(_) => Anchors
    }

    predicate Fits() {
      DisputeRecord? ==> dispute.Fits()
    }
  }

  const ID: Shape := Fixed(32)
  const WORD: Shape := Fixed(8)

  function ParticipantFields(p: Participant): seq<Field> {
    [Raw(IdBytes(p.id)), Raw([p.pType]), Rows(1, TextRows(p.metadata)), Raw(U64Bytes(p.totalTx)),
     Raw(U64Bytes(p.successTx)), Raw(U64Bytes(p.disputeCount)), Raw(U64Bytes(p.disputeWon)),
     Raw(U64Bytes(p.ratingSum)), Raw(U64Bytes(p.ratingCount)), Raw(U64Bytes(p.totalVolume)),
     Raw(U64Bytes(p.totalSettled)), Raw(I64Bytes(p.registeredAt)), Raw(I64Bytes(p.lastActivityAt)),
     Raw([if p.isActive then 1 else 0])]
  }

  function SettlementFields(s: SettlementRecord): seq<Field> {
    [Raw(IdBytes(s.recordId)), Raw(IdBytes(s.participantId)), Raw(U64Bytes(s.grossAmount)),
     Raw(U64Bytes(s.platformFee)), Raw(U64Bytes(s.netAmount)), Raw(U32Bytes(s.currency)), Raw(I64Bytes(s.settledAt)),
     Raw(I64Bytes(s.recordedAt))]
  }

  function BalanceFields(b: Balance): seq<Field> {
    [Raw(IdBytes(b.owner)), Raw(U64Bytes(b.earned)), Raw(U64Bytes(b.purchased))]
  }

  function OptionalId(id: Option<Id>): Field {
    Tagged(if id.Some? then Some(IdBytes(id.value)) else None)
  }

  function EscrowFields(e: Escrow): seq<Field> {
    [Raw(IdBytes(e.id)), Raw(IdBytes(e.buyer)), Raw(IdBytes(e.seller)), Raw(U64Bytes(e.amount)),
     Raw(U32Bytes(EscrowVariant(e.state))), Raw(I64Bytes(e.createdAt)), Raw(I64Bytes(e.expiresAt)),
     OptionalId(e.evidenceHash), OptionalId(e.disputeId)]
  }

  function DisputeFields(d: Dispute): seq<Field> {
    [Raw(IdBytes(d.id)), Raw(IdBytes(d.escrowId)), Raw(IdBytes(d.raisedBy)), Raw([d.reason]),
     Rows(32, HashRows(d.evidenceHashes)), Rows(41, VoteRows(d.votes)), Raw(U32Bytes(DisputeVariant(d.state))),
     Tagged(if d.resolution.Some? then Some([d.resolution.value]) else None), Raw(I64Bytes(d.raisedAt)),
     Tagged(if d.resolvedAt.Some? then Some(I64Bytes(d.resolvedAt.value)) else None)]
  }

  function AnchorFields(a: AnchorRecord): seq<Field> {
    [Raw(IdBytes(a.batchId)), Raw(IdBytes(a.merkleRoot)), Raw(U64Bytes(a.entryCount)), Raw(U64Bytes(a.fromEntryId)),
     Raw(U64Bytes(a.toEntryId)), Raw(I64Bytes(a.anchoredAt))]
  }

  function Fields(r: Record): seq<Field> {
    match r
    case ParticipantRecord(p) => ParticipantFields(p)
    case SettlementRow(s) => SettlementFields(s)
    case BalanceRecord(b) => BalanceFields(b)
    case EscrowRecord(e) => EscrowFields(e)
    case DisputeRecord(d) => DisputeFields(d)
    case NonceRecord(n) => [Raw(NonceBytes(n))]
    case AnchorRow(a) => AnchorFields(a)
  }

  function Serialize(r: Record): Bytes {
    WriteAll(Fields(r))
  }

  // ── Records from fields ──

  function Shapes(t: Table): seq<Shape> {
    match t
    case Participants =>
      [ID, Fixed(1), Listed(1), WORD, WORD, WORD, WORD, WORD, WORD, WORD, WORD, WORD, WORD, Fixed(1)]
    case Settlements => [ID, ID, WORD, WORD, WORD, Fixed(4), WORD, WORD]
    case Balances => [ID, WORD, WORD]
    case Escrows => [ID, ID, ID, WORD, Fixed(4), WORD, WORD, Optional(32), Optional(32)]
    case Disputes => [ID, ID, ID, Fixed(1), Listed(32), Listed(41), Fixed(4), Optional(1), WORD, Optional(8)]
    case Nonces => [WORD]
    case Anchors => [ID, ID, WORD, WORD, WORD, WORD]
  }

  function IdIn(f: Field): Id
    requires Fits(f, ID)
  {
    IdFrom(f.bytes)
  }

  function U64In(f: Field): u64
    requires Fits(f, WORD)
  {
    U64From(f.bytes)
  }

  function I64In(f: Field): i64
    requires Fits(f, WORD)
  {
    I64From(f.bytes)
  }

  function OptionalIdIn(f: Field): Option<Id>
    requires Fits(f, Optional(32))
  {
    if f.item.Some? then Some(IdFrom(f.item.value)) else None
  }

  function ParticipantFrom(fs: seq<Field>): Option<Record>
    requires FitAll(fs, Shapes(Participants))
  {
    var active := fs[13].bytes[0];
    if active > 1 then None
    else
      Some(ParticipantRecord(Participant(
        IdIn(fs[0]), fs[1].bytes[0], TextFrom(fs[2].rows), U64In(fs[3]), U64In(fs[4]), U64In(fs[5]), U64In(fs[6]),
        U64In(fs[7]), U64In(fs[8]), U64In(fs[9]), U64In(fs[10]), I64In(fs[11]), I64In(fs[12]), active == 1)))
  }

  function SettlementFrom(fs: seq<Field>): Record
    requires FitAll(fs, Shapes(Settlements))
  {
    SettlementRow(SettlementRecord(IdIn(fs[0]), IdIn(fs[1]), U64In(fs[2]), U64In(fs[3]), U64In(fs[4]),
                                   U32From(fs[5].bytes), I64In(fs[6]), I64In(fs[7])))
  }

  function EscrowFrom(fs: seq<Field>): Option<Record>
    requires FitAll(fs, Shapes(Escrows))
  {
    var state := EscrowStateFrom(U32From(fs[4].bytes));
    if state.None? then None
    else
      Some(EscrowRecord(Escrow(IdIn(fs[0]), IdIn(fs[1]), IdIn(fs[2]), U64In(fs[3]), state.value, I64In(fs[5]),
                               I64In(fs[6]), OptionalIdIn(fs[7]), OptionalIdIn(fs[8]))))
  }

  function DisputeFrom(fs: seq<Field>): Option<Record>
    requires FitAll(fs, Shapes(Disputes))
  {
    var state := DisputeStateFrom(U32From(fs[6].bytes));
    if state.None? then None
    else
      Some(DisputeRecord(Dispute(
        IdIn(fs[0]), IdIn(fs[1]), IdIn(fs[2]), fs[3].bytes[0], HashesFrom(fs[4].rows), VotesFrom(fs[5].rows),
        state.value,
        if fs[7].item.Some? then Some(fs[7].item.value[0]) else None, I64In(fs[8]),
        if fs[9].item.Some? then Some(I64From(fs[9].item.value)) else None)))
  }

  function AnchorFrom(fs: seq<Field>): Record
    requires FitAll(fs, Shapes(Anchors))
  {
    AnchorRow(AnchorRecord(IdIn(fs[0]), IdIn(fs[1]), U64In(fs[2]), U64In(fs[3]), U64In(fs[4]), I64In(fs[5])))
  }

  /** A byte that is no boolean, or a number that is no variant, is an error. */
  function FromFields(t: Table, fs: seq<Field>): Option<Record>
    requires FitAll(fs, Shapes(t))
  {
    match t
    case Participants => ParticipantFrom(fs)
    case Settlements => Some(SettlementFrom(fs))
    case Balances => Some(BalanceRecord(Balance(IdIn(fs[0]), U64In(fs[1]), U64In(fs[2]))))
    case Escrows => EscrowFrom(fs)
    case Disputes => DisputeFrom(fs)
    case Nonces => Some(NonceRecord(NonceFrom(fs[0].bytes)))
    case Anchors => Some(AnchorFrom(fs))
  }

  /** `bincode::deserialize`, with what follows the record. */
  function Deserialize(t: Table, b: Bytes): Option<Read<Record>> {
    var fs := ReadAll(Shapes(t), b);
    if fs.None? then None
    else
      var r := FromFields(t, fs.value.value);
      if r.Some? then Some(Read(r.value, fs.value.rest)) else None
  }

  lemma ParticipantBack(p: Participant)
    ensures FitAll(ParticipantFields(p), Shapes(Participants))
    ensures ParticipantFrom(ParticipantFields(p)) == Some(ParticipantRecord(p))
  {
    hide IdBytes, IdFrom, U64Bytes, U64From, I64Bytes, I64From, TextRows, TextFrom, Uniform;
  }

  lemma SettlementBack(s: SettlementRecord)
    ensures FitAll(SettlementFields(s), Shapes(Settlements))
    ensures SettlementFrom(SettlementFields(s)) == SettlementRow(s)
  {
    hide IdBytes, IdFrom, U64Bytes, U64From, I64Bytes, I64From, U32Bytes, U32From;
  }

  lemma EscrowBack(e: Escrow)
    ensures FitAll(EscrowFields(e), Shapes(Escrows))
    ensures EscrowFrom(EscrowFields(e)) == Some(EscrowRecord(e))
  {
    hide IdBytes, IdFrom, U64Bytes, U64From, I64Bytes, I64From, U32Bytes, U32From, EscrowVariant, EscrowStateFrom;
  }

  lemma DisputeBack(d: Dispute)
    requires d.Fits()
    ensures FitAll(DisputeFields(d), Shapes(Disputes))
    ensures DisputeFrom(DisputeFields(d)) == Some(DisputeRecord(d))
  {
    hide IdBytes, IdFrom, U64Bytes, U64From, I64Bytes, I64From, U32Bytes, U32From, DisputeVariant, DisputeStateFrom,
         HashRows, HashesFrom, VoteRows, VotesFrom, Even;
  }

  lemma AnchorBack(a: AnchorRecord)
    ensures FitAll(AnchorFields(a), Shapes(Anchors))
    ensures AnchorFrom(AnchorFields(a)) == AnchorRow(a)
  {
    hide IdBytes, IdFrom, U64Bytes, U64From, I64Bytes, I64From;
  }

  lemma FieldsBack(r: Record)
    requires r.Fits()
    ensures FitAll(Fields(r), Shapes(r.Table())) && FromFields(r.Table(), Fields(r)) == Some(r)
  {
    hide ParticipantFields, SettlementFields, EscrowFields, DisputeFields, AnchorFields, ParticipantFrom,
         SettlementFrom, EscrowFrom, DisputeFrom, AnchorFrom, IdBytes, IdFrom, U64Bytes, U64From, NonceBytes,
         NonceFrom;
    match r {
      case ParticipantRecord(p) => ParticipantBack(p);
      case SettlementRow(s) => SettlementBack(s);
      case EscrowRecord(e) => EscrowBack(e);
      case DisputeRecord(d) => DisputeBack(d);
      case AnchorRow(a) => AnchorBack(a);
      case _ =>
    }
  }

  /** Reading a written record gives it back, with whatever follows it untouched. */
  lemma DeserializeSerialized(r: Record, rest: Bytes)
    requires r.Fits()
    ensures Deserialize(r.Table(), Serialize(r) + rest) == Some(Read(r, rest))
  {
    hide Fields, FromFields, Shapes, ReadAll, WriteAll;
    FieldsBack(r);
    ReadAllWritten(Fields(r), Shapes(r.Table()), rest);
  }

  /** Two serialized records of one table can follow each other without a delimiter: neither is a prefix of another. */
  lemma SerializePrefixFree(r: Record, more: Bytes, s: Record, more': Bytes)
    requires r.Table() == s.Table() && r.Fits() && s.Fits()
    requires Serialize(r) + more == Serialize(s) + more'
    ensures r == s && more == more'
  {
    hide Deserialize, Serialize;
    DeserializeSerialized(r, more);
    DeserializeSerialized(s, more');
  }
}
