/** What PostgreSQL sends, from section 55.9 (Logical Replication Message Formats)
    and section 55.4 (Streaming Replication Protocol) of the PostgreSQL 16
    documentation, and the proof that the decoder reads it back. */
module PgoutputEncoding {
  import opened Basics
  import opened Bytes
  import opened Pgoutput

  // ---- TupleData ----

  datatype Value = Null | Unchanged | Text(bytes: Buffer) | Binary(bytes: Buffer)

  type Row = seq<Value>

  predicate Encodable(v: Value) { v.Text? || v.Binary? ==> |v.bytes| < 0x1_0000_0000 }

  ghost predicate RowEncodable(row: Row) { |row| < 0x1_0000 && forall v | v in row :: Encodable(v) }

  function EncodeValue(v: Value): Buffer {
    match v
    case Null => ['n' as int]
    case Unchanged => ['u' as int]
    case Text(b) => ['t' as int] + (Uint(|b|, 4) + b)
    case Binary(b) => ['b' as int] + (Uint(|b|, 4) + b)
  }

  function EncodeValues(row: Row): (b: Buffer)
    ensures |b| >= |row|
  {
    if row == [] then [] else EncodeValue(row[0]) + EncodeValues(row[1..])
  }

  function EncodeTuple(tupleType: byte, row: Row): Buffer {
    [tupleType] + (Uint(|row|, 2) + EncodeValues(row))
  }

  /** The column the decoder should make of a value. */
  function ColumnOf(v: Value): Column {
    match v
    case Null => Column('n' as int, 0, [])
    case Unchanged => Column('u' as int, 0, [])
    case Text(b) => Column('t' as int, |b|, b)
    case Binary(b) => Column('b' as int, |b|, b)
  }

  function ColumnsOf(row: Row): (cs: seq<Column>)
    ensures |cs| == |row|
  {
    seq(|row|, i requires 0 <= i < |row| => ColumnOf(row[i]))
  }

  lemma PayloadDecoded(data: Buffer, at: nat, kind: byte, b: Buffer)
    requires |b| < Pow256(4) && Holds(data, at, [kind] + (Uint(|b|, 4) + b))
    ensures at < |data| && data[at] == kind && Read(data, at + 1, 4) == Ok(|b|)
    ensures at + 5 + |b| <= |data| && CopyOut(data, at + 5, |b|) == b
  {
    hide BigEndian, Uint;
    HoldsBoth(data, at, [kind], Uint(|b|, 4) + b);
    assert data[at] == data[at..at + 1][0];
    HoldsBoth(data, at + 1, Uint(|b|, 4), b);
    ReadUint(data, at + 1, |b|, 4);
  }

  /** A value without a payload is its kind byte. */
  lemma MarkDecoded(data: Buffer, at: nat, kind: byte)
    requires kind != TEXT_COLUMN && kind != BINARY_COLUMN && Holds(data, at, [kind])
    ensures DecodeColumn(data, at) == Ok((Column(kind, 0, []), at + 1))
  {
    assert data[at] == data[at..at + 1][0];
  }

  lemma TextDecoded(data: Buffer, at: nat, kind: byte, b: Buffer)
    requires (kind == TEXT_COLUMN || kind == BINARY_COLUMN) && |b| < Pow256(4)
        && Holds(data, at, [kind] + (Uint(|b|, 4) + b))
    ensures DecodeColumn(data, at) == Ok((Column(kind, |b|, b), at + 5 + |b|))
  {
    hide BigEndian, Uint, Holds, CopyOut, Read;
    PayloadDecoded(data, at, kind, b);
  }

  lemma ColumnDecoded(data: Buffer, at: nat, v: Value)
    requires Encodable(v) && Holds(data, at, EncodeValue(v))
    ensures DecodeColumn(data, at) == Ok((ColumnOf(v), at + |EncodeValue(v)|))
  {
    hide BigEndian, Uint, Holds, DecodeColumn;
    Widths();
    match v {
      case Null => MarkDecoded(data, at, NULL_COLUMN);
      case Unchanged => MarkDecoded(data, at, TOAST_COLUMN);
      case Text(b) => TextDecoded(data, at, TEXT_COLUMN, b);
      case Binary(b) => TextDecoded(data, at, BINARY_COLUMN, b);
    }
  }

  lemma {:induction false} ColumnsDecoded(data: Buffer, at: nat, row: Row)
    requires Holds(data, at, EncodeValues(row)) && forall v | v in row :: Encodable(v)
    ensures DecodeColumns(data, at, |row|) == Ok((ColumnsOf(row), at + |EncodeValues(row)|))
    decreases |row|
  {
    hide DecodeColumn, EncodeValue;
    if row == [] {
      assert ColumnsOf(row) == [];
    } else {
      HoldsBoth(data, at, EncodeValue(row[0]), EncodeValues(row[1..]));
      ColumnDecoded(data, at, row[0]);
      ColumnsDecoded(data, at + |EncodeValue(row[0])|, row[1..]);
      assert ColumnsOf(row) == [ColumnOf(row[0])] + ColumnsOf(row[1..]);
    }
  }

  /** A tuple of any number of columns is read back, its cursor ending exactly
      where the tuple ends. */
  lemma TupleDecoded(data: Buffer, at: nat, tupleType: byte, row: Row)
    requires RowEncodable(row) && Holds(data, at, EncodeTuple(tupleType, row))
    ensures NewData(data, tupleType, at) == Ok(Tuple(|row|, ColumnsOf(row), at + |EncodeTuple(tupleType, row)|))
  {
    hide DecodeColumns, EncodeValues, ColumnsOf, BigEndian, Uint;
    Widths();
    HoldsBoth(data, at, [tupleType], Uint(|row|, 2) + EncodeValues(row));
    assert data[at] == data[at..at + 1][0];
    HoldsBoth(data, at + 1, Uint(|row|, 2), EncodeValues(row));
    ReadUint(data, at + 1, |row|, 2);
    ColumnsDecoded(data, at + 3, row);
  }

  // ---- strings and Relation ----

  ghost predicate NoZero(s: Buffer) { 0 !in s }

  lemma {:induction false} StringDecoded(data: Buffer, at: nat, s: Buffer)
    requires NoZero(s) && Holds(data, at, s + [0])
    ensures DecodeString(data, at) == Ok((s, at + |s| + 1))
    decreases |s|
  {
    assert data[at] == data[at..at + |s| + 1][0];
    if s != [] {
      assert s[0] in s;
      assert data[at + 1..at + |s| + 1] == (s + [0])[1..] == s[1..] + [0];
      StringDecoded(data, at + 1, s[1..]);
      assert s == [s[0]] + s[1..];
    }
  }

  ghost predicate RelationColumnEncodable(c: RelationColumn) {
    NoZero(c.name) && c.dataType < 0x1_0000_0000 && c.typeModifier < 0x1_0000_0000
  }

  function EncodeRelationColumn(c: RelationColumn): Buffer {
    [c.flags] + ((c.name + [0]) + (Uint(c.dataType, 4) + Uint(c.typeModifier, 4)))
  }

  function EncodeRelationColumns(cs: seq<RelationColumn>): Buffer {
    if cs == [] then [] else EncodeRelationColumn(cs[0]) + EncodeRelationColumns(cs[1..])
  }

  lemma RelationColumnDecoded(data: Buffer, at: nat, c: RelationColumn)
    requires RelationColumnEncodable(c) && Holds(data, at, EncodeRelationColumn(c))
    ensures DecodeRelationColumn(data, at) == Ok((c, at + |EncodeRelationColumn(c)|))
  {
    hide BigEndian, Uint, DecodeString, NoZero;
    Widths();
    var types := Uint(c.dataType, 4) + Uint(c.typeModifier, 4);
    HoldsBoth(data, at, [c.flags], (c.name + [0]) + types);
    assert data[at] == data[at..at + 1][0];
    HoldsBoth(data, at + 1, c.name + [0], types);
    StringDecoded(data, at + 1, c.name);
    var at1 := at + 1 + |c.name| + 1;
    HoldsBoth(data, at1, Uint(c.dataType, 4), Uint(c.typeModifier, 4));
    ReadUint(data, at1, c.dataType, 4);
    ReadUint(data, at1 + 4, c.typeModifier, 4);
  }

  lemma {:induction false} RelationColumnsDecoded(data: Buffer, at: nat, cs: seq<RelationColumn>)
    requires Holds(data, at, EncodeRelationColumns(cs)) && forall c | c in cs :: RelationColumnEncodable(c)
    ensures DecodeRelationColumns(data, at, |cs|) == Ok(cs)
    decreases |cs|
  {
    hide DecodeRelationColumn, EncodeRelationColumn, RelationColumnEncodable;
    if cs != [] {
      HoldsBoth(data, at, EncodeRelationColumn(cs[0]), EncodeRelationColumns(cs[1..]));
      RelationColumnDecoded(data, at, cs[0]);
      RelationColumnsDecoded(data, at + |EncodeRelationColumn(cs[0])|, cs[1..]);
      assert cs == [cs[0]] + cs[1..];
    }
  }

  // ---- the row-level messages a server sends ----

  datatype OldImage = NoOld | Key(row: Row) | Full(row: Row)

  datatype ServerMessage =
    | SendRelation(oid: nat, namespace: Buffer, name: Buffer, replicaId: byte, relColumns: seq<RelationColumn>)
    | SendInsert(oid: nat, row: Row)
    | SendUpdate(oid: nat, image: OldImage, row: Row)
    | SendDelete(oid: nat, full: bool, row: Row)
    | SendTruncate(oids: seq<nat>, cascade: bool, restartIdentity: bool)

  ghost predicate ImageEncodable(image: OldImage, row: Row) {
    image.NoOld? || (RowEncodable(image.row) && |image.row| == |row|)
  }

  /** Every field fits its width; an update's old image describes the same columns. */
  ghost predicate WellFormed(m: ServerMessage) {
    match m
    case SendRelation(oid, ns, name, _, cs) =>
      && oid < 0x1_0000_0000 && NoZero(ns) && NoZero(name) && |cs| < 0x1_0000
      && forall c | c in cs :: RelationColumnEncodable(c)
    case SendInsert(oid, row) => oid < 0x1_0000_0000 && RowEncodable(row)
    case SendUpdate(oid, image, row) => oid < 0x1_0000_0000 && RowEncodable(row) && ImageEncodable(image, row)
    case SendDelete(oid, _, row) => oid < 0x1_0000_0000 && RowEncodable(row)
    case SendTruncate(oids, _, _) => |oids| < 0x1_0000_0000 && forall o | o in oids :: o < 0x1_0000_0000
  }

  /** Every table the message names has been announced. */
  predicate Announced(m: ServerMessage, rel: Relations) {
    match m
    case SendRelation(_, _, _, _, _) => true
    case SendTruncate(oids, _, _) => forall o | o in oids :: o in rel
    case _ => m.oid in rel
  }

  function TypeByte(m: ServerMessage): byte {
    match m
    case SendRelation(_, _, _, _, _) => 'R' as int
    case SendInsert(_, _) => 'I' as int
    case SendUpdate(_, _, _) => 'U' as int
    case SendDelete(_, _, _) => 'D' as int
    case SendTruncate(_, _, _) => 'T' as int
  }

  function EncodeImage(image: OldImage): Buffer {
    match image
    case NoOld => []
    case Key(row) => EncodeTuple('K' as int, row)
    case Full(row) => EncodeTuple('O' as int, row)
  }

  function EncodeOids(oids: seq<nat>): (b: Buffer)
    ensures |b| == 4 * |oids|
  {
    if oids == [] then [] else Uint(oids[0], 4) + EncodeOids(oids[1..])
  }

  function Options(cascade: bool, restartIdentity: bool): byte {
    (if cascade then 1 else 0) + (if restartIdentity then 2 else 0)
  }

  function RelationTail(replicaId: byte, cs: seq<RelationColumn>): Buffer {
    [replicaId] + (Uint(|cs|, 2) + EncodeRelationColumns(cs))
  }

  function Body(m: ServerMessage): Buffer {
    match m
    case SendRelation(oid, ns, name, replicaId, cs) =>
      Uint(oid, 4) + ((ns + [0]) + ((name + [0]) + RelationTail(replicaId, cs)))
    case SendInsert(oid, row) => Uint(oid, 4) + EncodeTuple('N' as int, row)
    case SendUpdate(oid, image, row) => Uint(oid, 4) + (EncodeImage(image) + EncodeTuple('N' as int, row))
    case SendDelete(oid, full, row) => Uint(oid, 4) + EncodeTuple(if full then 'O' as int else 'K' as int, row)
    case SendTruncate(oids, cascade, restart) =>
      Uint(|oids|, 4) + ([Options(cascade, restart)] + EncodeOids(oids))
  }

  function Prefix(x: Option<nat>): Buffer { if x.Some? then Uint(x.value, 4) else [] }

  /** A message; x is the XID that precedes the body inside a streamed chunk. */
  function Encode(m: ServerMessage, x: Option<nat>): Buffer { [TypeByte(m)] + (Prefix(x) + Body(m)) }

  predicate XidFits(x: Option<nat>) { x.Some? ==> x.value < 0x1_0000_0000 }

  function XidOf(x: Option<nat>): nat { if x.Some? then x.value else 0 }

  /** The new row after TOAST merging: an unchanged column takes the old image's value. */
  function Merged(row: Row, image: OldImage): Row
    requires image.NoOld? || |image.row| == |row|
  {
    if image.NoOld? then row
    else seq(|row|, i requires 0 <= i < |row| => if row[i].Unchanged? then image.row[i] else row[i])
  }

  function ImageByte(image: OldImage): byte {
    match image case NoOld => 'N' as int case Key(_) => 'K' as int case Full(_) => 'O' as int
  }

  function TablesOf(oids: seq<nat>, rel: Relations): (ts: seq<Relation>)
    requires forall o | o in oids :: o in rel
  {
    seq(|oids|, i requires 0 <= i < |oids| => rel[oids[i]])
  }

  /** What message m with prefix x says: its rows, the names from the relation
      cache, and each tuple's cursor at the end of its bytes, the last one at the
      end of the message. */
  function Meaning(m: ServerMessage, x: Option<nat>, rel: Relations): RowMessage
    requires m.SendUpdate? ==> m.image.NoOld? || |m.image.row| == |m.row|
    requires Announced(m, rel)
  {
    var size := |Encode(m, x)|;
    match m
    case SendRelation(oid, ns, name, replicaId, cs) =>
      RelationRow(Relation(XidOf(x), oid, ns, name, replicaId, cs))
    case SendInsert(oid, row) =>
      Insert(XidOf(x), oid, rel[oid].namespace, rel[oid].name, Tuple(|row|, ColumnsOf(row), size))
    case SendUpdate(oid, image, row) =>
      Update(XidOf(x), oid, rel[oid].namespace, rel[oid].name, ImageByte(image),
             if image.NoOld? then None
             else Some(Tuple(|row|, ColumnsOf(image.row), 5 + |Prefix(x)| + |EncodeImage(image)|)),
             Tuple(|row|, ColumnsOf(Merged(row, image)), size))
    case SendDelete(oid, full, row) =>
      Delete(XidOf(x), oid, rel[oid].namespace, rel[oid].name, if full then 'O' as int else 'K' as int,
             Tuple(|row|, ColumnsOf(row), size))
    case SendTruncate(oids, cascade, restart) =>
      Truncate(XidOf(x), Options(cascade, restart), cascade, restart, oids, TablesOf(oids, rel))
  }

  lemma PrefixDecoded(data: Buffer, x: Option<nat>, minimum: nat)
    requires XidFits(x) && Holds(data, 1, Prefix(x)) && (x.Some? ==> |data| >= minimum)
    ensures DecodePrefix(data, x.Some?, minimum) == Ok((XidOf(x), 1 + |Prefix(x)|))
  {
    Widths();
    if x.Some? {
      ReadUint(data, 1, x.value, 4);
    }
  }

  /** Where the pieces of an encoded message lie. */
  lemma Layout(m: ServerMessage, x: Option<nat>)
    ensures var data := Encode(m, x);
            && |data| > 0 && data[0] == TypeByte(m) && Holds(data, 1, Prefix(x))
            && Holds(data, 1 + |Prefix(x)|, Body(m)) && |data| == 1 + |Prefix(x)| + |Body(m)|
  {
    hide Body, Prefix, TypeByte;
    var data := Encode(m, x);
    assert data[0..|data|] == data;
    HoldsBoth(data, 0, [TypeByte(m)], Prefix(x) + Body(m));
    HoldsBoth(data, 1, Prefix(x), Body(m));
  }

  /** The common start of an encoded message: prefix, then the four bytes of an OID or a count. */
  lemma HeadDecoded(m: ServerMessage, x: Option<nat>, minimum: nat, n: nat, rest: Buffer)
    requires XidFits(x) && n < 0x1_0000_0000 && Body(m) == Uint(n, 4) + rest
    requires x.Some? ==> 9 + |rest| >= minimum
    ensures var data, at := Encode(m, x), 1 + |Prefix(x)|;
            && DecodePrefix(data, x.Some?, minimum) == Ok((XidOf(x), at))
            && Read(data, at, 4) == Ok(n) && Holds(data, at + 4, rest) && |data| == at + 4 + |rest|
  {
    hide Encode, Body, TypeByte, DecodePrefix, Read, XidOf;
    Layout(m, x);
    var data := Encode(m, x);
    PrefixDecoded(data, x, minimum);
    HoldsBoth(data, 1 + |Prefix(x)|, Uint(n, 4), rest);
    Widths();
    ReadUint(data, 1 + |Prefix(x)|, n, 4);
  }

  /** Two strings in a row. */
  lemma NamesDecoded(data: Buffer, at: nat, ns: Buffer, name: Buffer, rest: Buffer)
    requires NoZero(ns) && NoZero(name) && Holds(data, at, (ns + [0]) + ((name + [0]) + rest))
    ensures var at1, at2 := at + |ns| + 1, at + |ns| + 1 + |name| + 1;
            && DecodeString(data, at) == Ok((ns, at1)) && DecodeString(data, at1) == Ok((name, at2))
            && Holds(data, at2, rest)
  {
    hide DecodeString, NoZero, Holds;
    HoldsBoth(data, at, ns + [0], (name + [0]) + rest);
    StringDecoded(data, at, ns);
    var at1 := at + |ns| + 1;
    HoldsBoth(data, at1, name + [0], rest);
    StringDecoded(data, at1, name);
  }

  /** Replica identity, column count and columns. */
  lemma RelationTailDecoded(data: Buffer, at: nat, replicaId: byte, cs: seq<RelationColumn>)
    requires |cs| < 0x1_0000 && (forall c | c in cs :: RelationColumnEncodable(c))
        && Holds(data, at, RelationTail(replicaId, cs))
    ensures ReadByte(data, at) == Ok(replicaId) && Read(data, at + 1, 2) == Ok(|cs|)
    ensures DecodeRelationColumns(data, at + 3, |cs|) == Ok(cs)
  {
    hide DecodeRelationColumns, EncodeRelationColumns, RelationColumnEncodable, BigEndian, Uint, Read, Holds;
    Widths();
    FirstByte(data, at, replicaId, Uint(|cs|, 2) + EncodeRelationColumns(cs));
    FieldDecoded(data, at + 1, |cs|, 2, EncodeRelationColumns(cs));
    RelationColumnsDecoded(data, at + 3, cs);
  }

  lemma RelationDecoded(m: ServerMessage, x: Option<nat>)
    requires m.SendRelation? && WellFormed(m) && XidFits(x)
    ensures DecodeRelation(Encode(m, x), x.Some?)
         == Ok(Relation(XidOf(x), m.oid, m.namespace, m.name, m.replicaId, m.relColumns))
  {
    hide Encode, Prefix, DecodePrefix, DecodeString, DecodeRelationColumns, RelationTail, NoZero,
         RelationColumnEncodable, Read, ReadByte, Uint, Holds;
    var tail := RelationTail(m.replicaId, m.relColumns);
    TailSize(m.replicaId, m.relColumns);
    HeadDecoded(m, x, 12, m.oid, (m.namespace + [0]) + ((m.name + [0]) + tail));
    var data, at := Encode(m, x), 5 + |Prefix(x)|;
    NamesDecoded(data, at, m.namespace, m.name, tail);
    RelationTailDecoded(data, at + |m.namespace| + 1 + |m.name| + 1, m.replicaId, m.relColumns);
  }

  lemma TailSize(replicaId: byte, cs: seq<RelationColumn>)
    ensures |RelationTail(replicaId, cs)| >= 3
  {
  }

  /** An insert's tuple is read back exactly when the table has a column: the
      length guards ask for one byte more than an empty tuple has. */
  lemma InsertDecoded(m: ServerMessage, x: Option<nat>, rel: Relations)
    requires m.SendInsert? && WellFormed(m) && XidFits(x) && m.oid in rel
    ensures DecodeInsert(Encode(m, x), x.Some?, rel)
         == if m.row == [] then Error
            else Ok(Insert(XidOf(x), m.oid, rel[m.oid].namespace, rel[m.oid].name,
                           Tuple(|m.row|, ColumnsOf(m.row), |Encode(m, x)|)))
  {
    hide Encode, EncodeValues, NewData, ColumnsOf, RowEncodable, Uint;
    var tuple := EncodeTuple('N' as int, m.row);
    if m.row == [] {
      assert |tuple| == 3 by { EmptyTuple('N' as int); }
      Layout(m, x);
      if x.Some? {
        assert |Encode(m, x)| == 12;
      } else {
        HeadDecoded(m, x, 13, m.oid, tuple);
      }
    } else {
      HeadDecoded(m, x, 13, m.oid, tuple);
      TupleDecoded(Encode(m, x), 5 + |Prefix(x)|, 'N' as int, m.row);
    }
  }

  lemma EmptyTuple(tupleType: byte)
    ensures |EncodeTuple(tupleType, [])| == 3
  {
  }

  lemma DeleteDecoded(m: ServerMessage, x: Option<nat>, rel: Relations)
    requires m.SendDelete? && WellFormed(m) && XidFits(x) && m.oid in rel
    ensures DecodeDelete(Encode(m, x), x.Some?, rel)
         == Ok(Delete(XidOf(x), m.oid, rel[m.oid].namespace, rel[m.oid].name, if m.full then 'O' as int else 'K' as int,
                      Tuple(|m.row|, ColumnsOf(m.row), |Encode(m, x)|)))
  {
    hide Encode, EncodeValues, NewData, ColumnsOf, RowEncodable, Uint;
    var kind: byte := if m.full then 'O' as int else 'K' as int;
    HeadDecoded(m, x, 11, m.oid, EncodeTuple(kind, m.row));
    TupleStart(Encode(m, x), 5 + |Prefix(x)|, kind, m.row);
    TupleDecoded(Encode(m, x), 5 + |Prefix(x)|, kind, m.row);
  }

  lemma TupleStart(data: Buffer, at: nat, kind: byte, row: Row)
    requires Holds(data, at, EncodeTuple(kind, row))
    ensures ReadByte(data, at) == Ok(kind)
  {
    assert data[at] == data[at..at + |EncodeTuple(kind, row)|][0];
  }

  lemma {:induction false} OidsDecoded(data: Buffer, at: nat, oids: seq<nat>)
    requires Holds(data, at, EncodeOids(oids)) && forall o | o in oids :: o < 0x1_0000_0000
    ensures ReadOids(data, at, |oids|) == Ok(oids)
    decreases |oids|
  {
    hide BigEndian, Uint, Read;
    if oids != [] {
      Widths();
      assert oids[0] in oids && forall o | o in oids[1..] :: o in oids;
      HoldsBoth(data, at, Uint(oids[0], 4), EncodeOids(oids[1..]));
      ReadUint(data, at, oids[0], 4);
      OidsDecoded(data, at + 4, oids[1..]);
      assert oids == [oids[0]] + oids[1..];
    }
  }

  lemma {:induction false} TablesFound(oids: seq<nat>, rel: Relations)
    requires forall o | o in oids :: o in rel
    ensures LookUp(oids, rel) == Ok(TablesOf(oids, rel))
    decreases |oids|
  {
    if oids == [] {
      assert TablesOf(oids, rel) == [];
    } else {
      TablesFound(oids[1..], rel);
      assert TablesOf(oids, rel) == [rel[oids[0]]] + TablesOf(oids[1..], rel);
    }
  }

  lemma TruncateDecoded(m: ServerMessage, x: Option<nat>, rel: Relations)
    requires m.SendTruncate? && WellFormed(m) && XidFits(x) && forall o | o in m.oids :: o in rel
    ensures DecodeTruncate(Encode(m, x), x.Some?, rel)
         == Ok(Truncate(XidOf(x), Options(m.cascade, m.restartIdentity), m.cascade, m.restartIdentity, m.oids,
             TablesOf(m.oids, rel)))
  {
    hide Encode, Prefix, EncodeOids, ReadOids, LookUp, TablesOf, DecodePrefix, Read, Uint;
    var options := Options(m.cascade, m.restartIdentity);
    HeadDecoded(m, x, 10, |m.oids|, [options] + EncodeOids(m.oids));
    var data, at := Encode(m, x), 5 + |Prefix(x)|;
    HoldsBoth(data, at, [options], EncodeOids(m.oids));
    assert data[at] == data[at..at + 1][0];
    OidsDecoded(data, at + 1, m.oids);
    TablesFound(m.oids, rel);
  }

  lemma MergeDecoded(row: Row, image: OldImage)
    requires !image.NoOld? && |image.row| == |row|
    ensures MergeToast(ColumnsOf(row), ColumnsOf(image.row)) == Ok(ColumnsOf(Merged(row, image)))
  {
    var news, olds := ColumnsOf(row), ColumnsOf(image.row);
    assert !exists i | 0 <= i < |news| :: news[i].kind == TOAST_COLUMN && i >= |olds|;
    assert MergeToast(news, olds).value == ColumnsOf(Merged(row, image));
  }

  lemma UpdateDecoded(m: ServerMessage, x: Option<nat>, rel: Relations)
    requires m.SendUpdate? && WellFormed(m) && XidFits(x) && m.oid in rel
    ensures DecodeUpdate(Encode(m, x), x.Some?, rel)
         == Ok(Update(XidOf(x), m.oid, rel[m.oid].namespace, rel[m.oid].name, ImageByte(m.image),
                      if m.image.NoOld? then None
                      else Some(Tuple(|m.row|, ColumnsOf(m.image.row), 5 + |Prefix(x)| + |EncodeImage(m.image)|)),
                      Tuple(|m.row|, ColumnsOf(Merged(m.row, m.image)), |Encode(m, x)|)))
  {
    hide Encode, Prefix, DecodePrefix, Read, EncodeTuple, EncodeValues, NewData, ColumnsOf, Merged, MergeToast,
         RowEncodable, Uint;
    var image, tuple := EncodeImage(m.image), EncodeTuple('N' as int, m.row);
    TupleSize('N' as int, m.row);
    HeadDecoded(m, x, 11, m.oid, image + tuple);
    var data, at := Encode(m, x), 5 + |Prefix(x)|;
    HoldsBoth(data, at, image, tuple);
    TupleDecoded(data, at + |image|, 'N' as int, m.row);
    if m.image.NoOld? {
      TupleStart(data, at, 'N' as int, m.row);
      NothingMerged(m.row);
    } else {
      TupleStart(data, at, ImageByte(m.image), m.image.row);
      TupleDecoded(data, at, ImageByte(m.image), m.image.row);
      MergeDecoded(m.row, m.image);
    }
  }

  lemma TupleSize(kind: byte, row: Row)
    ensures |EncodeTuple(kind, row)| >= 3
  {
  }

  lemma NothingMerged(row: Row)
    ensures Merged(row, NoOld) == row
  {
  }

  /** Decode after encode: a well-formed message is read back as exactly what was
      sent, plain or inside a streamed chunk, unless it inserts into a table with
      no columns, which is rejected. */
  lemma DecodeAfterEncode(m: ServerMessage, x: Option<nat>, rel: Relations)
    requires WellFormed(m) && XidFits(x) && Announced(m, rel)
    ensures var r := Decode(Encode(m, x), x.Some?, rel);
            if m.SendInsert? && m.row == [] then r == Error
            else r == Ok(RowLevel(Meaning(m, x, rel)))
  {
    hide Encode, Prefix, DecodeInsert, DecodeUpdate, DecodeDelete, DecodeTruncate, DecodeRelation, DecodeControl,
         ColumnsOf, EncodeImage, Merged, RowEncodable, NoZero, RelationColumnEncodable, Body, Holds, TablesOf,
         Options, ImageByte, ImageEncodable;
    Layout(m, x);
    match m {
      case SendRelation(_, _, _, _, _) => RelationDecoded(m, x);
      case SendInsert(_, _) => InsertDecoded(m, x, rel);
      case SendUpdate(_, _, _) => UpdateDecoded(m, x, rel);
      case SendDelete(_, _, _) => DeleteDecoded(m, x, rel);
      case SendTruncate(_, _, _) => TruncateDecoded(m, x, rel);
    }
  }

  // ---- transaction control messages ----

  function EncodeControl(c: Control): Buffer {
    match c
    case Begin(lsn, time, xid) => ['B' as int] + (Uint(lsn, 8) + (Uint(RawTime(time), 8) + Uint(xid, 4)))
    case Commit(flags, commitLsn, endLsn, time) =>
      ['C' as int] + ([flags] + (Uint(commitLsn, 8) + (Uint(endLsn, 8) + Uint(RawTime(time), 8))))
    case StreamStart(xid, first) => ['S' as int] + (Uint(xid, 4) + [if first then 1 else 0])
    case StreamStop => ['E' as int]
    case StreamCommit(xid, flags, commitLsn, endLsn, time) =>
      ['c' as int] + (Uint(xid, 4) + ([flags] + (Uint(commitLsn, 8) + (Uint(endLsn, 8) + Uint(RawTime(time), 8)))))
    case StreamAbort(xid, subXid) => ['A' as int] + (Uint(xid, 4) + Uint(subXid, 4))
  }

  predicate Fits32(n: nat) { n < 0x1_0000_0000 }

  predicate Fits64(n: nat) { n < 0x1_0000_0000_0000_0000 }

  predicate Int64(t: int) { -0x8000_0000_0000_0000 <= t < 0x8000_0000_0000_0000 }

  predicate ControlFits(c: Control) {
    match c
    case Begin(lsn, time, xid) => Fits64(lsn) && Int64(time) && Fits32(xid)
    case Commit(_, commitLsn, endLsn, time) => Fits64(commitLsn) && Fits64(endLsn) && Int64(time)
    case StreamStart(xid, _) => Fits32(xid)
    case StreamStop => true
    case StreamCommit(xid, _, commitLsn, endLsn, time) =>
      Fits32(xid) && Fits64(commitLsn) && Fits64(endLsn) && Int64(time)
    case StreamAbort(xid, subXid) => Fits32(xid) && Fits32(subXid)
  }

  lemma FieldDecoded(data: Buffer, at: nat, n: nat, width: nat, rest: Buffer)
    requires n < Pow256(width) && Holds(data, at, Uint(n, width) + rest)
    ensures Read(data, at, width) == Ok(n) && Holds(data, at + width, rest)
  {
    hide BigEndian, Read;
    HoldsBoth(data, at, Uint(n, width), rest);
    ReadUint(data, at, n, width);
  }

  lemma TailDecoded(data: Buffer, at: nat, commitLsn: nat, endLsn: nat, time: int)
    requires Fits64(commitLsn) && Fits64(endLsn) && Int64(time)
    requires Holds(data, at, Uint(commitLsn, 8) + (Uint(endLsn, 8) + Uint(RawTime(time), 8)))
    ensures Read(data, at, 8) == Ok(commitLsn) && Read(data, at + 8, 8) == Ok(endLsn)
    ensures Read(data, at + 16, 8) == Ok(RawTime(time)) && PgTime(RawTime(time)) == time
  {
    hide BigEndian, Uint, Read, Holds, RawTime, PgTime;
    Widths();
    PgTimeRoundTrip(time);
    FieldDecoded(data, at, commitLsn, 8, Uint(endLsn, 8) + Uint(RawTime(time), 8));
    FieldDecoded(data, at + 8, endLsn, 8, Uint(RawTime(time), 8));
    ReadUint(data, at + 16, RawTime(time), 8);
  }

  lemma FirstByte(data: Buffer, at: nat, b: byte, rest: Buffer)
    requires Holds(data, at, [b] + rest)
    ensures at < |data| && data[at] == b && Holds(data, at + 1, rest)
  {
    assert data[at] == data[at..at + 1 + |rest|][0];
    HoldsBoth(data, at, [b], rest);
  }

  lemma Slice(data: Buffer, at: nat, n: nat)
    requires Read(data, at, 4) == Ok(n)
    ensures at + 4 <= |data| && BigEndian(data[at..at + 4]) == n
  {
  }

  /** A transaction control message is read back as sent. */
  lemma ControlDecoded(c: Control)
    requires ControlFits(c)
    ensures DecodeControl(EncodeControl(c)) == Ok(c)
  {
    hide BigEndian, Uint, RawTime, PgTime, Holds, Read;
    var data := EncodeControl(c);
    Widths();
    assert Holds(data, 0, data) by { WholeHolds(data); }
    match c {
      case Begin(lsn, time, xid) =>
        PgTimeRoundTrip(time);
        FirstByte(data, 0, 'B' as int, Uint(lsn, 8) + (Uint(RawTime(time), 8) + Uint(xid, 4)));
        FieldDecoded(data, 1, lsn, 8, Uint(RawTime(time), 8) + Uint(xid, 4));
        FieldDecoded(data, 9, RawTime(time), 8, Uint(xid, 4));
        ReadUint(data, 17, xid, 4);
      case Commit(flags, commitLsn, endLsn, time) =>
        var tail := Uint(commitLsn, 8) + (Uint(endLsn, 8) + Uint(RawTime(time), 8));
        FirstByte(data, 0, 'C' as int, [flags] + tail);
        FirstByte(data, 1, flags, tail);
        TailDecoded(data, 2, commitLsn, endLsn, time);
      case StreamStart(xid, first) =>
        var b: byte := if first then 1 else 0;
        FirstByte(data, 0, 'S' as int, Uint(xid, 4) + [b]);
        FieldDecoded(data, 1, xid, 4, [b]);
        FirstByte(data, 5, b, []) by { assert [b] + [] == [b]; }
        Slice(data, 1, xid);
      case StreamStop =>
      case StreamCommit(xid, flags, commitLsn, endLsn, time) =>
        var tail := Uint(commitLsn, 8) + (Uint(endLsn, 8) + Uint(RawTime(time), 8));
        FirstByte(data, 0, 'c' as int, Uint(xid, 4) + ([flags] + tail));
        FieldDecoded(data, 1, xid, 4, [flags] + tail);
        FirstByte(data, 5, flags, tail);
        TailDecoded(data, 6, commitLsn, endLsn, time);
      case StreamAbort(xid, subXid) =>
        FirstByte(data, 0, 'A' as int, Uint(xid, 4) + Uint(subXid, 4));
        FieldDecoded(data, 1, xid, 4, Uint(subXid, 4));
        ReadUint(data, 5, subXid, 4);
        Slice(data, 1, xid);
        Slice(data, 5, subXid);
    }
  }

  lemma WholeHolds(data: Buffer)
    ensures Holds(data, 0, data)
  {
    assert data[0..|data|] == data;
  }

  // ---- short messages ----

  /** Control decoding reads outside its buffer for exactly two lengths: a BEGIN of 20
      and a COMMIT of 25 bytes, whose guards admit one byte less than is read. */
  lemma ControlReadsInsideIff(data: Buffer)
    requires |data| > 0
    ensures DecodeControl(data).Panic? <==>
      (data[0] == 'B' as int && |data| == 20) || (data[0] == 'C' as int && |data| == 25)
  {
    hide BigEndian;
  }

  lemma {:induction false} OidsInside(data: Buffer, at: nat, n: nat)
    requires at + 4 * n <= |data|
    ensures ReadOids(data, at, n).Ok?
    decreases n
  {
    hide BigEndian;
    if n > 0 { OidsInside(data, at + 4, n - 1); }
  }

  lemma {:induction false} LookUpNeverPanics(oids: seq<nat>, rel: Relations)
    ensures !LookUp(oids, rel).Panic?
  {
    if oids != [] { LookUpNeverPanics(oids[1..], rel); }
  }

  /** Truncate decoding never reads outside its buffer, whatever the bytes. */
  lemma TruncateReadsInside(data: Buffer, streamed: bool, rel: Relations)
    ensures !DecodeTruncate(data, streamed, rel).Panic?
  {
    hide BigEndian, ReadOids, LookUp;
    var at := if streamed then 5 else 1;
    if |data| >= at + 5 {
      var count := BigEndian(data[at..at + 4]);
      if |data| >= at + 5 + count * 4 {
        OidsInside(data, at + 5, count);
        LookUpNeverPanics(ReadOids(data, at + 5, count).value, rel);
      }
    }
  }
}
