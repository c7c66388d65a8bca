/** The pgoutput decoder: pq/message/message.go, pq/message/format/ and
    pq/message/tuple/data.go. Each decoder is given twice: as a function of the
    buffer, and as the method that moves a cursor and fills its columns. */
module Pgoutput {
  import opened Basics
  import opened Bytes

  const NULL_COLUMN: byte := 'n' as int
  const TOAST_COLUMN: byte := 'u' as int
  const TEXT_COLUMN: byte := 't' as int
  const BINARY_COLUMN: byte := 'b' as int
  const KEY_TUPLE: byte := 'K' as int
  const OLD_TUPLE: byte := 'O' as int
  const NEW_TUPLE: byte := 'N' as int

  datatype Column = Column(kind: byte, length: nat, data: Buffer)

  datatype Tuple = Tuple(columnNumber: nat, columns: seq<Column>, skipByte: nat)

  datatype RelationColumn = RelationColumn(flags: byte, name: Buffer, dataType: nat, typeModifier: nat)

  datatype Relation = Relation(
    xid: nat, oid: nat, namespace: Buffer, name: Buffer, replicaId: byte, columns: seq<RelationColumn>)

  datatype Control =
    | Begin(finalLsn: nat, commitTime: int, xid: nat)
    | Commit(flags: byte, commitLsn: nat, endLsn: nat, commitTime: int)
    | StreamStart(xid: nat, firstSegment: bool)
    | StreamStop
    | StreamCommit(xid: nat, flags: byte, commitLsn: nat, endLsn: nat, commitTime: int)
    | StreamAbort(xid: nat, subXid: nat)

  /** A row-level message with its table resolved. */
  datatype RowMessage =
    | Insert(xid: nat, oid: nat, namespace: Buffer, name: Buffer, tuple: Tuple)
    | Update(xid: nat, oid: nat, namespace: Buffer, name: Buffer, oldType: byte, old': Option<Tuple>, tuple: Tuple)
    | Delete(xid: nat, oid: nat, namespace: Buffer, name: Buffer, oldType: byte, tuple: Tuple)
    | Truncate(xid: nat, options: byte, cascade: bool, restartIdentity: bool, oids: seq<nat>, tables: seq<Relation>)
    | RelationRow(relation: Relation)

  datatype Decoded = Control(control: Control) | RowLevel(row: RowMessage)

  type Relations = map<nat, Relation>

  // ---- tuples ----

  /** make([]byte, n) followed by copy: what is missing stays zero. */
  function CopyOut(data: Buffer, at: nat, n: nat): (b: Buffer)
    requires at <= |data|
    ensures |b| == n
    ensures at + n <= |data| ==> b == data[at..at + n]
    ensures forall k | 0 <= k < n :: b[k] == if at + k < |data| then data[at + k] else 0
  {
    if at + n <= |data| then data[at..at + n] else data[at..] + seq(n - (|data| - at), _ => 0)
  }

  function DecodeColumn(data: Buffer, at: nat): Result<(Column, nat)> {
    var kind :- ReadByte(data, at);
    if kind == TEXT_COLUMN || kind == BINARY_COLUMN then
      var length :- Read(data, at + 1, 4);
      Ok((Column(kind, length, CopyOut(data, at + 5, length)), at + 5 + length))
    else Ok((Column(kind, 0, []), at + 1))
  }

  function DecodeColumns(data: Buffer, at: nat, n: nat): Result<(seq<Column>, nat)>
    decreases n
  {
    if n == 0 then Ok(([], at))
    else
      var (c, next) :- DecodeColumn(data, at);
      var (cs, end) :- DecodeColumns(data, next, n - 1);
      Ok(([c] + cs, end))
  }

  function DecodeTuple(data: Buffer, at: nat): Result<Tuple> {
    var n :- Read(data, at, 2);
    var (cs, end) :- DecodeColumns(data, at + 2, n);
    Ok(Tuple(n, cs, end))
  }

  /** tuple.NewData: the tuple's type byte, then the tuple. */
  function NewData(data: Buffer, tupleType: byte, at: nat): Result<Tuple> {
    var t :- ReadByte(data, at);
    if t != tupleType then Error else DecodeTuple(data, at + 1)
  }

  function Prepend(done: seq<Column>, rest: Result<(seq<Column>, nat)>): Result<(seq<Column>, nat)> {
    if rest.Ok? then Ok((done + rest.value.0, rest.value.1)) else rest
  }

  lemma PrependNothing(rest: Result<(seq<Column>, nat)>)
    ensures Prepend([], rest) == rest
  {
    if rest.Ok? {
      assert [] + rest.value.0 == rest.value.0;
    }
  }

  lemma PrependOne(data: Buffer, at: nat, n: nat, done: seq<Column>, c: Column, next: nat)
    requires n > 0 && DecodeColumn(data, at) == Ok((c, next))
    ensures Prepend(done, DecodeColumns(data, at, n)) == Prepend(done + [c], DecodeColumns(data, next, n - 1))
  {
    hide DecodeColumn;
    var rest := DecodeColumns(data, next, n - 1);
    if rest.Ok? {
      assert done + ([c] + rest.value.0) == done + [c] + rest.value.0;
    }
  }

  lemma PrependEnd(done: seq<Column>, data: Buffer, at: nat)
    ensures Prepend(done, DecodeColumns(data, at, 0)) == Ok((done, at))
  {
    assert done + [] == done;
  }

  lemma PrependFailed(data: Buffer, at: nat, n: nat, done: seq<Column>)
    requires n > 0 && DecodeColumn(data, at).IsFailure()
    ensures Prepend(done, DecodeColumns(data, at, n)) == DecodeColumn(data, at).PropagateFailure()
  {
  }

  /** Data.Decode's loop: each column is written into a slice made once. */
  method DecodeColumnsInPlace(data: Buffer, start: nat, n: nat) returns (r: Result<(seq<Column>, nat)>)
    ensures r == DecodeColumns(data, start, n)
  {
    hide DecodeColumn, DecodeColumns, Prepend;
    var at := start;
    var columns := new Column[n](_ => Column(0, 0, []));
    PrependNothing(DecodeColumns(data, start, n));
    assert columns[..0] == [];
    for i := 0 to n
      invariant Prepend(columns[..i], DecodeColumns(data, at, n - i)) == DecodeColumns(data, start, n)
    {
      ghost var at0, done := at, columns[..i];
      if DecodeColumn(data, at).IsFailure() {
        PrependFailed(data, at, n - i, done);
      }
      var col :- DecodeColumn(data, at);
      at := col.1;
      PrependOne(data, at0, n - i, done, col.0, at);
      columns[i] := col.0;
      assert columns[..i + 1] == done + [col.0];
    }
    assert columns[..n] == columns[..];
    PrependEnd(columns[..], data, at);
    r := Ok((columns[..], at));
  }

  method DecodeTupleInPlace(data: Buffer, start: nat) returns (r: Result<Tuple>)
    ensures r == DecodeTuple(data, start)
  {
    var n :- Read(data, start, 2);
    var cs :- DecodeColumnsInPlace(data, start + 2, n);
    r := Ok(Tuple(n, cs.0, cs.1));
  }

  method NewDataInPlace(data: Buffer, tupleType: byte, at: nat) returns (r: Result<Tuple>)
    ensures r == NewData(data, tupleType, at)
  {
    var t :- ReadByte(data, at);
    if t != tupleType {
      return Error;
    }
    r := DecodeTupleInPlace(data, at + 1);
  }

  // ---- strings and relations ----

  /** decodeString: the bytes up to the first zero, and how many were used. */
  function DecodeString(data: Buffer, at: nat): Result<(Buffer, nat)>
    decreases |data| - at
  {
    if at > |data| then Panic
    else if at == |data| then Error
    else if data[at] == 0 then Ok(([], at + 1))
    else
      var (s, next) :- DecodeString(data, at + 1);
      Ok(([data[at]] + s, next))
  }

  function DecodeRelationColumn(data: Buffer, at: nat): Result<(RelationColumn, nat)> {
    var flags :- ReadByte(data, at);
    var (name, at1) :- DecodeString(data, at + 1);
    var dataType :- Read(data, at1, 4);
    var typeModifier :- Read(data, at1 + 4, 4);
    Ok((RelationColumn(flags, name, dataType, typeModifier), at1 + 8))
  }

  function DecodeRelationColumns(data: Buffer, at: nat, n: nat): Result<seq<RelationColumn>>
    decreases n
  {
    if n == 0 then Ok([])
    else
      var (c, next) :- DecodeRelationColumn(data, at);
      var cs :- DecodeRelationColumns(data, next, n - 1);
      Ok([c] + cs)
  }

  /** The XID prefix of a message inside a streamed chunk: its value and where the
      body starts. minimum is the length guard. */
  function DecodePrefix(data: Buffer, streamed: bool, minimum: nat): Result<(nat, nat)> {
    if !streamed then Ok((0, 1))
    else if |data| < minimum then Error
    else
      var xid :- Read(data, 1, 4);
      Ok((xid, 5))
  }

  function DecodeRelation(data: Buffer, streamed: bool): Result<Relation> {
    var (xid, at) :- DecodePrefix(data, streamed, 12);
    if |data| < 8 then Error
    else
      var oid :- Read(data, at, 4);
      var (namespace, at1) :- DecodeString(data, at + 4);
      var (name, at2) :- DecodeString(data, at1);
      var replicaId :- ReadByte(data, at2);
      var n :- Read(data, at2 + 1, 2);
      var columns :- DecodeRelationColumns(data, at2 + 3, n);
      Ok(Relation(xid, oid, namespace, name, replicaId, columns))
  }

  function After<T>(done: seq<T>, rest: Result<seq<T>>): Result<seq<T>> {
    if rest.Ok? then Ok(done + rest.value) else rest
  }

  lemma AfterNothing<T>(rest: Result<seq<T>>)
    ensures After([], rest) == rest
  {
    if rest.Ok? {
      assert [] + rest.value == rest.value;
    }
  }

  lemma AfterOne<T>(done: seq<T>, x: T, rest: Result<seq<T>>)
    ensures rest.Ok? ==> After(done, Ok([x] + rest.value)) == After(done + [x], rest)
  {
    if rest.Ok? {
      assert done + ([x] + rest.value) == done + [x] + rest.value;
    }
  }

  method DecodeRelationColumnsInPlace(data: Buffer, start: nat, n: nat) returns (r: Result<seq<RelationColumn>>)
    ensures r == DecodeRelationColumns(data, start, n)
  {
    hide DecodeRelationColumn;
    var skip := start;
    var columns := new RelationColumn[n](_ => RelationColumn(0, [], 0, 0));
    AfterNothing(DecodeRelationColumns(data, start, n));
    assert columns[..0] == [];
    for i := 0 to n
      invariant After(columns[..i], DecodeRelationColumns(data, skip, n - i)) == DecodeRelationColumns(data, start, n)
    {
      ghost var done := columns[..i];
      var col :- DecodeRelationColumn(data, skip);
      skip := col.1;
      AfterOne(done, col.0, DecodeRelationColumns(data, skip, n - i - 1));
      columns[i] := col.0;
      assert columns[..i + 1] == done + [col.0];
    }
    assert columns[..n] + [] == columns[..];
    r := Ok(columns[..]);
  }

  method DecodeRelationInPlace(data: Buffer, streamed: bool) returns (r: Result<Relation>)
    ensures r == DecodeRelation(data, streamed)
  {
    var xid, skip := 0, 1;
    if streamed {
      if |data| < 12 {
        return Error;
      }
      xid := BigEndian(data[skip..skip + 4]);
      skip := skip + 4;
    }
    if |data| < 8 {
      return Error;
    }
    var oid := BigEndian(data[skip..skip + 4]);
    skip := skip + 4;
    var ns :- DecodeString(data, skip);
    skip := ns.1;
    var nm :- DecodeString(data, skip);
    skip := nm.1;
    var replicaId :- ReadByte(data, skip);
    skip := skip + 1;
    var n :- Read(data, skip, 2);
    skip := skip + 2;
    var columns :- DecodeRelationColumnsInPlace(data, skip, n);
    r := Ok(Relation(xid, oid, ns.0, nm.0, replicaId, columns));
  }

  // ---- control messages, at the offsets of the message formats ----

  function DecodeControl(data: Buffer): Result<Control>
    requires |data| > 0
  {
    if data[0] == 'B' as int then
      if |data| < 20 then Error
      else
        var lsn :- Read(data, 1, 8);
        var time :- Read(data, 9, 8);
        var xid :- Read(data, 17, 4);
        Ok(Begin(lsn, PgTime(time), xid))
    else if data[0] == 'C' as int then
      if |data| < 25 then Error
      else
        var flags :- ReadByte(data, 1);
        var commitLsn :- Read(data, 2, 8);
        var endLsn :- Read(data, 10, 8);
        var time :- Read(data, 18, 8);
        Ok(Commit(flags, commitLsn, endLsn, PgTime(time)))
    else if data[0] == 'S' as int then
      if |data| < 6 then Error
      else Ok(StreamStart(BigEndian(data[1..5]), data[5] == 1))
    else if data[0] == 'E' as int then Ok(StreamStop)
    else if data[0] == 'A' as int then
      if |data| < 9 then Error
      else Ok(StreamAbort(BigEndian(data[1..5]), BigEndian(data[5..9])))
    else if data[0] == 'c' as int then
      if |data| < 30 then Error
      else
        var xid :- Read(data, 1, 4);
        var flags :- ReadByte(data, 5);
        var commitLsn :- Read(data, 6, 8);
        var endLsn :- Read(data, 14, 8);
        var time :- Read(data, 22, 8);
        Ok(StreamCommit(xid, flags, commitLsn, endLsn, PgTime(time)))
    else Error
  }

  // ---- row messages ----

  function DecodeInsert(data: Buffer, streamed: bool, rel: Relations): Result<RowMessage> {
    var (xid, at) :- DecodePrefix(data, streamed, 13);
    if |data| < 9 then Error
    else
      var oid :- Read(data, at, 4);
      var tuple :- NewData(data, NEW_TUPLE, at + 4);
      if oid !in rel then Error
      else Ok(Insert(xid, oid, rel[oid].namespace, rel[oid].name, tuple))
  }

  function DecodeDelete(data: Buffer, streamed: bool, rel: Relations): Result<RowMessage> {
    var (xid, at) :- DecodePrefix(data, streamed, 11);
    if |data| < 7 then Error
    else
      var oid :- Read(data, at, 4);
      var oldType :- ReadByte(data, at + 4);
      var tuple :- NewData(data, oldType, at + 4);
      if oid !in rel then Error
      else Ok(Delete(xid, oid, rel[oid].namespace, rel[oid].name, oldType, tuple))
  }

  /** Columns sent as unchanged are taken from the old tuple, by position. */
  function MergeToast(news: seq<Column>, olds: seq<Column>): Result<seq<Column>> {
    if exists i | 0 <= i < |news| :: news[i].kind == TOAST_COLUMN && i >= |olds| then Panic
    else Ok(seq(|news|, i requires 0 <= i < |news| =>
                  if news[i].kind == TOAST_COLUMN && i < |olds| then olds[i] else news[i]))
  }

  method MergeToastInPlace(columns: array<Column>, olds: seq<Column>) returns (r: Result<()>)
    modifies columns
    ensures var m := MergeToast(old(columns[..]), olds);
            if m.Ok? then r == Ok(()) && columns[..] == m.value else r == Panic
  {
    for i := 0 to columns.Length
      invariant forall k | 0 <= k < i ::
                  && (old(columns[k]).kind == TOAST_COLUMN ==> k < |olds|)
                  && columns[k] == if old(columns[k]).kind == TOAST_COLUMN then olds[k] else old(columns[k])
      invariant forall k | i <= k < columns.Length :: columns[k] == old(columns[k])
    {
      if columns[i].kind == TOAST_COLUMN {
        if i >= |olds| {
          assert old(columns[..])[i].kind == TOAST_COLUMN;
          return Panic;
        }
        columns[i] := olds[i];
      }
    }
    r := Ok(());
  }

  function DecodeUpdate(data: Buffer, streamed: bool, rel: Relations): Result<RowMessage> {
    var (xid, at) :- DecodePrefix(data, streamed, 11);
    if |data| < 7 then Error
    else
      var oid :- Read(data, at, 4);
      var oldType :- ReadByte(data, at + 4);
      if oldType == KEY_TUPLE || oldType == OLD_TUPLE then
        var o :- NewData(data, oldType, at + 4);
        var n :- NewData(data, NEW_TUPLE, o.skipByte);
        var merged :- MergeToast(n.columns, o.columns);
        if oid !in rel then Error
        else Ok(Update(xid, oid, rel[oid].namespace, rel[oid].name, oldType, Some(o), n.(columns := merged)))
      else if oldType == NEW_TUPLE then
        var n :- NewData(data, NEW_TUPLE, at + 4);
        if oid !in rel then Error
        else Ok(Update(xid, oid, rel[oid].namespace, rel[oid].name, oldType, None, n))
      else Error
  }

  function ReadOids(data: Buffer, at: nat, n: nat): Result<seq<nat>>
    decreases n
  {
    if n == 0 then Ok([])
    else
      var oid :- Read(data, at, 4);
      var rest :- ReadOids(data, at + 4, n - 1);
      Ok([oid] + rest)
  }

  function LookUp(oids: seq<nat>, rel: Relations): Result<seq<Relation>> {
    if oids == [] then Ok([])
    else if oids[0] !in rel then Error
    else
      var rest :- LookUp(oids[1..], rel);
      Ok([rel[oids[0]]] + rest)
  }

  function DecodeTruncate(data: Buffer, streamed: bool, rel: Relations): Result<RowMessage> {
    var (xid, at) :- DecodePrefix(data, streamed, 10);
    if |data| < at + 5 then Error
    else
      var count :- Read(data, at, 4);
      var options :- ReadByte(data, at + 4);
      if |data| < at + 5 + count * 4 then Error
      else
        var oids :- ReadOids(data, at + 5, count);
        var tables :- LookUp(oids, rel);
        Ok(Truncate(xid, options, options % 2 == 1, options / 2 % 2 == 1, oids, tables))
  }

  method ReadOidsInPlace(data: Buffer, start: nat, n: nat) returns (r: Result<seq<nat>>)
    ensures r == ReadOids(data, start, n)
  {
    var skip, oids := start, [];
    AfterNothing(ReadOids(data, start, n));
    for i := 0 to n
      invariant After(oids, ReadOids(data, skip, n - i)) == ReadOids(data, start, n)
    {
      var oid :- Read(data, skip, 4);
      skip := skip + 4;
      AfterOne(oids, oid, ReadOids(data, skip, n - i - 1));
      oids := oids + [oid];
    }
    assert oids + [] == oids;
    r := Ok(oids);
  }

  method LookUpInPlace(oids: seq<nat>, rel: Relations) returns (r: Result<seq<Relation>>)
    ensures r == LookUp(oids, rel)
  {
    var tables := [];
    AfterNothing(LookUp(oids, rel));
    assert oids[0..] == oids;
    for i := 0 to |oids|
      invariant After(tables, LookUp(oids[i..], rel)) == LookUp(oids, rel)
    {
      assert oids[i..][1..] == oids[i + 1..];
      if oids[i] !in rel {
        return Error;
      }
      AfterOne(tables, rel[oids[i]], LookUp(oids[i + 1..], rel));
      tables := tables + [rel[oids[i]]];
    }
    assert tables + [] == tables;
    r := Ok(tables);
  }

  method DecodeTruncateInPlace(data: Buffer, streamed: bool, rel: Relations) returns (r: Result<RowMessage>)
    ensures r == DecodeTruncate(data, streamed, rel)
  {
    var xid, skip := 0, 1;
    if streamed {
      if |data| < 10 {
        return Error;
      }
      xid := BigEndian(data[skip..skip + 4]);
      skip := skip + 4;
    }
    if |data| < skip + 5 {
      return Error;
    }
    var count := BigEndian(data[skip..skip + 4]);
    skip := skip + 4;
    var options := data[skip];
    skip := skip + 1;
    if |data| < skip + count * 4 {
      return Error;
    }
    var oids :- ReadOidsInPlace(data, skip, count);
    var tables :- LookUpInPlace(oids, rel);
    r := Ok(Truncate(xid, options, options % 2 == 1, options / 2 % 2 == 1, oids, tables));
  }

  // ---- message.New ----

  function Decode(data: Buffer, streamed: bool, rel: Relations): Result<Decoded> {
    if data == [] then Panic
    else if data[0] == 'I' as int then
      var m :- DecodeInsert(data, streamed, rel);
      Ok(RowLevel(m))
    else if data[0] == 'U' as int then
      var m :- DecodeUpdate(data, streamed, rel);
      Ok(RowLevel(m))
    else if data[0] == 'D' as int then
      var m :- DecodeDelete(data, streamed, rel);
      Ok(RowLevel(m))
    else if data[0] == 'T' as int then
      var m :- DecodeTruncate(data, streamed, rel);
      Ok(RowLevel(m))
    else if data[0] == 'R' as int then
      var m :- DecodeRelation(data, streamed);
      Ok(RowLevel(RelationRow(m)))
    else
      var c :- DecodeControl(data);
      Ok(Control(c))
  }

  /** The relation cache after a message: a decoded Relation replaces its OID's. */
  function Remember(rel: Relations, r: Result<Decoded>): Relations {
    if r.Ok? && r.value.RowLevel? && r.value.row.RelationRow? then
      rel[r.value.row.relation.oid := r.value.row.relation]
    else rel
  }

  /** The stream's decoder with its relation cache. */
  class Decoder {
    var relations: Relations

    constructor ()
      ensures relations == map[]
    {
      relations := map[];
    }

    method DecodeUpdateInPlace(data: Buffer, streamed: bool) returns (r: Result<RowMessage>)
      ensures r == DecodeUpdate(data, streamed, relations)
    {
      var xid, skip := 0, 1;
      if streamed {
        if |data| < 11 {
          return Error;
        }
        xid := BigEndian(data[skip..skip + 4]);
        skip := skip + 4;
      }
      if |data| < 7 {
        return Error;
      }
      var oid := BigEndian(data[skip..skip + 4]);
      skip := skip + 4;
      var oldType := data[skip];
      var olds := None;
      if oldType == KEY_TUPLE || oldType == OLD_TUPLE {
        var o :- NewDataInPlace(data, oldType, skip);
        skip := o.skipByte;
        olds := Some(o);
      } else if oldType != NEW_TUPLE {
        return Error;
      }
      var n :- NewDataInPlace(data, NEW_TUPLE, skip);
      if olds.Some? {
        var columns := new Column[|n.columns|](i requires 0 <= i < |n.columns| => n.columns[i]);
        assert columns[..] == n.columns;
        var merged := MergeToastInPlace(columns, olds.value.columns);
        if merged.Panic? {
          return Panic;
        }
        n := n.(columns := columns[..]);
      }
      if oid !in relations {
        return Error;
      }
      r := Ok(Update(xid, oid, relations[oid].namespace, relations[oid].name, oldType, olds, n));
    }

    method New(data: Buffer, streamed: bool) returns (r: Result<Decoded>)
      modifies this
      ensures r == Decode(data, streamed, old(relations))
      ensures relations == Remember(old(relations), r)
    {
      if data == [] {
        return Panic;
      }
      if data[0] == 'I' as int {
        var m :- DecodeInsert(data, streamed, relations);
        r := Ok(RowLevel(m));
      } else if data[0] == 'U' as int {
        var m :- DecodeUpdateInPlace(data, streamed);
        r := Ok(RowLevel(m));
      } else if data[0] == 'D' as int {
        var m :- DecodeDelete(data, streamed, relations);
        r := Ok(RowLevel(m));
      } else if data[0] == 'T' as int {
        var m :- DecodeTruncateInPlace(data, streamed, relations);
        r := Ok(RowLevel(m));
      } else if data[0] == 'R' as int {
        var m :- DecodeRelationInPlace(data, streamed);
        relations := relations[m.oid := m];
        r := Ok(RowLevel(RelationRow(m)));
      } else {
        var c :- DecodeControl(data);
        r := Ok(Control(c));
      }
    }
  }
}
