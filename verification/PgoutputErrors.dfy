/** What the decoder does with messages it cannot read: too short, of an unknown type, about
    a table that was not announced. */
module PgoutputErrors {
  import opened Basics
  import opened Bytes
  import opened Pgoutput
  import opened PgoutputEncoding

  // ---- pieces ----

  /** A string ends at the first zero; without one it is an error, and a start outside the
      buffer a run-time panic. */
  lemma {:induction false} StringIff(data: Buffer, at: nat)
    ensures DecodeString(data, at).Panic? <==> at > |data|
    ensures DecodeString(data, at).Ok? <==> exists k :: at <= k < |data| && data[k] == 0
    decreases |data| - at
  {
    if at < |data| && data[at] != 0 {
      StringIff(data, at + 1);
    }
  }

  /** Truncated tables are resolved all or not at all. */
  lemma {:induction false} LookUpIff(oids: seq<nat>, rel: Relations)
    ensures if forall o | o in oids :: o in rel then LookUp(oids, rel).Ok? else LookUp(oids, rel) == Error
    decreases |oids|
  {
    if oids != [] {
      LookUpIff(oids[1..], rel);
      assert oids == [oids[0]] + oids[1..];
    }
  }

  /** Merging panics exactly when an unchanged column has no counterpart in the old tuple. */
  lemma MergePanicsIff(news: seq<Column>, olds: seq<Column>)
    ensures var r := MergeToast(news, olds);
            if exists i :: |olds| <= i < |news| && news[i].kind == 'u' as int then r == Panic
            else r.Ok? && |r.value| == |news|
  {
    if i :| 0 <= i < |news| && news[i].kind == TOAST_COLUMN && i >= |olds| { assert |olds| <= i < |news|; }
  }

  /** Bit 0 of a truncate's option byte is CASCADE, bit 1 RESTART IDENTITY, whatever its
      other bits are. */
  lemma OptionBits(data: Buffer, streamed: bool, rel: Relations)
    ensures var r := DecodeTruncate(data, streamed, rel);
            r.Ok? ==>
              && r.value.Truncate? && (r.value.cascade <==> r.value.options % 2 == 1)
              && (r.value.restartIdentity <==> r.value.options % 4 >= 2)
  {
    hide BigEndian, ReadOids, LookUp;
  }

  /** A tuple of another type than expected is an error: an insert's must be new, and so must
      the one after an update's old image. */
  lemma OtherTuples(data: Buffer, streamed: bool, rel: Relations)
    ensures var at := if streamed then 9 else 5;
            && (|data| >= at + 4 && data[at] != 'N' as int ==> DecodeInsert(data, streamed, rel) == Error)
            && (|data| >= at + 2 && data[at] in {'K' as int, 'O' as int} ==>
                  var o := DecodeTuple(data, at + 1);
                  o.Ok? && o.value.skipByte < |data| && data[o.value.skipByte] != 'N' as int ==>
                    DecodeUpdate(data, streamed, rel) == Error)
  {
    hide BigEndian, DecodeColumns, MergeToast;
  }

  // ---- short messages ----

  /** Where the length guards of row messages stand. Below them a message is rejected; at
      them a delete or an update of a known kind, and a Relation with empty names, is read
      outside the buffer, since the guards leave out the column count. */
  lemma ShortMessages(data: Buffer, streamed: bool, rel: Relations)
    requires data != []
    ensures |data| < (if streamed then 13 else 9) ==> DecodeInsert(data, streamed, rel) == Error
    ensures |data| < (if streamed then 10 else 6) ==> DecodeTruncate(data, streamed, rel) == Error
    ensures var guard := if streamed then 11 else 7;
            && (|data| < guard ==>
                  DecodeDelete(data, streamed, rel) == Error && DecodeUpdate(data, streamed, rel) == Error)
            && (|data| == guard ==>
                  && DecodeDelete(data, streamed, rel) == Panic
                  && DecodeUpdate(data, streamed, rel)
                     == if data[guard - 2] in {'K' as int, 'O' as int, 'N' as int} then Panic else Error)
    ensures var guard := if streamed then 12 else 8;
            && (|data| < guard ==> DecodeRelation(data, streamed) == Error)
            && (|data| == guard && data[guard - 3] == 0 && data[guard - 2] == 0 ==>
                  DecodeRelation(data, streamed) == Panic)
  {
    hide BigEndian, DecodeColumns, MergeToast, ReadOids, LookUp, DecodeRelationColumns;
  }

  // ---- unknown types and tables ----

  /** Message types the decoder does not know are rejected, and an empty message is read
      outside its buffer. */
  lemma UnknownTypes(data: Buffer, streamed: bool, rel: Relations)
    ensures data == [] ==> Decode(data, streamed, rel) == Panic
    ensures var known: set<byte> := {'I' as int, 'U' as int, 'D' as int, 'T' as int, 'R' as int, 'B' as int, 'C' as int,
                                     'S' as int, 'E' as int, 'A' as int, 'c' as int};
            data != [] && data[0] !in known ==> Decode(data, streamed, rel) == Error
  {
  }

  /** Control messages below their length guards are rejected. */
  lemma ShortControl(data: Buffer)
    requires data != []
    ensures data[0] == 'B' as int && |data| < 20 ==> DecodeControl(data) == Error
    ensures data[0] == 'C' as int && |data| < 25 ==> DecodeControl(data) == Error
    ensures data[0] == 'S' as int && |data| < 6 ==> DecodeControl(data) == Error
    ensures data[0] == 'A' as int && |data| < 9 ==> DecodeControl(data) == Error
    ensures data[0] == 'c' as int && |data| < 30 ==> DecodeControl(data) == Error
  {
    hide BigEndian;
  }

  lemma UnknownInsert(m: ServerMessage, x: Option<nat>, rel: Relations)
    requires m.SendInsert? && WellFormed(m) && XidFits(x) && m.oid !in rel
    ensures DecodeInsert(Encode(m, x), x.Some?, rel) == Error
  {
    hide Encode, NewData, ColumnsOf, RowEncodable, DecodePrefix, BigEndian;
    InsertDecoded(m, x, rel[m.oid := Relation(0, m.oid, [], [], 0, [])]);
  }

  lemma UnknownDelete(m: ServerMessage, x: Option<nat>, rel: Relations)
    requires m.SendDelete? && WellFormed(m) && XidFits(x) && m.oid !in rel
    ensures DecodeDelete(Encode(m, x), x.Some?, rel) == Error
  {
    hide Encode, NewData, ColumnsOf, RowEncodable, DecodePrefix, BigEndian;
    DeleteDecoded(m, x, rel[m.oid := Relation(0, m.oid, [], [], 0, [])]);
  }

  lemma UnknownUpdate(m: ServerMessage, x: Option<nat>, rel: Relations)
    requires m.SendUpdate? && WellFormed(m) && XidFits(x) && m.oid !in rel
    ensures DecodeUpdate(Encode(m, x), x.Some?, rel) == Error
  {
    hide Encode, NewData, ColumnsOf, RowEncodable, DecodePrefix, BigEndian, MergeToast, Merged, EncodeImage;
    UpdateDecoded(m, x, rel[m.oid := Relation(0, m.oid, [], [], 0, [])]);
  }

  lemma UnknownTruncate(m: ServerMessage, x: Option<nat>, rel: Relations)
    requires m.SendTruncate? && WellFormed(m) && XidFits(x) && exists o :: o in m.oids && o !in rel
    ensures DecodeTruncate(Encode(m, x), x.Some?, rel) == Error
  {
    hide Encode, ReadOids, LookUp, DecodePrefix, BigEndian, TablesOf;
    var some := Relation(0, 0, [], [], 0, []);
    var known := map o | o in m.oids :: some;
    TruncateDecoded(m, x, known);
    LookUpIff(m.oids, rel);
  }

  /** A change of a table that no Relation message announced is rejected. */
  lemma UnannouncedRejected(m: ServerMessage, x: Option<nat>, rel: Relations)
    requires WellFormed(m) && XidFits(x) && !Announced(m, rel)
    ensures Decode(Encode(m, x), x.Some?, rel) == Error
  {
    hide Encode, Prefix, DecodeInsert, DecodeUpdate, DecodeDelete, DecodeTruncate, DecodeRelation, DecodeControl,
         Body, RowEncodable, NoZero, Holds;
    Layout(m, x);
    match m {
      case SendInsert(_, _) => UnknownInsert(m, x, rel);
      case SendUpdate(_, _, _) => UnknownUpdate(m, x, rel);
      case SendDelete(_, _, _) => UnknownDelete(m, x, rel);
      case SendTruncate(_, _, _) => UnknownTruncate(m, x, rel);
    }
  }
}
