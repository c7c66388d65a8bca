/** What an update decodes to, against the row the table really holds, for every
    REPLICA IDENTITY setting. A toasted column that did not change is sent as 'u';
    Update.decode fills it from the old tuple. */
module ReplicaIdentity {
  import opened Basics
  import opened Bytes
  import opened Pgoutput
  import opened PgoutputEncoding

  datatype Identity = FullRow | KeyColumns(key: set<nat>)

  /** A row as stored: nothing is left out. */
  ghost predicate Complete(row: Row) { RowEncodable(row) && forall v | v in row :: !v.Unchanged? }

  /** An update of one row. toast holds the columns stored out of line and not
      changed; keySent says whether a key identity includes the old key. */
  datatype RowUpdate = RowUpdate(oid: nat, identity: Identity, keySent: bool, before: Row, after: Row, toast: set<nat>)

  ghost predicate Possible(u: RowUpdate) {
    && u.oid < 0x1_0000_0000 && Complete(u.before) && Complete(u.after) && |u.before| == |u.after|
    && forall i | i in u.toast :: i < |u.after| && u.before[i] == u.after[i] && !u.after[i].Null?
  }

  function SentRow(u: RowUpdate): (row: Row)
    ensures |row| == |u.after|
  {
    seq(|u.after|, i requires 0 <= i < |u.after| => if i in u.toast then Unchanged else u.after[i])
  }

  function KeyImage(row: Row, key: set<nat>): (image: Row)
    ensures |image| == |row|
  {
    seq(|row|, i requires 0 <= i < |row| => if i in key then row[i] else Null)
  }

  function SentImage(u: RowUpdate): OldImage {
    match u.identity
    case FullRow => Full(u.before)
    case KeyColumns(key) => if u.keySent then Key(KeyImage(u.before, key)) else NoOld
  }

  function Sent(u: RowUpdate): ServerMessage { SendUpdate(u.oid, SentImage(u), SentRow(u)) }

  lemma SentWellFormed(u: RowUpdate)
    requires Possible(u)
    ensures WellFormed(Sent(u))
  {
  }

  /** The new columns the listener sees. */
  function Received(u: RowUpdate, x: Option<nat>, rel: Relations): Result<Decoded> {
    Decode(Encode(Sent(u), x), x.Some?, rel)
  }

  /** What the decoder can recover: always with a full identity; with a key
      identity only the columns of the key; without an old tuple nothing. */
  ghost predicate Recoverable(u: RowUpdate, i: nat) {
    u.identity.FullRow? || (u.keySent && i in u.identity.key)
  }

  function SeenColumn(u: RowUpdate, i: nat): Column
    requires i < |u.after|
  {
    if i !in u.toast || u.identity.FullRow? || (u.keySent && i in u.identity.key) then ColumnOf(u.after[i])
    else if u.keySent then ColumnOf(Null)
    else ColumnOf(Unchanged)
  }

  lemma SeenColumns(u: RowUpdate, x: Option<nat>, rel: Relations)
    requires Possible(u) && XidFits(x) && u.oid in rel
    ensures var r := Received(u, x, rel);
            && r.Ok? && r.value.RowLevel? && r.value.row.Update?
            && var columns := r.value.row.tuple.columns;
            |columns| == |u.after| && forall i | 0 <= i < |columns| :: columns[i] == SeenColumn(u, i)
  {
    hide Encode, Prefix, Decode, EncodeImage, RowEncodable;
    SentWellFormed(u);
    DecodeAfterEncode(Sent(u), x, rel);
  }

  /** The row a listener sees is the row the table holds, with no 'u' column left,
      exactly when every unchanged toasted column is recoverable; in particular
      always under REPLICA IDENTITY FULL. */
  lemma RestoredIff(u: RowUpdate, x: Option<nat>, rel: Relations)
    requires Possible(u) && XidFits(x) && u.oid in rel
    ensures var r := Received(u, x, rel);
            && r.Ok? && r.value.RowLevel? && r.value.row.Update?
            && (r.value.row.tuple.columns == ColumnsOf(u.after) <==> forall i | i in u.toast :: Recoverable(u, i))
  {
    hide Encode, Decode, Received;
    SeenColumns(u, x, rel);
    var columns := Received(u, x, rel).value.row.tuple.columns;
    if i :| i in u.toast && !Recoverable(u, i) {
      assert u.after[i] in u.after;
      assert columns[i].kind != ColumnsOf(u.after)[i].kind;
    } else {
      assert columns == ColumnsOf(u.after);
    }
  }

  /** When a key identity sends the old key, an unchanged toasted column outside it
      reaches the listener as NULL, although the table still holds its value; when
      it sends none, the column stays marked as unchanged. */
  lemma UnrecoverableColumn(u: RowUpdate, x: Option<nat>, rel: Relations, i: nat)
    requires Possible(u) && XidFits(x) && u.oid in rel && i in u.toast && !Recoverable(u, i)
    ensures var r := Received(u, x, rel);
            && r.Ok? && r.value.RowLevel? && r.value.row.Update? && i < |r.value.row.tuple.columns|
            && r.value.row.tuple.columns[i].kind == (if u.keySent then NULL_COLUMN else TOAST_COLUMN)
            && r.value.row.tuple.columns[i] != ColumnOf(u.after[i])
  {
    hide Encode, Decode, Received;
    SeenColumns(u, x, rel);
    assert u.after[i] in u.after;
  }
}
