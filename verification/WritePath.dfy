/** The local write path: how `put` and `delete` change a row, which op they publish for
    it, and when the row a device keeps is the row every other device will merge. */
module WritePath {
  import opened Options
  import opened Hlc
  import opened Merge

  /** One change: a batch of ops published as one mailbox file. */
  datatype Change = Change(id: string, hlc: Hlc, ops: seq<Op>)

  // ---- Stamps of a row ---------------------------------------------------------

  /** `h` is a stamp found in the row: a column's or the tombstone's. */
  ghost predicate StampOf(row: Row, h: Hlc) {
    row.deletedHlc == Some(h) || exists f :: f in row.payload && row.payload[f].hlc == h
  }

  ghost predicate NewestStamp(row: Row, h: Hlc) {
    StampOf(row, h) && forall g :: StampOf(row, g) ==> Leq(g, h)
  }

  /** The newest stamp of a row, found by one pass over its columns. */
  method RowHlc(row: Row) returns (newest: Option<Hlc>)
    ensures newest.None? <==> row.deletedHlc.None? && row.payload == map[]
    ensures newest.Some? ==> NewestStamp(row, newest.value)
  {
    newest := row.deletedHlc;
    var todo := row.payload.Keys;
    ghost var done := {};
    hide Less;
    TotalOrder();
    while todo != {}
      invariant done !! todo && done + todo == row.payload.Keys
      invariant newest.None? <==> row.deletedHlc.None? && done == {}
      invariant newest.Some? ==> StampOf(row, newest.value)
      invariant newest.Some? && row.deletedHlc.Some? ==> Leq(row.deletedHlc.value, newest.value)
      invariant forall f :: f in done ==> newest.Some? && Leq(row.payload[f].hlc, newest.value)
      decreases todo
    {
      var f :| f in todo;
      if newest.None? || Less(newest.value, row.payload[f].hlc) {
        newest := Some(row.payload[f].hlc);
      }
      todo, done := todo - {f}, done + {f};
    }
  }

  // ---- Rows to ops -------------------------------------------------------------

  function RowToOp(key: Key, row: Row): Option<Op> {
    if row.deleted then
      if row.deletedHlc.Some? then Some(Delete(key, row.deletedHlc.value)) else None
    else if row.payload == map[] then None
    else Some(Upsert(key, row.payload))
  }

  /** The two shapes a row takes: a bare tombstone, or a live row without one. */
  predicate WellFormed(row: Row) {
    if row.deleted then row.deletedHlc.Some? && row.payload == map[] else row.deletedHlc.None?
  }

  /** A row that its own op describes completely. */
  predicate Publishable(row: Row) { WellFormed(row) && (row.deleted || row.payload != map[]) }

  lemma SettledIsPublishable(history: set<Op>, k: Key, row: Row)
    requires Settled(history, k, Some(row))
    ensures Publishable(row)
  {
    if !row.deleted {
      var f :| f in row.payload && !Overtaken(history, k, row.payload[f].hlc);
    }
  }

  // ---- put ---------------------------------------------------------------------

  function Written(fields: map<Field, Value>, p: Hlc): map<Field, Cell> {
    map f | f in fields :: Cell(fields[f], p)
  }

  /** The row a device keeps after `put`: a deleted row starts again from nothing. */
  function PutRow(row: Option<Row>, fields: map<Field, Value>, p: Hlc): Row {
    var base := if row.None? || row.value.deleted then map[] else row.value.payload;
    Row(false, None, base + Written(fields, p))
  }

  /** A put is read back: the row is live, each field put holds its value under the new stamp, and the
      other fields are those the row had, or none if it was deleted. */
  lemma PutIsRead(row: Option<Row>, fields: map<Field, Value>, p: Hlc)
    ensures var next := PutRow(row, fields, p);
      && !next.deleted && next.deletedHlc.None?
      && (forall f :: f in fields ==> At(next.payload, f) == Some(Cell(fields[f], p)))
      && (forall f :: f !in fields ==>
            At(next.payload, f) == if row.Some? && !row.value.deleted then At(row.value.payload, f) else None)
  {}

  /** The stamp `p` may overwrite these fields of the row. */
  predicate Supersedes(row: Option<Row>, fields: map<Field, Value>, p: Hlc) {
    row.None?
    || (if row.value.deleted then row.value.deletedHlc.Some? ==> Less(row.value.deletedHlc.value, p)
        else forall f :: f in fields && f in row.value.payload ==>
               Less(row.value.payload[f].hlc, p) || row.value.payload[f] == Cell(fields[f], p))
  }

  lemma PutOverTombstone(key: Key, d: Hlc, fields: map<Field, Value>, p: Hlc)
    requires fields != map[]
    ensures var row := Row(true, Some(d), map[]);
            UpsertRow(key, Some(row), PutRow(Some(row), fields, p).payload) == Ok(PutRow(Some(row), fields, p))
            <==> Less(d, p)
  {
    var written := Written(fields, p);
    var some :| some in fields;
    assert map[] + written == written && some in written;
    if Less(d, p) {
      assert NewerThan(written, d) == written;
      assert MergeColumns(map[], written) == written;
    } else {
      assert NewerThan(written, d) == map[];
    }
  }

  lemma PutOverLive(key: Key, p: map<Field, Cell>, fields: map<Field, Value>, h: Hlc)
    ensures UpsertRow(key, Some(Row(false, None, p)), p + Written(fields, h)) == Ok(Row(false, None, p + Written(fields, h)))
            <==> Supersedes(Some(Row(false, None, p)), fields, h)
  {
    var next := p + Written(fields, h);
    hide Less;
    TotalOrder();
    assert forall f :: f in p && f !in fields ==> ChooseCell(At(p, f), next[f]) == Keep;
    if Supersedes(Some(Row(false, None, p)), fields, h) {
      assert forall f :: f in fields ==> ChooseCell(At(p, f), next[f]) != Conflict;
      assert MergeColumns(p, next) == next;
    } else {
      var f :| f in fields && f in p && !Less(p[f].hlc, h) && p[f] != Cell(fields[f], h);
      assert next[f] == Cell(fields[f], h);
      if !Clashes(p, next) {
        assert ChooseCell(At(p, f), next[f]) != Conflict;
        assert MergeColumns(p, next)[f] == p[f];
      }
    }
  }

  /** A device keeps exactly the row that merging its own published op would give,
      if and only if the new stamp supersedes what it overwrites. */
  lemma PutRefinesMergeIff(key: Key, row: Option<Row>, fields: map<Field, Value>, p: Hlc)
    requires row.Some? ==> WellFormed(row.value)
    requires fields != map[]
    ensures var next := PutRow(row, fields, p);
            && RowToOp(key, next).Some?
            && (ApplyToRow(row, RowToOp(key, next).value) == Ok(next) <==> Supersedes(row, fields, p))
  {
    var next := PutRow(row, fields, p);
    var some :| some in fields;
    assert some in next.payload;
    match row {
      case None =>
        assert !Clashes(map[], next.payload) && MergeColumns(map[], next.payload) == next.payload;
      case Some(r) =>
        if r.deleted {
          PutOverTombstone(key, r.deletedHlc.value, fields, p);
        } else {
          PutOverLive(key, r.payload, fields, p);
        }
    }
  }

  /** An empty `put` over a tombstone revives the row locally and publishes nothing. */
  lemma EmptyPutForks(key: Key, d: Hlc, p: Hlc)
    ensures var row := Row(true, Some(d), map[]);
            PutRow(Some(row), map[], p) != row && RowToOp(key, PutRow(Some(row), map[], p)) == None
  {}

  /** The row a device keeps is the row others will hold: merging its op gives it, or there is
      nothing to publish and nothing changed. */
  ghost predicate Refines(key: Key, row: Option<Row>, next: Row) {
    match RowToOp(key, next)
    case None => row == Some(next)
    case Some(op) => ApplyToRow(row, op) == Ok(next)
  }

  /** A `put` without fields refines merging exactly on live rows. */
  lemma EmptyPutRefinesIff(key: Key, row: Option<Row>, p: Hlc)
    requires row.Some? ==> WellFormed(row.value)
    ensures Refines(key, row, PutRow(row, map[], p)) <==> row.Some? && !row.value.deleted
  {
    if row.Some? && !row.value.deleted {
      var payload := row.value.payload;
      assert payload + Written(map[], p) == payload;
      if payload != map[] { RefillRow(key, row.value, row); }
    } else {
      assert map[] + Written(map[], p) == map[];
    }
  }

  // ---- delete ------------------------------------------------------------------

  /** Deleting a live row refines merging its own op iff no column is newer than the stamp. */
  lemma DeleteRefinesMergeIff(key: Key, row: Row, p: Hlc)
    requires WellFormed(row) && !row.deleted
    ensures var next := Row(true, Some(p), map[]);
            && RowToOp(key, next) == Some(Delete(key, p))
            && (ApplyToRow(Some(row), Delete(key, p)) == Ok(next) <==> forall f :: f in row.payload ==> Leq(row.payload[f].hlc, p))
  {}

  // ---- The pending batch ---------------------------------------------------------

  /** Every stamp carried by the op is at or below `h`. */
  ghost predicate OpUpTo(op: Op, h: Hlc) {
    match op
    case Delete(_, d) => Leq(d, h)
    case Upsert(_, columns) => forall f :: f in columns ==> Leq(columns[f].hlc, h)
  }

  ghost predicate OpsUpTo(ops: seq<Op>, h: Hlc) { forall op :: op in ops ==> OpUpTo(op, h) }

  /** A change whose stamp bounds the stamps of all its ops. */
  ghost predicate Bounded(c: Change) { OpsUpTo(c.ops, c.hlc) }

  /** Add a change to the pending batch, or start one with it. */
  function Commit(pending: Option<Change>, c: Change): Change {
    match pending
    case None => c
    case Some(batch) => Change(batch.id, if Less(batch.hlc, c.hlc) then c.hlc else batch.hlc, batch.ops + c.ops)
  }

  lemma OpUpToMonotone(op: Op, h: Hlc, h': Hlc)
    requires OpUpTo(op, h) && Leq(h, h')
    ensures OpUpTo(op, h')
  {
    match op
    case Delete(_, d) => Transitive(d, h, h');
    case Upsert(_, columns) =>
      forall f | f in columns ensures Leq(columns[f].hlc, h') { Transitive(columns[f].hlc, h, h'); }
  }

  lemma CommitKeepsBounded(pending: Option<Change>, c: Change)
    requires (pending.Some? ==> Bounded(pending.value)) && Bounded(c)
    ensures Bounded(Commit(pending, c))
    ensures Leq(c.hlc, Commit(pending, c).hlc) && (pending.Some? ==> Leq(pending.value.hlc, Commit(pending, c).hlc))
  {
    Trichotomy(c.hlc, c.hlc);
    if pending.Some? {
      var batch, next := pending.value, Commit(pending, c);
      Trichotomy(batch.hlc, batch.hlc);
      Trichotomy(batch.hlc, c.hlc);
      forall op | op in next.ops ensures OpUpTo(op, next.hlc) {
        if op in batch.ops { OpUpToMonotone(op, batch.hlc, next.hlc); } else { OpUpToMonotone(op, c.hlc, next.hlc); }
      }
    }
  }

  lemma RowOpUpTo(key: Key, row: Row, h: Hlc)
    requires RowToOp(key, row).Some? && forall g :: StampOf(row, g) ==> Leq(g, h)
    ensures OpUpTo(RowToOp(key, row).value, h)
  {
    if !row.deleted {
      forall f | f in row.payload ensures Leq(row.payload[f].hlc, h) { assert StampOf(row, row.payload[f].hlc); }
    } else {
      assert StampOf(row, row.deletedHlc.value);
    }
  }

  // ---- Refill --------------------------------------------------------------------

  /** The ops that republish a whole local store. */
  function RefillOps(rows: Rows): set<Op> {
    set k | k in rows && RowToOp(k, rows[k]).Some? :: RowToOp(k, rows[k]).value
  }

  lemma RefillRow(key: Key, row: Row, current: Option<Row>)
    requires Publishable(row) && (current.None? || current == Some(row))
    ensures RowToOp(key, row).Some? && ApplyToRow(current, RowToOp(key, row).value) == Ok(row)
  {
    if row.deleted {
      Trichotomy(row.deletedHlc.value, row.deletedHlc.value);
    } else {
      assert forall f :: f in row.payload ==> !Less(row.payload[f].hlc, row.payload[f].hlc) by {
        forall f | f in row.payload ensures !Less(row.payload[f].hlc, row.payload[f].hlc) {
          Trichotomy(row.payload[f].hlc, row.payload[f].hlc);
        }
      }
      assert MergeColumns(map[], row.payload) == row.payload;
      assert MergeColumns(row.payload, row.payload) == row.payload;
      assert !Clashes(map[], row.payload) && !Clashes(row.payload, row.payload);
    }
  }

  /** The part of `rows` that a sequence of its refill ops has rebuilt. */
  function Rebuilt(rows: Rows, ops: seq<Op>): Rows {
    map k | k in rows && (exists op :: op in ops && op.key == k) :: rows[k]
  }

  lemma {:induction false} RefillReplays(rows: Rows, done: seq<Op>, ops: seq<Op>)
    requires forall op :: op in done + ops ==> op in RefillOps(rows)
    requires forall k :: k in rows && RowToOp(k, rows[k]).Some? ==> Publishable(rows[k])
    ensures ApplyOps(Rebuilt(rows, done), ops) == Ok(Rebuilt(rows, done + ops))
    decreases |ops|
  {
    if ops == [] {
      assert done + ops == done;
    } else {
      var op := ops[0];
      assert op in done + ops;
      var k :| k in rows && RowToOp(k, rows[k]) == Some(op);
      RefillRow(k, rows[k], Get(Rebuilt(rows, done), k));
      var more := done + [op];
      assert op in more && (forall o :: o in more <==> o in done || o == op);
      assert Rebuilt(rows, done)[k := rows[k]] == Rebuilt(rows, more);
      assert more + ops[1..] == done + ops;
      RefillReplays(rows, more, ops[1..]);
    }
  }

  lemma RefillNamesKey(rows: Rows, op: Op)
    requires op in RefillOps(rows)
    ensures op.key in rows && RowToOp(op.key, rows[op.key]) == Some(op)
  {}

  lemma RefillRebuilds(rows: Rows, ops: seq<Op>)
    requires Elements(ops) == RefillOps(rows)
    requires forall k :: k in rows && RowToOp(k, rows[k]).Some? ==> Publishable(rows[k])
    ensures ApplyOps(map[], ops) == Ok(Rebuilt(rows, ops))
  {
    assert forall op :: op in ops ==> op in Elements(ops);
    assert Rebuilt(rows, []) == map[] && [] + ops == ops;
    RefillReplays(rows, [], ops);
  }

  lemma RefillCovers(rows: Rows, ops: seq<Op>, k: Key)
    requires Elements(ops) == RefillOps(rows) && k in rows && WellFormed(rows[k])
    ensures k in Rebuilt(rows, ops) <==> Publishable(rows[k])
  {
    if Publishable(rows[k]) {
      var op := RowToOp(k, rows[k]).value;
      assert op in Elements(ops) && op.key == k;
    } else if op :| op in ops && op.key == k {
      assert op in Elements(ops);
      RefillNamesKey(rows, op);
    }
  }

  /** Refill round trip: replaying the refill ops of a store, in any order and with any
      repetition, into an empty replica rebuilds every row exactly, if and only if no live
      row is empty. */
  lemma RefillRoundTripIff(rows: Rows, ops: seq<Op>)
    requires Elements(ops) == RefillOps(rows) && forall k :: k in rows ==> WellFormed(rows[k])
    ensures ApplyOps(map[], ops) == Ok(rows) <==> forall k :: k in rows ==> Publishable(rows[k])
  {
    RefillRebuilds(rows, ops);
    forall k | k in rows ensures k in Rebuilt(rows, ops) <==> Publishable(rows[k]) { RefillCovers(rows, ops, k); }
    if forall k :: k in rows ==> Publishable(rows[k]) {
      assert Rebuilt(rows, ops) == rows;
    }
  }
}
