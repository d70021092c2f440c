/** Row state and the last-writer-wins merge that every replica applies to it. */
module Merge {
  import opened Options
  import opened Hlc

  type Field = string
  type Value = string

  datatype Key = Key(table: string, rowId: string)
  datatype Cell = Cell(value: Value, hlc: Hlc)
  datatype Row = Row(deleted: bool, deletedHlc: Option<Hlc>, payload: map<Field, Cell>)
  datatype Op =
    | Upsert(key: Key, columns: map<Field, Cell>)
    | Delete(key: Key, hlc: Hlc)

  type Rows = map<Key, Row>

  /** Two different values claim the same stamp in one field. */
  datatype Clash = Clash(key: Key)

  function Get(rows: Rows, k: Key): Option<Row> {
    if k in rows then Some(rows[k]) else None
  }

  // ---- One cell, one row, one op -------------------------------------------

  datatype CellChoice = Take | Keep | Conflict

  function ChooseCell(current: Option<Cell>, incoming: Cell): CellChoice {
    if current.None? then Take
    else if Less(current.value.hlc, incoming.hlc) then Take
    else if Less(incoming.hlc, current.value.hlc) then Keep
    else if current.value.value == incoming.value then Keep
    else Conflict
  }

  function At(payload: map<Field, Cell>, f: Field): Option<Cell> {
    if f in payload then Some(payload[f]) else None
  }

  predicate Clashes(payload: map<Field, Cell>, columns: map<Field, Cell>) {
    exists f :: f in columns && ChooseCell(At(payload, f), columns[f]) == Conflict
  }

  function MergeColumns(payload: map<Field, Cell>, columns: map<Field, Cell>): map<Field, Cell> {
    map f | f in payload.Keys + columns.Keys ::
      if f in columns && ChooseCell(At(payload, f), columns[f]) == Take then columns[f]
      else if f in payload then payload[f]
      else columns[f]
  }

  function NewerThan(columns: map<Field, Cell>, d: Hlc): map<Field, Cell> {
    map f | f in columns && Less(d, columns[f].hlc) :: columns[f]
  }

  function DeleteRow(row: Option<Row>, h: Hlc): Row {
    if row.Some?
       && ((row.value.deletedHlc.Some? && Leq(h, row.value.deletedHlc.value))
           || exists f :: f in row.value.payload && Less(h, row.value.payload[f].hlc))
    then row.value
    else Row(true, Some(h), map[])
  }

  function UpsertRow(key: Key, row: Option<Row>, columns: map<Field, Cell>): Result<Row, Clash> {
    var r := if row.Some? then row.value else Row(false, None, map[]);
    if r.deleted && r.deletedHlc.Some? then
      var newer := NewerThan(columns, r.deletedHlc.value);
      if newer == map[] then Ok(r) else Ok(Row(false, None, MergeColumns(map[], newer)))
    else if Clashes(r.payload, columns) then Err(Clash(key))
    else Ok(r.(payload := MergeColumns(r.payload, columns)))
  }

  function ApplyToRow(row: Option<Row>, op: Op): Result<Row, Clash> {
    match op
    case Delete(_, h) => Ok(DeleteRow(row, h))
    case Upsert(k, columns) => UpsertRow(k, row, columns)
  }

  function ApplyOp(rows: Rows, op: Op): Result<Rows, Clash> {
    match ApplyToRow(Get(rows, op.key), op)
    case Ok(row) => Ok(rows[op.key := row])
    case Err(e) => Err(e)
  }

  function ApplyOps(rows: Rows, ops: seq<Op>): Result<Rows, Clash>
    decreases |ops|
  {
    if ops == [] then Ok(rows)
    else
      match ApplyOp(rows, ops[0])
      case Ok(next) => ApplyOps(next, ops[1..])
      case Err(e) => Err(e)
  }

  // ---- The meaning of a history ---------------------------------------------

  /** Some upsert of the history wrote cell `c` to field `f` of row `k`. */
  ghost predicate Stamped(history: set<Op>, k: Key, f: Field, c: Cell) {
    exists op :: op in history && op.Upsert? && op.key == k && f in op.columns && op.columns[f] == c
  }

  ghost predicate DeletedAt(history: set<Op>, k: Key, h: Hlc) { Delete(k, h) in history }

  /** A delete of the history is at or above the stamp. */
  ghost predicate Overtaken(history: set<Op>, k: Key, h: Hlc) {
    exists d :: DeletedAt(history, k, d) && Leq(h, d)
  }

  /** One (row, field, stamp) carries one value. */
  ghost predicate Functional(history: set<Op>) {
    forall k, f, c, c' :: Stamped(history, k, f, c) && Stamped(history, k, f, c') && c.hlc == c'.hlc ==> c == c'
  }

  ghost predicate NonEmpty(history: set<Op>) {
    forall op :: op in history && op.Upsert? ==> op.columns != map[]
  }

  ghost predicate Touched(history: set<Op>, k: Key) { exists op :: op in history && op.key == k }

  ghost predicate Buried(history: set<Op>, k: Key, d: Hlc) {
    && DeletedAt(history, k, d)
    && (forall h :: DeletedAt(history, k, h) ==> Leq(h, d))
    && (forall f, c :: Stamped(history, k, f, c) ==> Leq(c.hlc, d))
  }

  ghost predicate Alive(history: set<Op>, k: Key, p: map<Field, Cell>) {
    && (forall f :: f in p ==> Stamped(history, k, f, p[f]))
    && (exists f :: f in p && !Overtaken(history, k, p[f].hlc))
    && (forall f, c :: Stamped(history, k, f, c) && !Overtaken(history, k, c.hlc) ==> f in p && Leq(c.hlc, p[f].hlc))
  }

  /** The row is a correct merge of the history, in whatever order it was applied. */
  ghost predicate Settled(history: set<Op>, k: Key, row: Option<Row>) {
    match row
    case None => !Touched(history, k)
    case Some(Row(true, Some(d), p)) => p == map[] && Buried(history, k, d)
    case Some(Row(false, None, p)) => Alive(history, k, p)
    case _ => false
  }

  ghost predicate AllSettled(history: set<Op>, rows: Rows) {
    forall k :: Settled(history, k, Get(rows, k))
  }

  // ---- Every op keeps the meaning -------------------------------------------

  lemma StampedMore(history: set<Op>, op: Op)
    ensures forall k, f, c :: Stamped(history + {op}, k, f, c) <==>
              Stamped(history, k, f, c) || (op.Upsert? && op.key == k && f in op.columns && op.columns[f] == c)
    ensures forall k, h :: DeletedAt(history + {op}, k, h) <==> DeletedAt(history, k, h) || op == Delete(k, h)
    ensures forall k, h :: Overtaken(history, k, h) ==> Overtaken(history + {op}, k, h)
    ensures op.Upsert? ==> forall k, h :: Overtaken(history + {op}, k, h) <==> Overtaken(history, k, h)
    ensures forall k :: Touched(history + {op}, k) <==> Touched(history, k) || op.key == k
  {
    forall k, f, c ensures Stamped(history + {op}, k, f, c) <==>
                             Stamped(history, k, f, c) || (op.Upsert? && op.key == k && f in op.columns && op.columns[f] == c)
    {
      if op.Upsert? && op.key == k && f in op.columns && op.columns[f] == c {
        assert op in history + {op};
      }
    }
    assert op in history + {op};
  }

  lemma OtherRowsUntouched(history: set<Op>, k: Key, row: Option<Row>, op: Op)
    requires Settled(history, k, row) && op.key != k
    ensures Settled(history + {op}, k, row)
  {
    hide Less;
    StampedMore(history, op);
  }

  lemma DeleteIgnored(history: set<Op>, k: Key, p: map<Field, Cell>, h: Hlc, newer: Field)
    requires Alive(history, k, p) && newer in p && Less(h, p[newer].hlc)
    ensures Alive(history + {Delete(k, h)}, k, p)
  {
    hide Less;
    TotalOrder();
    StampedMore(history, Delete(k, h));
    var top :| top in p && !Overtaken(history, k, p[top].hlc);
    var peak := if Less(p[newer].hlc, p[top].hlc) then top else newer;
    assert Leq(p[top].hlc, p[peak].hlc) && Less(h, p[peak].hlc);
    assert !Overtaken(history + {Delete(k, h)}, k, p[peak].hlc);
  }

  lemma DeleteBuries(history: set<Op>, k: Key, p: map<Field, Cell>, h: Hlc)
    requires Alive(history, k, p) && forall f :: f in p ==> Leq(p[f].hlc, h)
    ensures Buried(history + {Delete(k, h)}, k, h)
  {
    hide Less;
    TotalOrder();
    StampedMore(history, Delete(k, h));
    var top :| top in p && !Overtaken(history, k, p[top].hlc);
    forall d | DeletedAt(history, k, d) ensures Leq(d, h) {
      assert Less(d, p[top].hlc);
    }
  }

  lemma DeleteSettles(history: set<Op>, k: Key, row: Option<Row>, h: Hlc)
    requires Settled(history, k, row)
    ensures Settled(history + {Delete(k, h)}, k, Some(DeleteRow(row, h)))
  {
    hide Less;
    if row.Some? && !row.value.deleted {
      var p := row.value.payload;
      if newer :| newer in p && Less(h, p[newer].hlc) {
        DeleteIgnored(history, k, p, h, newer);
      } else {
        DeleteBuries(history, k, p, h);
      }
    } else {
      TotalOrder();
      StampedMore(history, Delete(k, h));
      assert row.None? ==> forall f, c :: Stamped(history, k, f, c) ==> Touched(history, k);
    }
  }

  lemma UpsertSettlesNew(history: set<Op>, k: Key, columns: map<Field, Cell>)
    requires !Touched(history, k) && columns != map[]
    ensures Settled(history + {Upsert(k, columns)}, k, Some(Row(false, None, columns)))
  {
    hide Less;
    TotalOrder();
    var op := Upsert(k, columns);
    StampedMore(history, op);
    assert forall f, c :: Stamped(history, k, f, c) ==> Touched(history, k);
    var f :| f in columns;
    assert !Overtaken(history + {op}, k, columns[f].hlc);
  }

  lemma UpsertSettlesTombstone(history: set<Op>, k: Key, d: Hlc, columns: map<Field, Cell>)
    requires Buried(history, k, d)
    ensures var newer := NewerThan(columns, d);
            Settled(history + {Upsert(k, columns)}, k,
                    Some(if newer == map[] then Row(true, Some(d), map[]) else Row(false, None, newer)))
  {
    hide Less;
    TotalOrder();
    var op := Upsert(k, columns);
    StampedMore(history, op);
    var newer := NewerThan(columns, d);
    if newer == map[] {
      forall f | f in columns ensures Leq(columns[f].hlc, d) {
        assert f !in newer;
      }
    } else {
      var f :| f in newer;
      assert !Overtaken(history + {op}, k, newer[f].hlc);
    }
  }

  lemma NoClash(history: set<Op>, k: Key, p: map<Field, Cell>, columns: map<Field, Cell>)
    requires Functional(history + {Upsert(k, columns)})
    requires forall f :: f in p ==> Stamped(history, k, f, p[f])
    ensures !Clashes(p, columns)
  {
    hide Less;
    TotalOrder();
    StampedMore(history, Upsert(k, columns));
    forall f | f in columns ensures ChooseCell(At(p, f), columns[f]) != Conflict {
      assert Stamped(history + {Upsert(k, columns)}, k, f, columns[f]);
    }
  }

  lemma MergeTakesNewest(p: map<Field, Cell>, columns: map<Field, Cell>)
    requires !Clashes(p, columns)
    ensures var q := MergeColumns(p, columns);
            && (forall f :: f in p ==> f in q && Leq(p[f].hlc, q[f].hlc))
            && (forall f :: f in columns ==> f in q && Leq(columns[f].hlc, q[f].hlc))
            && (forall f :: f in q ==> (f in p && q[f] == p[f]) || (f in columns && q[f] == columns[f]))
  {
    hide Less;
    TotalOrder();
  }

  lemma NotOvertakenAbove(history: set<Op>, k: Key, low: Hlc, high: Hlc)
    requires !Overtaken(history, k, low) && Leq(low, high)
    ensures !Overtaken(history, k, high)
  {
    forall d | DeletedAt(history, k, d) && Leq(high, d) ensures false {
      Transitive(low, high, d);
    }
  }

  lemma MergedCellsStamped(history: set<Op>, k: Key, p: map<Field, Cell>, columns: map<Field, Cell>)
    requires !Clashes(p, columns) && forall f :: f in p ==> Stamped(history, k, f, p[f])
    ensures var q := MergeColumns(p, columns);
            forall f :: f in q ==> Stamped(history + {Upsert(k, columns)}, k, f, q[f])
  {
    MergeTakesNewest(p, columns);
    hide *;
    StampedMore(history, Upsert(k, columns));
  }

  lemma MergedCellsCover(history: set<Op>, k: Key, p: map<Field, Cell>, columns: map<Field, Cell>, f: Field, c: Cell)
    requires Alive(history, k, p) && !Clashes(p, columns)
    requires var after := history + {Upsert(k, columns)}; Stamped(after, k, f, c) && !Overtaken(after, k, c.hlc)
    ensures var q := MergeColumns(p, columns); f in q && Leq(c.hlc, q[f].hlc)
  {
    MergeTakesNewest(p, columns);
    StampedMore(history, Upsert(k, columns));
    if Stamped(history, k, f, c) {
      Transitive(c.hlc, p[f].hlc, MergeColumns(p, columns)[f].hlc);
    }
  }

  lemma UpsertSettlesLive(history: set<Op>, k: Key, p: map<Field, Cell>, columns: map<Field, Cell>)
    requires Alive(history, k, p) && Functional(history + {Upsert(k, columns)})
    ensures !Clashes(p, columns)
    ensures Alive(history + {Upsert(k, columns)}, k, MergeColumns(p, columns))
  {
    NoClash(history, k, p, columns);
    var after, q := history + {Upsert(k, columns)}, MergeColumns(p, columns);
    MergedCellsStamped(history, k, p, columns);
    forall f, c | Stamped(after, k, f, c) && !Overtaken(after, k, c.hlc) ensures f in q && Leq(c.hlc, q[f].hlc) {
      MergedCellsCover(history, k, p, columns, f, c);
    }
    var top :| top in p && !Overtaken(history, k, p[top].hlc);
    assert top in q && !Overtaken(after, k, q[top].hlc) by {
      MergeTakesNewest(p, columns);
      StampedMore(history, Upsert(k, columns));
      NotOvertakenAbove(after, k, p[top].hlc, q[top].hlc);
    }
  }

  /** Applying one more op to a settled row cannot throw and leaves it settled. */
  lemma ApplySettlesRow(history: set<Op>, row: Option<Row>, op: Op)
    requires Settled(history, op.key, row) && Functional(history + {op})
    requires op.Upsert? ==> op.columns != map[]
    ensures ApplyToRow(row, op).Ok? && Settled(history + {op}, op.key, Some(ApplyToRow(row, op).value))
  {
    match op
    case Delete(k, h) => DeleteSettles(history, k, row, h);
    case Upsert(k, columns) =>
      assert MergeColumns(map[], columns) == columns;
      match row
      case None => UpsertSettlesNew(history, k, columns);
      case Some(Row(true, Some(d), p)) =>
        UpsertSettlesTombstone(history, k, d, columns);
        var newer := NewerThan(columns, d);
        assert MergeColumns(map[], newer) == newer;
      case Some(Row(false, None, p)) => UpsertSettlesLive(history, k, p, columns);
  }

  lemma ApplySettles(history: set<Op>, rows: Rows, op: Op)
    requires AllSettled(history, rows) && Functional(history + {op})
    requires op.Upsert? ==> op.columns != map[]
    ensures ApplyOp(rows, op).Ok? && AllSettled(history + {op}, ApplyOp(rows, op).value)
  {
    assert Settled(history, op.key, Get(rows, op.key));
    ApplySettlesRow(history, Get(rows, op.key), op);
    var after := ApplyOp(rows, op).value;
    forall k ensures Settled(history + {op}, k, Get(after, k)) {
      assert Settled(history, k, Get(rows, k));
      if k != op.key { OtherRowsUntouched(history, k, Get(rows, k), op); }
    }
  }

  function Elements(ops: seq<Op>): set<Op> { set op | op in ops }

  lemma FunctionalSubset(small: set<Op>, large: set<Op>)
    requires small <= large && Functional(large)
    ensures Functional(small)
  {
    assert forall k, f, c :: Stamped(small, k, f, c) ==> Stamped(large, k, f, c);
  }

  /** Any sequence of ops over settled rows settles them for the larger history. */
  lemma {:induction false} ApplyAllSettles(history: set<Op>, rows: Rows, ops: seq<Op>)
    requires AllSettled(history, rows) && Functional(history + Elements(ops)) && NonEmpty(Elements(ops))
    ensures ApplyOps(rows, ops).Ok? && AllSettled(history + Elements(ops), ApplyOps(rows, ops).value)
    decreases |ops|
  {
    if ops == [] {
      assert history + Elements(ops) == history;
    } else {
      assert ops[0] in Elements(ops);
      FunctionalSubset(history + {ops[0]}, history + Elements(ops));
      ApplySettles(history, rows, ops[0]);
      assert (history + {ops[0]}) + Elements(ops[1..]) == history + Elements(ops);
      ApplyAllSettles(history + {ops[0]}, ApplyOp(rows, ops[0]).value, ops[1..]);
    }
  }

  // ---- Agreement --------------------------------------------------------------

  /** What two replicas of one history must share: liveness, the tombstone clock, and
      every column that no delete has overtaken. */
  ghost predicate RowsAgree(history: set<Op>, k: Key, a: Option<Row>, b: Option<Row>) {
    && (a.None? <==> b.None?)
    && (a.Some? && b.Some? ==>
          && a.value.deleted == b.value.deleted
          && a.value.deletedHlc == b.value.deletedHlc
          && forall f, c: Cell :: !Overtaken(history, k, c.hlc) ==>
               (At(a.value.payload, f) == Some(c) <==> At(b.value.payload, f) == Some(c)))
  }

  ghost predicate Agree(history: set<Op>, a: Rows, b: Rows) {
    forall k :: RowsAgree(history, k, Get(a, k), Get(b, k))
  }

  ghost predicate DeleteFree(history: set<Op>, k: Key) { forall h :: !DeletedAt(history, k, h) }

  lemma SettledDecidesLiveness(history: set<Op>, k: Key, a: Option<Row>, b: Option<Row>)
    requires Settled(history, k, a) && Settled(history, k, b)
    ensures a.None? <==> b.None?
    ensures a.Some? ==> a.value.deleted == b.value.deleted && a.value.deletedHlc == b.value.deletedHlc
  {
    hide Less;
    TotalOrder();
    forall r: Option<Row> | Settled(history, k, r) && r.Some? ensures Touched(history, k) {
      if r.value.deleted {
        assert DeletedAt(history, k, r.value.deletedHlc.value);
      } else {
        var f :| f in r.value.payload && !Overtaken(history, k, r.value.payload[f].hlc);
        assert Stamped(history, k, f, r.value.payload[f]);
      }
    }
  }

  lemma SettledCellsAgree(history: set<Op>, k: Key, p: map<Field, Cell>, q: map<Field, Cell>, f: Field)
    requires Alive(history, k, p) && Alive(history, k, q) && Functional(history)
    requires f in p && !Overtaken(history, k, p[f].hlc)
    ensures f in q && q[f] == p[f]
  {
    hide Less, Stamped, Overtaken;
    assert Stamped(history, k, f, p[f]);
    NotOvertakenAbove(history, k, p[f].hlc, q[f].hlc);
    assert Stamped(history, k, f, q[f]);
    Trichotomy(p[f].hlc, q[f].hlc);
  }

  /** Two settled states of the same history agree. */
  lemma SettledAgree(history: set<Op>, a: Rows, b: Rows)
    requires AllSettled(history, a) && AllSettled(history, b) && Functional(history)
    ensures Agree(history, a, b)
  {
    forall k ensures RowsAgree(history, k, Get(a, k), Get(b, k)) {
      assert Settled(history, k, Get(a, k)) && Settled(history, k, Get(b, k));
      SettledDecidesLiveness(history, k, Get(a, k), Get(b, k));
      if k in a && !a[k].deleted {
        var p, q := a[k].payload, b[k].payload;
        forall f, c: Cell | !Overtaken(history, k, c.hlc) ensures At(p, f) == Some(c) <==> At(q, f) == Some(c) {
          if At(p, f) == Some(c) { SettledCellsAgree(history, k, p, q, f); }
          if At(q, f) == Some(c) { SettledCellsAgree(history, k, q, p, f); }
        }
      }
    }
  }

  /** A row without deletes has exactly one settled state. */
  lemma SettledEqualWithoutDeletes(history: set<Op>, k: Key, a: Option<Row>, b: Option<Row>)
    requires Settled(history, k, a) && Settled(history, k, b) && Functional(history) && DeleteFree(history, k)
    ensures a == b
  {
    SettledDecidesLiveness(history, k, a, b);
    assert forall h :: !Overtaken(history, k, h);
    if a.Some? {
      var p, q := a.value.payload, b.value.payload;
      forall f ensures f in p ==> f in q && q[f] == p[f] ensures f in q ==> f in p && p[f] == q[f] {
        if f in p { SettledCellsAgree(history, k, p, q, f); }
        if f in q { SettledCellsAgree(history, k, q, p, f); }
      }
      assert p == q;
    }
  }

  // ---- Whole histories ---------------------------------------------------------

  lemma EmptyIsSettled()
    ensures AllSettled({}, map[])
  {}

  lemma ReplaySettles(ops: seq<Op>)
    requires Functional(Elements(ops)) && NonEmpty(Elements(ops))
    ensures ApplyOps(map[], ops).Ok? && AllSettled(Elements(ops), ApplyOps(map[], ops).value)
  {
    EmptyIsSettled();
    assert {} + Elements(ops) == Elements(ops);
    ApplyAllSettles({}, map[], ops);
  }

  /** Merging is insensitive to order and duplication: any two sequences over the same
      set of ops replay without throwing and agree. */
  lemma OrderInsensitive(ops: seq<Op>, ops': seq<Op>)
    requires Elements(ops) == Elements(ops') && Functional(Elements(ops)) && NonEmpty(Elements(ops))
    ensures ApplyOps(map[], ops).Ok? && ApplyOps(map[], ops').Ok?
    ensures Agree(Elements(ops), ApplyOps(map[], ops).value, ApplyOps(map[], ops').value)
  {
    ReplaySettles(ops);
    ReplaySettles(ops');
    SettledAgree(Elements(ops), ApplyOps(map[], ops).value, ApplyOps(map[], ops').value);
  }

  /** Histories without deletes converge to identical rows. */
  lemma UpsertsConvergeExactly(ops: seq<Op>, ops': seq<Op>)
    requires Elements(ops) == Elements(ops') && Functional(Elements(ops)) && NonEmpty(Elements(ops))
    requires forall op :: op in ops ==> op.Upsert?
    ensures ApplyOps(map[], ops).Ok? && ApplyOps(map[], ops) == ApplyOps(map[], ops')
  {
    ReplaySettles(ops);
    ReplaySettles(ops');
    hide ApplyOps, Functional, NonEmpty, Settled;
    var a, b := ApplyOps(map[], ops).value, ApplyOps(map[], ops').value;
    forall k ensures Get(a, k) == Get(b, k) {
      assert Settled(Elements(ops), k, Get(a, k)) && Settled(Elements(ops), k, Get(b, k));
      SettledEqualWithoutDeletes(Elements(ops), k, Get(a, k), Get(b, k));
    }
    SameRows(a, b);
  }

  lemma SameRows(a: Rows, b: Rows)
    requires forall k :: Get(a, k) == Get(b, k)
    ensures a == b
  {
    forall k ensures (k in a <==> k in b) && (k in a ==> a[k] == b[k]) { assert Get(a, k) == Get(b, k); }
  }

  ghost predicate NewestDelete(history: set<Op>, k: Key, d: Hlc) {
    DeletedAt(history, k, d) && forall h :: DeletedAt(history, k, h) ==> Leq(h, d)
  }

  ghost predicate NewestCell(history: set<Op>, k: Key, f: Field, c: Cell) {
    Stamped(history, k, f, c) && forall c' :: Stamped(history, k, f, c') ==> Leq(c'.hlc, c.hlc)
  }

  ghost predicate DeleteWins(history: set<Op>, k: Key, d: Hlc) {
    forall f, c :: Stamped(history, k, f, c) ==> Leq(c.hlc, d)
  }

  /** What a history whose newest delete is `d` must leave behind. */
  ghost predicate Outcome(history: set<Op>, k: Key, d: Hlc, row: Option<Row>) {
    && (row == Some(Row(true, Some(d), map[])) <==> DeleteWins(history, k, d))
    && (!DeleteWins(history, k, d) ==>
          && row.Some? && !row.value.deleted && row.value.deletedHlc == None
          && forall f, c :: NewestCell(history, k, f, c) && Less(d, c.hlc) ==> At(row.value.payload, f) == Some(c))
  }

  lemma LiveOutcome(history: set<Op>, k: Key, d: Hlc, p: map<Field, Cell>)
    requires Alive(history, k, p) && NewestDelete(history, k, d) && Functional(history)
    ensures Outcome(history, k, d, Some(Row(false, None, p)))
  {
    hide Less, Functional;
    TotalOrder();
    assert DeletedAt(history, k, d);
    var top :| top in p && !Overtaken(history, k, p[top].hlc);
    assert Stamped(history, k, top, p[top]) && !Leq(p[top].hlc, d);
    forall f, c | NewestCell(history, k, f, c) && Less(d, c.hlc) ensures At(p, f) == Some(c) {
      assert !Overtaken(history, k, c.hlc);
      assert Stamped(history, k, f, p[f]);
      SameStampSameCell(history, k, f, c, p[f]);
    }
  }

  lemma SameStampSameCell(history: set<Op>, k: Key, f: Field, c: Cell, c': Cell)
    requires Functional(history) && Stamped(history, k, f, c) && Stamped(history, k, f, c')
    requires Leq(c.hlc, c'.hlc) && Leq(c'.hlc, c.hlc)
    ensures c == c'
  {
    Trichotomy(c.hlc, c'.hlc);
  }

  /** The outcome of a history with deletes, in closed form: a tombstone at the newest
      delete exactly when that delete is at or above every column stamp; otherwise a live
      row in which every field whose newest cell beats the delete holds that cell. */
  lemma DeleteDecides(ops: seq<Op>, k: Key, d: Hlc)
    requires Functional(Elements(ops)) && NonEmpty(Elements(ops)) && NewestDelete(Elements(ops), k, d)
    ensures ApplyOps(map[], ops).Ok?
    ensures Outcome(Elements(ops), k, d, Get(ApplyOps(map[], ops).value, k))
  {
    ReplaySettles(ops);
    var history, row := Elements(ops), Get(ApplyOps(map[], ops).value, k);
    assert Settled(history, k, row) && Delete(k, d) in history;
    if row.Some? {
      if row.value.deleted {
        Trichotomy(row.value.deletedHlc.value, d);
      } else {
        LiveOutcome(history, k, d, row.value.payload);
      }
    }
  }

  lemma ApplyOpsSplit(rows: Rows, a: seq<Op>, b: seq<Op>)
    ensures ApplyOps(rows, a + b) ==
            match ApplyOps(rows, a) case Ok(mid) => ApplyOps(mid, b) case Err(e) => Err(e)
    decreases |a|
  {
    if a == [] {
      assert a + b == b;
    } else {
      assert (a + b)[1..] == a[1..] + b;
      if ApplyOp(rows, a[0]).Ok? { ApplyOpsSplit(ApplyOp(rows, a[0]).value, a[1..], b); }
    }
  }

  /** Replay never throws, in any order, exactly when each (row, field, stamp) carries one value. */
  lemma NeverThrowsIffFunctional(ops: seq<Op>)
    requires NonEmpty(Elements(ops))
    ensures Functional(Elements(ops)) <==>
            forall ops' :: Elements(ops') == Elements(ops) ==> ApplyOps(map[], ops').Ok?
  {
    if Functional(Elements(ops)) {
      forall ops' | Elements(ops') == Elements(ops) ensures ApplyOps(map[], ops').Ok? {
        ReplaySettles(ops');
      }
    } else {
      var bad := SomeOrderThrows(ops);
    }
  }

  lemma SomeOrderThrows(ops: seq<Op>) returns (bad: seq<Op>)
    requires !Functional(Elements(ops))
    ensures Elements(bad) == Elements(ops) && ApplyOps(map[], bad).Err?
  {
    var history := Elements(ops);
    var k, f, c, c' :| Stamped(history, k, f, c) && Stamped(history, k, f, c') && c.hlc == c'.hlc && c != c';
    var op :| op in history && op.Upsert? && op.key == k && f in op.columns && op.columns[f] == c;
    var op' :| op' in history && op'.Upsert? && op'.key == k && f in op'.columns && op'.columns[f] == c';
    bad := [op, op'] + ops;
    assert Elements(bad) == history;
    ClashingPairThrows(op, op', f);
    ApplyOpsSplit(map[], [op, op'], ops);
  }

  lemma ClashingPairThrows(op: Op, op': Op, f: Field)
    requires op.Upsert? && op'.Upsert? && op.key == op'.key && f in op.columns && f in op'.columns
    requires op.columns[f].hlc == op'.columns[f].hlc && op.columns[f].value != op'.columns[f].value
    ensures ApplyOps(map[], [op, op']).Err?
  {
    var row := Row(false, None, MergeColumns(map[], op.columns));
    Trichotomy(op.columns[f].hlc, op.columns[f].hlc);
    assert !Clashes(map[], op.columns);
    assert row.payload[f] == op.columns[f];
    assert Clashes(row.payload, op'.columns);
    assert [op, op'][1..] == [op'];
  }

  /** Why agreement and not equality: with deletes, a column at or below the newest delete
      survives or vanishes depending on arrival order. */
  lemma StaleColumnsDependOnOrder()
    ensures var k, a, b := Key("t", "r"), Cell("x", Hlc(3, 0, "n")), Cell("y", Hlc(7, 0, "n"));
            var one, both, del := Upsert(k, map["a" := a]), Upsert(k, map["a" := a, "b" := b]), Delete(k, Hlc(5, 0, "n"));
            && Elements([one, both, del]) == Elements([one, del, both])
            && ApplyOps(map[], [one, both, del]) == Ok(map[k := Row(false, None, map["a" := a, "b" := b])])
            && ApplyOps(map[], [one, del, both]) == Ok(map[k := Row(false, None, map["b" := b])])
  {
    var k, a, b, d := Key("t", "r"), Cell("x", Hlc(3, 0, "n")), Cell("y", Hlc(7, 0, "n")), Hlc(5, 0, "n");
    var one, both, del := Upsert(k, map["a" := a]), Upsert(k, map["a" := a, "b" := b]), Delete(k, d);
    assert Elements([one, both, del]) == {one, both, del} == Elements([one, del, both]);
    assert !Less(a.hlc, a.hlc) && Less(d, b.hlc) && !Less(d, a.hlc);
    KeepsStaleColumn(k, a, b, d);
    DropsStaleColumn(k, a, b, d);
  }

  lemma ReplayThree(k: Key, x: Op, y: Op, z: Op, r: Row, r': Row, r'': Row)
    requires x.key == y.key == z.key == k
    requires ApplyToRow(None, x) == Ok(r) && ApplyToRow(Some(r), y) == Ok(r') && ApplyToRow(Some(r'), z) == Ok(r'')
    ensures ApplyOps(map[], [x, y, z]) == Ok(map[k := r''])
  {
    var ops := [x, y, z];
    assert ops[1..] == [y, z] && [y, z][1..] == [z];
    assert map[k := r][k := r'] == map[k := r'] && map[k := r'][k := r''] == map[k := r''];
    assert ApplyOp(map[], x) == Ok(map[k := r]);
    assert ApplyOp(map[k := r], y) == Ok(map[k := r']);
    assert ApplyOp(map[k := r'], z) == Ok(map[k := r'']);
    assert ApplyOps(map[k := r''], []) == Ok(map[k := r'']);
    assert ApplyOps(map[k := r'], [z]) == Ok(map[k := r'']);
  }

  lemma KeepsStaleColumn(k: Key, a: Cell, b: Cell, d: Hlc)
    requires !Less(a.hlc, a.hlc) && Less(d, b.hlc)
    ensures ApplyOps(map[], [Upsert(k, map["a" := a]), Upsert(k, map["a" := a, "b" := b]), Delete(k, d)])
            == Ok(map[k := Row(false, None, map["a" := a, "b" := b])])
  {
    hide Less;
    var p, q := map["a" := a], map["a" := a, "b" := b];
    assert MergeColumns(map[], p) == p && MergeColumns(p, q) == q;
    assert !Clashes(p, q) && !Clashes(map[], p);
    assert Less(d, q["b"].hlc);
    ReplayThree(k, Upsert(k, p), Upsert(k, q), Delete(k, d), Row(false, None, p), Row(false, None, q), Row(false, None, q));
  }

  lemma DropsStaleColumn(k: Key, a: Cell, b: Cell, d: Hlc)
    requires !Less(d, a.hlc) && Less(d, b.hlc)
    ensures ApplyOps(map[], [Upsert(k, map["a" := a]), Delete(k, d), Upsert(k, map["a" := a, "b" := b])])
            == Ok(map[k := Row(false, None, map["b" := b])])
  {
    hide Less;
    var p, q, r := map["a" := a], map["a" := a, "b" := b], map["b" := b];
    assert MergeColumns(map[], p) == p && NewerThan(q, d) == r && MergeColumns(map[], r) == r;
    assert !Clashes(map[], p) && "b" in r;
    ReplayThree(k, Upsert(k, p), Delete(k, d), Upsert(k, q), Row(false, None, p), Row(true, Some(d), map[]), Row(false, None, r));
  }
}
