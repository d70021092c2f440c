/** When arrival order cannot matter at all. Replicas of one history always agree on what no
    delete has overtaken; here is the exact condition under which they hold identical rows. */
module Exactness {
  import opened Options
  import opened Hlc
  import opened Merge

  // ---- One row of a replay ------------------------------------------------------------------

  function StepRow(row: Option<Row>, k: Key, op: Op): Option<Row> {
    if op.key != k then row
    else match ApplyToRow(row, op)
         case Ok(r) => Some(r)
         case Err(_) => row
  }

  /** What a replay leaves in row `k`. */
  function ReplayRow(row: Option<Row>, k: Key, ops: seq<Op>): Option<Row>
    decreases |ops|
  {
    if ops == [] then row else ReplayRow(StepRow(row, k, ops[0]), k, ops[1..])
  }

  lemma {:induction false} ReplayRowIs(rows: Rows, k: Key, ops: seq<Op>)
    requires ApplyOps(rows, ops).Ok?
    ensures Get(ApplyOps(rows, ops).value, k) == ReplayRow(Get(rows, k), k, ops)
    decreases |ops|
  {
    if ops != [] {
      hide ApplyToRow;
      ReplayRowIs(ApplyOp(rows, ops[0]).value, k, ops[1..]);
    }
  }

  lemma {:induction false} ReplayRowSplit(row: Option<Row>, k: Key, a: seq<Op>, b: seq<Op>)
    ensures ReplayRow(row, k, a + b) == ReplayRow(ReplayRow(row, k, a), k, b)
    decreases |a|
  {
    if a == [] {
      assert a + b == b;
    } else {
      assert (a + b)[1..] == a[1..] + b;
      ReplayRowSplit(StepRow(row, k, a[0]), k, a[1..], b);
    }
  }

  /** A replay from nothing leaves a settled row. */
  lemma RowSettles(ops: seq<Op>, k: Key)
    requires Functional(Elements(ops)) && NonEmpty(Elements(ops))
    ensures Settled(Elements(ops), k, ReplayRow(None, k, ops))
  {
    ReplaySettles(ops);
    ReplayRowIs(map[], k, ops);
    hide ApplyOps, ReplayRow;
    assert Settled(Elements(ops), k, Get(ApplyOps(map[], ops).value, k));
  }

  lemma PrefixSettles(ops: seq<Op>, n: nat, k: Key)
    requires n <= |ops| && Functional(Elements(ops)) && NonEmpty(Elements(ops))
    ensures Settled(Elements(ops[..n]), k, ReplayRow(None, k, ops[..n]))
  {
    hide Settled, ReplayRow;
    assert Elements(ops[..n]) <= Elements(ops);
    FunctionalSubset(Elements(ops[..n]), Elements(ops));
    RowSettles(ops[..n], k);
  }

  // ---- Once a row is above every delete ---------------------------------------------------------

  ghost predicate LiveAbove(row: Option<Row>, d: Hlc) {
    && row.Some? && !row.value.deleted && row.value.deletedHlc.None?
    && exists g :: g in row.value.payload && Less(d, row.value.payload[g].hlc)
  }

  /** Every column of `a` is still there, at its stamp or a later one. */
  ghost predicate Advances(a: Option<Row>, b: Option<Row>) {
    && a.Some? && b.Some?
    && forall g :: g in a.value.payload ==> g in b.value.payload && Leq(a.value.payload[g].hlc, b.value.payload[g].hlc)
  }

  ghost predicate DeletesUpTo(ops: set<Op>, k: Key, d: Hlc) { forall h :: DeletedAt(ops, k, h) ==> Leq(h, d) }

  lemma StepStaysLive(row: Option<Row>, k: Key, op: Op, d: Hlc)
    requires LiveAbove(row, d) && DeletesUpTo({op}, k, d)
    ensures LiveAbove(StepRow(row, k, op), d) && Advances(row, StepRow(row, k, op))
  {
    TotalOrder();
    hide Less;
    var g :| g in row.value.payload && Less(d, row.value.payload[g].hlc);
    var next := StepRow(row, k, op);
    if op.key == k && op.Delete? {
      assert DeletedAt({op}, k, op.hlc);
      assert Less(op.hlc, row.value.payload[g].hlc);
    } else if op.key == k && !Clashes(row.value.payload, op.columns) {
      assert next.value.payload == MergeColumns(row.value.payload, op.columns);
    }
    assert g in next.value.payload && Leq(row.value.payload[g].hlc, next.value.payload[g].hlc);
  }

  lemma {:induction false} StaysLive(row: Option<Row>, k: Key, ops: seq<Op>, d: Hlc)
    requires LiveAbove(row, d) && DeletesUpTo(Elements(ops), k, d)
    ensures LiveAbove(ReplayRow(row, k, ops), d) && Advances(row, ReplayRow(row, k, ops))
    decreases |ops|
  {
    TotalOrder();
    hide Less, StepRow;
    if ops != [] {
      assert ops[0] in Elements(ops) && {ops[0]} <= Elements(ops) && Elements(ops[1..]) <= Elements(ops);
      assert DeletesUpTo({ops[0]}, k, d) && DeletesUpTo(Elements(ops[1..]), k, d);
      StepStaysLive(row, k, ops[0], d);
      StaysLive(StepRow(row, k, ops[0]), k, ops[1..], d);
    }
  }

  /** An upsert that a replay cannot be deleted after. */
  ghost predicate Reviver(op: Op, k: Key, d: Hlc) {
    op.Upsert? && op.key == k && exists g :: g in op.columns && Less(d, op.columns[g].hlc)
  }

  lemma RevivedIsLive(history: set<Op>, k: Key, d: Hlc, u: Op, row: Option<Row>)
    requires Settled(history, k, row) && u in history && Reviver(u, k, d) && DeletesUpTo(history, k, d)
    ensures LiveAbove(row, d)
  {
    TotalOrder();
    hide Less;
    var g :| g in u.columns && Less(d, u.columns[g].hlc);
    assert Stamped(history, k, g, u.columns[g]) && !Overtaken(history, k, u.columns[g].hlc);
    assert Touched(history, k);
  }

  // ---- A column that is always kept --------------------------------------------------------------

  ghost predicate Carrier(op: Op, k: Key, f: Field, c: Cell) {
    op.Upsert? && op.key == k && f in op.columns && op.columns[f] == c
  }

  /** Two different upserts write the cell together with a column newer than `d`. */
  ghost predicate TwoCarriers(history: set<Op>, k: Key, d: Hlc, f: Field, c: Cell) {
    exists u, v :: u in history && v in history && u != v
      && Carrier(u, k, f, c) && Carrier(v, k, f, c) && Reviver(u, k, d) && Reviver(v, k, d)
  }

  ghost predicate Holds(row: Option<Row>, f: Field, c: Cell) { row.Some? && At(row.value.payload, f) == Some(c) }

  ghost predicate AtLeast(row: Option<Row>, f: Field, h: Hlc) {
    row.Some? && f in row.value.payload && Leq(h, row.value.payload[f].hlc)
  }

  lemma AtLeastNewestHolds(history: set<Op>, k: Key, f: Field, c: Cell, row: Option<Row>)
    requires Settled(history, k, row) && Functional(history) && NewestCell(history, k, f, c) && AtLeast(row, f, c.hlc)
    ensures Holds(row, f, c)
  {
    assert Stamped(history, k, f, row.value.payload[f]);
    SameStampSameCell(history, k, f, row.value.payload[f], c);
  }

  lemma CarriedIntoLive(row: Option<Row>, k: Key, v: Op, f: Field, c: Cell, d: Hlc)
    requires LiveAbove(row, d) && Carrier(v, k, f, c) && ApplyToRow(row, v).Ok?
    ensures AtLeast(StepRow(row, k, v), f, c.hlc)
  {
    TotalOrder();
    hide Less;
    assert StepRow(row, k, v).value.payload == MergeColumns(row.value.payload, v.columns);
  }

  lemma {:induction false} StepNeverThrows(ops: seq<Op>, n: nat, k: Key)
    requires n < |ops| && ops[n].key == k && Functional(Elements(ops)) && NonEmpty(Elements(ops))
    ensures ApplyToRow(ReplayRow(None, k, ops[..n]), ops[n]).Ok?
  {
    hide Settled, ReplayRow, ApplyToRow, ApplyOps;
    PrefixSettles(ops, n, k);
    var before := Elements(ops[..n]);
    assert ops[n] in Elements(ops) && before + {ops[n]} <= Elements(ops);
    FunctionalSubset(before + {ops[n]}, Elements(ops));
    ApplySettlesRow(before, ReplayRow(None, k, ops[..n]), ops[n]);
  }

  lemma KeptInOrder(ops: seq<Op>, k: Key, d: Hlc, f: Field, c: Cell, i: nat, j: nat)
    requires Functional(Elements(ops)) && NonEmpty(Elements(ops)) && DeletesUpTo(Elements(ops), k, d)
    requires i < j < |ops| && Reviver(ops[i], k, d) && Carrier(ops[j], k, f, c) && NewestCell(Elements(ops), k, f, c)
    ensures Holds(ReplayRow(None, k, ops), f, c)
  {
    hide ReplayRow, Settled, Carrier, Reviver, NewestCell, Functional, NonEmpty, ApplyToRow, LiveAbove, Less;
    var r1 := ReplayRow(None, k, ops[..i + 1]);
    PrefixSettles(ops, i + 1, k);
    assert ops[i] in Elements(ops[..i + 1]) by { assert ops[..i + 1][i] == ops[i]; }
    RevivedIsLive(Elements(ops[..i + 1]), k, d, ops[i], r1);
    var between := ops[i + 1..j];
    StaysLive(r1, k, between, d);
    ReplayRowSplit(None, k, ops[..i + 1], between);
    assert ops[..i + 1] + between == ops[..j];
    var r2 := ReplayRow(None, k, ops[..j]);
    assert ops[j].key == k by { CarrierKey(ops[j], k, f, c); }
    StepNeverThrows(ops, j, k);
    CarriedIntoLive(r2, k, ops[j], f, c, d);
    var r3 := StepRow(r2, k, ops[j]);
    assert DeletesUpTo({ops[j]}, k, d) by { assert ops[j] in Elements(ops); }
    StepStaysLive(r2, k, ops[j], d);
    StaysLive(r3, k, ops[j + 1..], d);
    ReplayTail(k, ops, j);
    RowSettles(ops, k);
    var row := ReplayRow(None, k, ops);
    Transitive(c.hlc, r3.value.payload[f].hlc, row.value.payload[f].hlc);
    AtLeastNewestHolds(Elements(ops), k, f, c, row);
  }

  lemma CarrierKey(op: Op, k: Key, f: Field, c: Cell)
    requires Carrier(op, k, f, c)
    ensures op.key == k
  {}

  lemma ReplayTail(k: Key, ops: seq<Op>, j: nat)
    requires j < |ops|
    ensures ReplayRow(None, k, ops) == ReplayRow(StepRow(ReplayRow(None, k, ops[..j]), k, ops[j]), k, ops[j + 1..])
  {
    hide StepRow;
    assert ops == ops[..j] + ops[j..] && ops[j..][1..] == ops[j + 1..];
    ReplayRowSplit(None, k, ops[..j], ops[j..]);
  }

  /** With two such carriers, the cell is in the row whatever the order: whichever comes first
      revives the row for good, and the other then merges into a live row. */
  lemma AlwaysKept(ops: seq<Op>, k: Key, d: Hlc, f: Field, c: Cell)
    requires Functional(Elements(ops)) && NonEmpty(Elements(ops)) && NewestDelete(Elements(ops), k, d)
    requires NewestCell(Elements(ops), k, f, c) && TwoCarriers(Elements(ops), k, d, f, c)
    ensures Holds(ReplayRow(None, k, ops), f, c)
  {
    hide Carrier, Reviver, ReplayRow, Functional, NonEmpty, NewestCell, Holds, Less, DeletedAt;
    var u, v :| u in Elements(ops) && v in Elements(ops) && u != v
      && Carrier(u, k, f, c) && Carrier(v, k, f, c) && Reviver(u, k, d) && Reviver(v, k, d);
    var i :| 0 <= i < |ops| && ops[i] == u;
    var j :| 0 <= j < |ops| && ops[j] == v;
    if i < j { KeptInOrder(ops, k, d, f, c, i, j); } else { KeptInOrder(ops, k, d, f, c, j, i); }
  }

  // ---- Two orders that differ ---------------------------------------------------------------------

  ghost function Listed(s: set<Op>): (ops: seq<Op>)
    ensures Elements(ops) == s
  {
    if s == {} then []
    else
      var x :| x in s;
      var rest := Listed(s - {x});
      assert forall op :: op in [x] + rest <==> op == x || op in Elements(rest);
      [x] + rest
  }

  ghost function Upserts(history: set<Op>): set<Op> { set op | op in history && op.Upsert? }

  ghost function Deletes(history: set<Op>): set<Op> { set op | op in history && op.Delete? }

  lemma ElementsConcat(a: seq<Op>, b: seq<Op>)
    ensures Elements(a + b) == Elements(a) + Elements(b)
  {}

  /** Deletes last: the stale column is there. */
  ghost function DeletesLast(history: set<Op>): seq<Op> { Listed(Upserts(history)) + Listed(Deletes(history)) }

  lemma KeptWhenDeletesComeLast(history: set<Op>, k: Key, d: Hlc, f: Field, c: Cell)
    requires Functional(history) && NonEmpty(history) && NewestDelete(history, k, d) && !DeleteWins(history, k, d)
    requires NewestCell(history, k, f, c)
    ensures Elements(DeletesLast(history)) == history && Holds(ReplayRow(None, k, DeletesLast(history)), f, c)
  {
    var a, b := Listed(Upserts(history)), Listed(Deletes(history));
    ElementsConcat(a, b);
    var ops := DeletesLast(history);
    assert Elements(ops) == history;
    hide ReplayRow;
    FunctionalSubset(Upserts(history), history);
    RowSettles(a, k);
    var row := ReplayRow(None, k, a);
    UpsertsKeepNewest(history, k, d, f, c, row);
    assert DeletesUpTo(Elements(b), k, d);
    StaysLive(row, k, b, d);
    ReplayRowSplit(None, k, a, b);
    RowSettles(ops, k);
    var end := ReplayRow(None, k, ops);
    Transitive(c.hlc, row.value.payload[f].hlc, end.value.payload[f].hlc);
    AtLeastNewestHolds(history, k, f, c, end);
  }

  lemma UpsertStamped(history: set<Op>, k: Key, f: Field, c: Cell)
    requires Stamped(history, k, f, c)
    ensures Stamped(Upserts(history), k, f, c) && Touched(Upserts(history), k)
  {
    var op :| op in history && op.Upsert? && op.key == k && f in op.columns && op.columns[f] == c;
    assert op in Upserts(history);
  }

  lemma NothingOvertaken(history: set<Op>, k: Key, h: Hlc)
    ensures !Overtaken(Upserts(history), k, h)
  {}

  lemma UpsertsKeepNewest(history: set<Op>, k: Key, d: Hlc, f: Field, c: Cell, row: Option<Row>)
    requires Settled(Upserts(history), k, row) && !DeleteWins(history, k, d) && Stamped(history, k, f, c)
    ensures LiveAbove(row, d) && AtLeast(row, f, c.hlc)
  {
    var g, x: Cell :| Stamped(history, k, g, x) && !Leq(x.hlc, d);
    UpsertStamped(history, k, g, x);
    UpsertStamped(history, k, f, c);
    NothingOvertaken(history, k, x.hlc);
    NothingOvertaken(history, k, c.hlc);
    NoDeletes(history, k);
    TotalOrder();
    hide Less, Upserts, Stamped, Overtaken;
  }

  lemma NoDeletes(history: set<Op>, k: Key)
    ensures DeleteFree(Upserts(history), k)
  {}

  ghost function StaleCarriers(history: set<Op>, k: Key, d: Hlc, f: Field, c: Cell): set<Op> {
    set op | op in history && Carrier(op, k, f, c) && !Reviver(op, k, d)
  }

  ghost function LiveCarriers(history: set<Op>, k: Key, d: Hlc, f: Field, c: Cell): set<Op> {
    set op | op in history && Carrier(op, k, f, c) && Reviver(op, k, d)
  }

  ghost function Others(history: set<Op>, k: Key, f: Field, c: Cell): set<Op> {
    set op | op in history && op.Upsert? && !Carrier(op, k, f, c)
  }

  /** Deletes first, then every upsert that writes the cell, then the rest. */
  ghost function CarriersEarly(history: set<Op>, k: Key, d: Hlc, f: Field, c: Cell): seq<Op> {
    Listed(Deletes(history)) + Listed(StaleCarriers(history, k, d, f, c)) + Listed(LiveCarriers(history, k, d, f, c))
    + Listed(Others(history, k, f, c))
  }

  lemma CarriersEarlyElements(history: set<Op>, k: Key, d: Hlc, f: Field, c: Cell)
    ensures Elements(CarriersEarly(history, k, d, f, c)) == history
  {
    var w, x, y, z := Listed(Deletes(history)), Listed(StaleCarriers(history, k, d, f, c)),
                      Listed(LiveCarriers(history, k, d, f, c)), Listed(Others(history, k, f, c));
    ElementsConcat(w, x);
    ElementsConcat(w + x, y);
    ElementsConcat(w + x + y, z);
    HistorySplit(history, k, d, f, c);
    hide Deletes, StaleCarriers, LiveCarriers, Others;
  }

  lemma HistorySplit(history: set<Op>, k: Key, d: Hlc, f: Field, c: Cell)
    ensures Deletes(history) + StaleCarriers(history, k, d, f, c) + LiveCarriers(history, k, d, f, c) + Others(history, k, f, c) == history
  {
    hide Less;
    forall op | op in history
      ensures op in Deletes(history) || op in StaleCarriers(history, k, d, f, c) || op in LiveCarriers(history, k, d, f, c) || op in Others(history, k, f, c)
    {}
  }

  lemma DeletesLeaveTombstone(history: set<Op>, k: Key, d: Hlc)
    requires NewestDelete(history, k, d)
    ensures ReplayRow(None, k, Listed(Deletes(history))) == Some(Row(true, Some(d), map[]))
  {
    var h, ops := Deletes(history), Listed(Deletes(history));
    assert forall g, f, c :: !Stamped(h, g, f, c);
    hide ReplayRow;
    RowSettles(ops, k);
    assert Delete(k, d) in h && Touched(h, k);
    var row := ReplayRow(None, k, ops);
    assert row.value.deleted;
    var e := row.value.deletedHlc.value;
    assert DeletedAt(h, k, e) && DeletedAt(history, k, e) && DeletedAt(h, k, d);
    Trichotomy(e, d);
  }

  lemma {:induction false} TombstoneIgnoresStale(k: Key, d: Hlc, ops: seq<Op>)
    requires forall op :: op in ops ==> op.Upsert? && !Reviver(op, k, d)
    ensures ReplayRow(Some(Row(true, Some(d), map[])), k, ops) == Some(Row(true, Some(d), map[]))
  {
    if ops != [] {
      assert ops[0] in ops;
      if ops[0].key == k { assert NewerThan(ops[0].columns, d) == map[]; }
      TombstoneIgnoresStale(k, d, ops[1..]);
    }
  }

  /** What is not carried in does not appear. */
  lemma {:induction false} NotCarriedIn(row: Option<Row>, k: Key, f: Field, c: Cell, ops: seq<Op>)
    requires !Holds(row, f, c) && forall op :: op in ops ==> op.Upsert? && !Carrier(op, k, f, c)
    ensures !Holds(ReplayRow(row, k, ops), f, c)
    decreases |ops|
  {
    if ops != [] {
      assert ops[0] in ops;
      NotCarriedStep(row, k, f, c, ops[0]);
      hide StepRow;
      NotCarriedIn(StepRow(row, k, ops[0]), k, f, c, ops[1..]);
    }
  }

  lemma NotCarriedStep(row: Option<Row>, k: Key, f: Field, c: Cell, op: Op)
    requires !Holds(row, f, c) && op.Upsert? && !Carrier(op, k, f, c)
    ensures !Holds(StepRow(row, k, op), f, c)
  {
    hide Less;
  }

  lemma RevivedWithoutStale(k: Key, d: Hlc, f: Field, c: Cell, u: Op)
    requires Carrier(u, k, f, c) && Leq(c.hlc, d)
    ensures !Holds(StepRow(Some(Row(true, Some(d), map[])), k, u), f, c)
  {
    assert f !in NewerThan(u.columns, d);
    hide Less;
  }

  lemma LostWhenCarriersComeEarly(history: set<Op>, k: Key, d: Hlc, f: Field, c: Cell)
    requires NewestDelete(history, k, d) && Leq(c.hlc, d) && !TwoCarriers(history, k, d, f, c)
    ensures !Holds(ReplayRow(None, k, CarriersEarly(history, k, d, f, c)), f, c)
  {
    var w, x, y, z := Listed(Deletes(history)), Listed(StaleCarriers(history, k, d, f, c)),
                      Listed(LiveCarriers(history, k, d, f, c)), Listed(Others(history, k, f, c));
    DeletesLeaveTombstone(history, k, d);
    var tomb := Some(Row(true, Some(d), map[]));
    assert forall op :: op in x ==> op in Elements(x);
    TombstoneIgnoresStale(k, d, x);
    ReplayRowSplit(None, k, w, x);
    LiveCarriersLose(history, k, d, f, c);
    ReplayRowSplit(None, k, w + x, y);
    assert forall op :: op in z ==> op in Elements(z);
    NotCarriedIn(ReplayRow(tomb, k, y), k, f, c, z);
    ReplayRowSplit(None, k, w + x + y, z);
  }

  lemma LiveCarriersLose(history: set<Op>, k: Key, d: Hlc, f: Field, c: Cell)
    requires Leq(c.hlc, d) && !TwoCarriers(history, k, d, f, c)
    ensures !Holds(ReplayRow(Some(Row(true, Some(d), map[])), k, Listed(LiveCarriers(history, k, d, f, c))), f, c)
  {
    var s := LiveCarriers(history, k, d, f, c);
    var y := Listed(s);
    if y != [] {
      var u := y[0];
      assert u in Elements(y);
      AtMostOne(s, u);
      assert y[1..] == [] by { if |y| > 1 { SecondIsSame(s, u); } }
      RevivedWithoutStale(k, d, f, c, u);
    }
  }

  lemma AtMostOne(s: set<Op>, u: Op)
    requires u in s && forall v :: v in s ==> v == u
    ensures s == {u}
  {}

  lemma SecondIsSame(s: set<Op>, u: Op)
    requires s == {u}
    ensures |Listed(s)| == 1
  {
    assert s != {};
    var x :| x in s;
    assert forall y :: y in s ==> s - {y} == {};
  }

  // ---- The exact condition -----------------------------------------------------------------------------

  /** The row survives its newest delete, and some column's newest cell is at or below that delete
      without two upserts carrying it together with a newer column. */
  ghost predicate OrderMatters(history: set<Op>, k: Key) {
    exists d, f, c :: NewestDelete(history, k, d) && !DeleteWins(history, k, d)
      && NewestCell(history, k, f, c) && Leq(c.hlc, d) && !TwoCarriers(history, k, d, f, c)
  }

  ghost predicate OneOutcome(history: set<Op>, k: Key) {
    forall a: seq<Op>, b: seq<Op> :: Elements(a) == history && Elements(b) == history ==>
      ReplayRow(None, k, a) == ReplayRow(None, k, b)
  }

  ghost predicate NewestIn(cells: set<Cell>, c: Cell) { c in cells && forall x :: x in cells ==> Leq(x.hlc, c.hlc) }

  lemma {:induction false} NewestOf(cells: set<Cell>) returns (c: Cell)
    requires cells != {}
    ensures NewestIn(cells, c)
  {
    TotalOrder();
    hide Less;
    var first :| first in cells;
    var rest := cells - {first};
    if rest == {} {
      c := first;
      assert cells == {first};
    } else {
      var r := NewestOf(rest);
      c := if Less(first.hlc, r.hlc) then r else first;
      forall x | x in cells ensures Leq(x.hlc, c.hlc) {
        if x != first { assert x in rest && Leq(x.hlc, r.hlc); }
      }
    }
  }

  lemma HasNewestCell(history: set<Op>, k: Key, f: Field, x: Cell) returns (c: Cell)
    requires Stamped(history, k, f, x)
    ensures NewestCell(history, k, f, c)
  {
    var cells := set op | op in history && op.Upsert? && op.key == k && f in op.columns :: op.columns[f];
    assert x in cells;
    c := NewestOf(cells);
  }

  lemma HasNewestDelete(history: set<Op>, k: Key, h: Hlc) returns (d: Hlc)
    requires DeletedAt(history, k, h)
    ensures NewestDelete(history, k, d)
  {
    var cells := set op | op in history && op.Delete? && op.key == k :: Cell("", op.hlc);
    assert Delete(k, h) in history;
    assert Cell("", h) in cells;
    var c := NewestOf(cells);
    d := c.hlc;
    forall e | DeletedAt(history, k, e) ensures Leq(e, d) { assert Cell("", e) in cells; }
  }

  lemma LiveRowHoldsNewest(ops: seq<Op>, k: Key, d: Hlc, f: Field, x: Cell)
    requires Functional(Elements(ops)) && NonEmpty(Elements(ops)) && NewestDelete(Elements(ops), k, d)
    requires !OrderMatters(Elements(ops), k) && Holds(ReplayRow(None, k, ops), f, x)
    ensures NewestCell(Elements(ops), k, f, x)
  {
    var history, row := Elements(ops), ReplayRow(None, k, ops);
    RowSettles(ops, k);
    hide ReplayRow;
    assert Stamped(history, k, f, x);
    var c := HasNewestCell(history, k, f, x);
    LiveOutcome(history, k, d, row.value.payload);
    assert !DeleteWins(history, k, d);
    Trichotomy(c.hlc, d);
    if Leq(c.hlc, d) {
      AlwaysKept(ops, k, d, f, c);
    }
  }

  lemma LiveRowsEqual(a: seq<Op>, b: seq<Op>, k: Key, d: Hlc)
    requires Elements(a) == Elements(b) && Functional(Elements(a)) && NonEmpty(Elements(a))
    requires NewestDelete(Elements(a), k, d) && !OrderMatters(Elements(a), k)
    requires var row := ReplayRow(None, k, a); row.Some? && !row.value.deleted
    ensures forall f, x :: Holds(ReplayRow(None, k, a), f, x) ==> Holds(ReplayRow(None, k, b), f, x)
  {
    var history, ra, rb := Elements(a), ReplayRow(None, k, a), ReplayRow(None, k, b);
    RowSettles(a, k);
    RowSettles(b, k);
    hide ReplayRow;
    SettledDecidesLiveness(history, k, ra, rb);
    forall f, x | Holds(ra, f, x) ensures Holds(rb, f, x) {
      LiveRowHoldsNewest(a, k, d, f, x);
      LiveOutcome(history, k, d, ra.value.payload);
      LiveOutcome(history, k, d, rb.value.payload);
      Trichotomy(x.hlc, d);
      if Leq(x.hlc, d) { AlwaysKept(b, k, d, f, x); }
    }
  }

  lemma SamePayload(p: map<Field, Cell>, q: map<Field, Cell>)
    requires forall f, x: Cell :: At(p, f) == Some(x) <==> At(q, f) == Some(x)
    ensures p == q
  {
    forall f ensures f in p <==> f in q ensures f in p ==> p[f] == q[f] {
      if f in p { assert At(p, f) == Some(p[f]); }
      if f in q { assert At(q, f) == Some(q[f]); }
    }
  }

  lemma RowsEqual(a: seq<Op>, b: seq<Op>, k: Key)
    requires Elements(a) == Elements(b) && Functional(Elements(a)) && NonEmpty(Elements(a)) && !OrderMatters(Elements(a), k)
    ensures ReplayRow(None, k, a) == ReplayRow(None, k, b)
  {
    var history, ra, rb := Elements(a), ReplayRow(None, k, a), ReplayRow(None, k, b);
    RowSettles(a, k);
    RowSettles(b, k);
    SettledDecidesLiveness(history, k, ra, rb);
    if h :| DeletedAt(history, k, h) {
      if ra.Some? && !ra.value.deleted {
        var d := HasNewestDelete(history, k, h);
        LiveRowsEqual(a, b, k, d);
        LiveRowsEqual(b, a, k, d);
        hide ReplayRow, OrderMatters;
        forall f, x: Cell ensures At(ra.value.payload, f) == Some(x) <==> At(rb.value.payload, f) == Some(x) {
          assert Holds(ra, f, x) <==> Holds(rb, f, x);
        }
        SamePayload(ra.value.payload, rb.value.payload);
      }
    } else {
      SettledEqualWithoutDeletes(history, k, ra, rb);
    }
  }

  /** A set of ops leaves one and the same row in every order and with every repetition, if and
      only if no column depends on the order in the sense of `OrderMatters`. */
  lemma OneOutcomeIff(history: set<Op>, k: Key)
    requires Functional(history) && NonEmpty(history)
    ensures OneOutcome(history, k) <==> !OrderMatters(history, k)
  {
    if OrderMatters(history, k) {
      var d, f, c :| NewestDelete(history, k, d) && !DeleteWins(history, k, d)
        && NewestCell(history, k, f, c) && Leq(c.hlc, d) && !TwoCarriers(history, k, d, f, c);
      var a, b := DeletesLast(history), CarriersEarly(history, k, d, f, c);
      KeptWhenDeletesComeLast(history, k, d, f, c);
      LostWhenCarriersComeEarly(history, k, d, f, c);
      CarriersEarlyElements(history, k, d, f, c);
      hide ReplayRow, DeletesLast, CarriersEarly;
      assert ReplayRow(None, k, a) != ReplayRow(None, k, b);
    } else {
      forall a: seq<Op>, b: seq<Op> | Elements(a) == history && Elements(b) == history
        ensures ReplayRow(None, k, a) == ReplayRow(None, k, b)
      {
        RowsEqual(a, b, k);
      }
    }
  }
}
