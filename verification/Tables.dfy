/** The in-memory table map that remote changes are merged into, in place. */
module Tables {
  import opened Options
  import opened Hlc
  import opened Merge

  function Restricted(columns: map<Field, Cell>, done: set<Field>): map<Field, Cell> {
    map f | f in columns && f in done :: columns[f]
  }

  lemma MergeOneMore(base: map<Field, Cell>, columns: map<Field, Cell>, done: set<Field>, f: Field)
    requires f in columns && f !in done && done <= columns.Keys
    requires ChooseCell(At(base, f), columns[f]) != Conflict
    ensures var before, after := MergeColumns(base, Restricted(columns, done)), MergeColumns(base, Restricted(columns, done + {f}));
            && after == (if ChooseCell(At(base, f), columns[f]) == Take then before[f := columns[f]] else before)
            && (ChooseCell(At(base, f), columns[f]) == Take ==> after != base)
  {
    var before, after := MergeColumns(base, Restricted(columns, done)), MergeColumns(base, Restricted(columns, done + {f}));
    Trichotomy(columns[f].hlc, columns[f].hlc);
    if ChooseCell(At(base, f), columns[f]) == Take {
      assert after[f] == columns[f] && (f in base ==> base[f] != columns[f]);
    }
  }

  lemma NotMergedYet(base: map<Field, Cell>, columns: map<Field, Cell>, done: set<Field>)
    ensures forall f :: f !in done ==> At(MergeColumns(base, Restricted(columns, done)), f) == At(base, f)
    ensures done == {} ==> MergeColumns(base, Restricted(columns, done)) == base
    ensures columns.Keys <= done ==> Restricted(columns, done) == columns
  {}

  /** Merge `columns` into `base` one field at a time, in any order. */
  method MergeFields(base: map<Field, Cell>, columns: map<Field, Cell>)
    returns (payload: map<Field, Cell>, changed: bool, clash: bool)
    ensures clash <==> Clashes(base, columns)
    ensures !clash ==> payload == MergeColumns(base, columns) && (changed <==> payload != base)
  {
    payload, changed, clash := base, false, false;
    var todo := columns.Keys;
    ghost var done := {};
    hide Less, MergeColumns, Restricted;
    NotMergedYet(base, columns, done);
    while todo != {}
      invariant done !! todo && done + todo == columns.Keys
      invariant payload == MergeColumns(base, Restricted(columns, done))
      invariant forall f :: f in done ==> ChooseCell(At(base, f), columns[f]) != Conflict
      invariant changed <==> payload != base
      decreases todo
    {
      var f :| f in todo;
      NotMergedYet(base, columns, done);
      match ChooseCell(At(payload, f), columns[f]) {
        case Conflict =>
          clash := true;
          return;
        case Take =>
          MergeOneMore(base, columns, done, f);
          payload, changed := payload[f := columns[f]], true;
        case Keep =>
          MergeOneMore(base, columns, done, f);
      }
      todo, done := todo - {f}, done + {f};
    }
    NotMergedYet(base, columns, done);
  }

  /** The keys of the ops that change a row, in order, when the ops are applied one after the other. */
  function ChangedKeys(rows: Rows, ops: seq<Op>): seq<Key>
    decreases |ops|
  {
    if ops == [] then []
    else
      match ApplyOp(rows, ops[0])
      case Err(_) => []
      case Ok(next) => (if next == rows then [] else [ops[0].key]) + ChangedKeys(next, ops[1..])
  }

  class Tables {
    var rows: Rows

    constructor ()
      ensures rows == map[]
    {
      rows := map[];
    }

    /** Apply one op in place; yields the row when it changed, nothing when it did not. */
    method Apply(op: Op) returns (out: Result<Option<Row>, Clash>)
      modifies this
      ensures out.Ok? <==> ApplyOp(old(rows), op).Ok?
      ensures out.Ok? ==> rows == ApplyOp(old(rows), op).value
      ensures out.Ok? ==> out.value == if rows == old(rows) then None else Some(rows[op.key])
      ensures forall k :: k != op.key ==> Get(rows, k) == Get(old(rows), k)
    {
      var row := Get(rows, op.key);
      assert row.Some? ==> rows[op.key := row.value] == rows;
      match op {
        case Delete(k, h) =>
          if row.Some? && ((row.value.deletedHlc.Some? && Leq(h, row.value.deletedHlc.value))
                           || exists f :: f in row.value.payload && Less(h, row.value.payload[f].hlc)) {
            return Ok(None);
          }
          var gone := Row(true, Some(h), map[]);
          assert row.Some? ==> row.value != gone by { Trichotomy(h, h); }
          rows := rows[k := gone];
          assert rows[k] == gone;
          return Ok(Some(gone));
        case Upsert(k, columns) =>
          var r, isNew := if row.Some? then row.value else Row(false, None, map[]), row.None?;
          if r.deleted && r.deletedHlc.Some? {
            var newer := NewerThan(columns, r.deletedHlc.value);
            if newer == map[] {
              return Ok(None);
            }
            var payload, changed, clash := MergeFields(map[], newer);
            r := Row(false, None, payload);
            rows := rows[k := r];
            assert rows[k] == r;
            return Ok(Some(r));
          }
          var payload, changed, clash := MergeFields(r.payload, columns);
          if clash {
            // The merge stops halfway; the row is reloaded from the local store before its next use.
            rows := rows[k := r.(payload := payload)];
            return Err(Clash(k));
          }
          if !changed && !isNew {
            return Ok(None);
          }
          r := r.(payload := payload);
          rows := rows[k := r];
          assert rows[k] == r;
          return Ok(Some(r));
      }
    }

    /** Apply every op of a change in order, listing each row that changed on the way. */
    method ApplyChange(ops: seq<Op>) returns (out: Result<seq<Key>, Clash>)
      modifies this
      ensures out.Ok? <==> ApplyOps(old(rows), ops).Ok?
      ensures out.Ok? ==> rows == ApplyOps(old(rows), ops).value
      ensures out.Ok? ==> out.value == ChangedKeys(old(rows), ops)
      ensures out.Ok? ==> forall k :: Get(rows, k) != Get(old(rows), k) ==> k in out.value
    {
      hide ApplyOp;
      var touched: seq<Key> := [];
      var i := 0;
      while i < |ops|
        invariant 0 <= i <= |ops|
        invariant ApplyOps(old(rows), ops) == ApplyOps(rows, ops[i..])
        invariant forall k :: Get(rows, k) != Get(old(rows), k) ==> k in touched
        invariant ChangedKeys(old(rows), ops) == touched + ChangedKeys(rows, ops[i..])
      {
        ghost var before := rows;
        assert ops[i..][0] == ops[i] && ops[i..][1..] == ops[i + 1..];
        var step := Apply(ops[i]);
        if step.Err? {
          return Err(step.error);
        }
        if step.value.Some? {
          touched := touched + [ops[i].key];
        }
        assert forall k :: k != ops[i].key ==> Get(rows, k) == Get(before, k);
        i := i + 1;
      }
      return Ok(touched);
    }
  }
}
