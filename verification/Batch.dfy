/** A batch of local writes: the ops it publishes, replayed in order, give exactly the rows the
    device kept, stale columns included. */
module Batch {
  import opened Options
  import opened Hlc
  import opened Merge
  import opened WritePath
  import opened Replica

  /** A put with its newest stamp, a delete, or the end of a batch. */
  datatype LocalWrite =
    | Putting(key: Key, fields: map<Field, Value>, now: nat, h: Hlc, id: string)
    | Erasing(key: Key, now: nat, id: string)
    | Closing

  /** The program performs the write: a put has fields, a delete finds a live row, a batch is open. */
  predicate Performs(r: Replica, w: LocalWrite) {
    match w
    case Putting(_, fields, _, _, _) => fields != map[]
    case Erasing(key, _, _) => key in r.rows && !r.rows[key].deleted
    case Closing => r.pending.Some?
  }

  /** The new stamp supersedes what the write replaces. */
  ghost predicate Superseding(r: Replica, w: LocalWrite)
    requires Performs(r, w)
  {
    match w
    case Putting(key, fields, now, _, _) => Supersedes(Get(r.rows, key), fields, NextStamp(r, now))
    case Erasing(key, now, _) =>
      forall f :: f in r.rows[key].payload ==> Leq(r.rows[key].payload[f].hlc, NextStamp(r, now))
    case Closing => true
  }

  function Performed(r: Replica, w: LocalWrite): Replica
    requires Performs(r, w)
  {
    match w
    case Putting(key, fields, now, h, id) => Put(r, key, fields, now, h, id)
    case Erasing(key, now, id) => Erase(r, key, now, id)
    case Closing => Promote(r)
  }

  /** Every write of the sequence can be performed and supersedes, in its turn. */
  ghost predicate AllSupersede(r: Replica, ws: seq<LocalWrite>)
    decreases |ws|
  {
    ws == [] || (Performs(r, ws[0]) && Superseding(r, ws[0]) && AllSupersede(Performed(r, ws[0]), ws[1..]))
  }

  ghost function AllPerformed(r: Replica, ws: seq<LocalWrite>): Replica
    requires AllSupersede(r, ws)
    decreases |ws|
  {
    if ws == [] then r else AllPerformed(Performed(r, ws[0]), ws[1..])
  }

  /** Rows of the two shapes that local rows take. */
  ghost predicate RowsFormed(rows: Rows) { forall k :: k in rows ==> WellFormed(rows[k]) }

  // ---- One write ------------------------------------------------------------------------------------

  ghost function OpOf(r: Replica, w: LocalWrite): Op
    requires Performs(r, w) && !w.Closing?
  {
    match w
    case Putting(key, fields, now, _, _) => Upsert(key, PutRow(Get(r.rows, key), fields, NextStamp(r, now)).payload)
    case Erasing(key, now, _) => Delete(key, NextStamp(r, now))
  }

  function BatchOps(r: Replica): seq<Op> { if r.pending.Some? then r.pending.value.ops else [] }

  /** Everything the device still has to publish, in order. */
  function UnpublishedOps(r: Replica): seq<Op> { AllOpsOf(r.outbox) + BatchOps(r) }

  /** One superseding write appends one op to the batch, and that op takes the old rows to the new. */
  lemma WriteAppends(r: Replica, w: LocalWrite)
    requires RowsFormed(r.rows) && Performs(r, w) && Superseding(r, w) && !w.Closing?
    ensures var r' := Performed(r, w);
      && RowsFormed(r'.rows) && ApplyOp(r.rows, OpOf(r, w)) == Ok(r'.rows) && r'.outbox == r.outbox && r'.pending.Some?
      && BatchOps(r') == BatchOps(r) + [OpOf(r, w)]
      && r'.pending.value.id == (if r.pending.Some? then r.pending.value.id else w.id)
  {
    hide NextStamp, Less;
    var p := NextStamp(r, w.now);
    assert [] + [OpOf(r, w)] == [OpOf(r, w)];
    match w
    case Putting(key, fields, _, _, _) =>
      PutRefinesMergeIff(key, Get(r.rows, key), fields, p);
    case Erasing(key, _, _) =>
      DeleteRefinesMergeIff(key, r.rows[key], p);
  }

  lemma {:induction false} AllOpsOfSnoc(cs: seq<Change>, c: Change)
    ensures AllOpsOf(cs + [c]) == AllOpsOf(cs) + c.ops
  {
    if cs == [] {
      assert [] + [c] == [c] && [c][1..] == [] && c.ops + [] == c.ops && [] + c.ops == c.ops;
    } else {
      assert (cs + [c])[1..] == cs[1..] + [c];
      AllOpsOfSnoc(cs[1..], c);
    }
  }

  /** Closing the batch moves its ops behind those already queued. */
  lemma CloseKeepsOrder(r: Replica)
    requires r.pending.Some?
    ensures UnpublishedOps(Promote(r)) == UnpublishedOps(r) && Promote(r).rows == r.rows
  {
    AllOpsOfSnoc(r.outbox, r.pending.value);
  }

  lemma {:induction false} ApplyOpsAppend(rows: Rows, ops: seq<Op>, op: Op)
    requires ApplyOps(rows, ops).Ok?
    ensures ApplyOps(rows, ops + [op]) == ApplyOp(ApplyOps(rows, ops).value, op)
    decreases |ops|
  {
    hide ApplyOp;
    if ops == [] {
      assert [] + [op] == [op] && [op][1..] == [];
    } else {
      assert (ops + [op])[1..] == ops[1..] + [op];
      ApplyOpsAppend(ApplyOp(rows, ops[0]).value, ops[1..], op);
    }
  }

  // ---- The whole queue ------------------------------------------------------------------------------

  /** What is still to be published takes the given rows to the rows now. */
  ghost predicate Replays(base: Rows, r: Replica) { ApplyOps(base, UnpublishedOps(r)) == Ok(r.rows) }

  lemma WriteReplays(base: Rows, r: Replica, w: LocalWrite)
    requires RowsFormed(r.rows) && Performs(r, w) && Superseding(r, w) && Replays(base, r)
    ensures Replays(base, Performed(r, w)) && RowsFormed(Performed(r, w).rows)
  {
    if w.Closing? {
      CloseKeepsOrder(r);
    } else {
      WriteAppends(r, w);
      hide Performed, OpOf, ApplyOp, Superseding, BatchOps, AllOpsOf;
      ApplyOpsAppend(base, UnpublishedOps(r), OpOf(r, w));
      assert UnpublishedOps(Performed(r, w)) == UnpublishedOps(r) + [OpOf(r, w)];
    }
  }

  lemma {:induction false} WritesReplay(base: Rows, r: Replica, ws: seq<LocalWrite>)
    requires RowsFormed(r.rows) && AllSupersede(r, ws) && Replays(base, r)
    ensures Replays(base, AllPerformed(r, ws))
    decreases |ws|
  {
    if ws != [] {
      hide Performed, Superseding, Replays, RowsFormed;
      WriteReplays(base, r, ws[0]);
      WritesReplay(base, Performed(r, ws[0]), ws[1..]);
    }
  }

  /** Any run of puts and deletes whose stamps supersede, in any number of batches: from a device with
      nothing to publish, replaying the queued changes in their order and then the open batch, over
      the rows from the beginning, gives exactly the rows the device now holds. */
  lemma QueueReplays(r: Replica, ws: seq<LocalWrite>)
    requires RowsFormed(r.rows) && r.pending.None? && r.outbox == [] && AllSupersede(r, ws)
    ensures ApplyOps(r.rows, UnpublishedOps(AllPerformed(r, ws))) == Ok(AllPerformed(r, ws).rows)
  {
    hide Performed, Superseding, RowsFormed;
    assert UnpublishedOps(r) == [] && ApplyOps(r.rows, []) == Ok(r.rows);
    WritesReplay(r.rows, r, ws);
  }

  /** In particular for one open batch and what was queued before it was opened: whatever takes the
      rows before to the rows then, the batch takes them on to the rows now. */
  lemma BatchReplays(r: Replica, ws: seq<LocalWrite>)
    requires RowsFormed(r.rows) && r.pending.None? && AllSupersede(r, ws) && forall i :: 0 <= i < |ws| ==> !ws[i].Closing?
    ensures var now := AllPerformed(r, ws);
      now.outbox == r.outbox && ApplyOps(r.rows, BatchOps(now)) == Ok(now.rows) && |BatchOps(now)| == |ws|
  {
    var bare := r.(outbox := []);
    QueueIsAside(r, bare, ws);
    QueueReplays(bare, ws);
    var now := AllPerformed(bare, ws);
    assert AllOpsOf([]) == [] && [] + BatchOps(now) == BatchOps(now);
  }

  /** Writes without closing do not look at the queue. */
  lemma {:induction false} QueueIsAside(r: Replica, bare: Replica, ws: seq<LocalWrite>)
    requires RowsFormed(r.rows) && bare == r.(outbox := []) && AllSupersede(r, ws) && forall i :: 0 <= i < |ws| ==> !ws[i].Closing?
    ensures AllSupersede(bare, ws) && AllPerformed(bare, ws) == AllPerformed(r, ws).(outbox := [])
    ensures AllPerformed(r, ws).outbox == r.outbox && |BatchOps(AllPerformed(r, ws))| == |BatchOps(r)| + |ws|
    decreases |ws|
  {
    if ws != [] {
      WriteAppends(r, ws[0]);
      assert Performed(bare, ws[0]) == Performed(r, ws[0]).(outbox := []);
      hide RowsFormed;
      QueueIsAside(Performed(r, ws[0]), Performed(bare, ws[0]), ws[1..]);
    }
  }

  /** So a device that holds the same rows and folds the queued changes in their order holds the same
      rows again, to the last stale column. */
  lemma QueueTravels(r: Replica, ws: seq<LocalWrite>, other: Replica)
    requires RowsFormed(r.rows) && r.pending.None? && r.outbox == [] && AllSupersede(r, ws) && other.rows == r.rows
    requires AllPerformed(r, ws).pending.None?
    ensures var now := AllPerformed(r, ws); Fold(other, now.outbox).Ok? && Fold(other, now.outbox).value.rows == now.rows
  {
    QueueReplays(r, ws);
    hide AllPerformed, ApplyOps;
    var now := AllPerformed(r, ws);
    assert AllOpsOf(now.outbox) + [] == AllOpsOf(now.outbox);
  }

  /** Put, delete and put again in one batch: the deleted column stays away on both sides. */
  lemma DeletedColumnStaysAway(key: Key, a: Cell, d: Hlc, b: Cell)
    requires Less(a.hlc, d) && Less(d, b.hlc)
    ensures ApplyOps(map[], [Upsert(key, map["a" := a]), Delete(key, d), Upsert(key, map["b" := b])]) ==
            Ok(map[key := Row(false, None, map["b" := b])])
  {
    var first, second, third := Upsert(key, map["a" := a]), Delete(key, d), Upsert(key, map["b" := b]);
    var live, gone, back := Row(false, None, map["a" := a]), Row(true, Some(d), map[]), Row(false, None, map["b" := b]);
    Trichotomy(a.hlc, d);
    assert !Clashes(map[], map["a" := a]) && MergeColumns(map[], map["a" := a]) == map["a" := a];
    assert NewerThan(map["b" := b], d) == map["b" := b] && MergeColumns(map[], map["b" := b]) == map["b" := b];
    assert "b" in map["b" := b];
    assert ApplyOp(map[], first) == Ok(map[key := live]);
    assert DeleteRow(Some(live), d) == gone;
    assert ApplyOp(map[key := live], second) == Ok(map[key := gone]) by { assert map[key := live][key := gone] == map[key := gone]; }
    assert ApplyOp(map[key := gone], third) == Ok(map[key := back]) by { assert map[key := gone][key := back] == map[key := back]; }
    hide ApplyOp;
    assert ApplyOps(map[], []) == Ok(map[]);
    ApplyOpsAppend(map[], [], first);
    ApplyOpsAppend(map[], [] + [first], second);
    ApplyOpsAppend(map[], [] + [first] + [second], third);
    assert [] + [first] + [second] + [third] == [first, second, third];
  }
}
