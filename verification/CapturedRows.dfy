/** What a compaction captures: exactly when its snapshot is made of published changes only, and
    exactly when its rows are a correct merge of those. */
module CapturedRows {
  import opened Options
  import opened Hlc
  import opened Merge
  import opened WritePath
  import opened Replica
  import opened Protocol
  import opened Invariant
  import opened InvariantRemote
  import opened Convergence
  import opened Conservation

  // ---- Rows of a larger history ---------------------------------------------------------------

  /** A cell that only deletes outside the smaller history overtake. */
  ghost predicate OvertakenOnlyBy(small: set<Op>, large: set<Op>, k: Key, f: Field, c: Cell) {
    Stamped(small, k, f, c) && !Overtaken(small, k, c.hlc) && Overtaken(large, k, c.hlc)
  }

  /** The smaller history carries every stamp in the row, and a live row misses no cell because of a
      delete outside it. */
  ghost predicate RowStands(small: set<Op>, large: set<Op>, k: Key, row: Row) {
    && (row.deletedHlc.Some? ==> DeletedAt(small, k, row.deletedHlc.value))
    && (forall f :: f in row.payload ==> Stamped(small, k, f, row.payload[f]))
    && (!row.deleted ==> forall f, c :: OvertakenOnlyBy(small, large, k, f, c) ==>
          f in row.payload && Leq(c.hlc, row.payload[f].hlc))
  }

  ghost predicate RowsStand(small: set<Op>, large: set<Op>, rows: Rows) {
    forall k :: k in rows ==> RowStands(small, large, k, rows[k])
  }

  lemma SmallerHistory(small: set<Op>, large: set<Op>, k: Key)
    requires small <= large
    ensures forall f, c :: Stamped(small, k, f, c) ==> Stamped(large, k, f, c)
    ensures forall h :: DeletedAt(small, k, h) ==> DeletedAt(large, k, h)
    ensures forall h :: Overtaken(small, k, h) ==> Overtaken(large, k, h)
    ensures Touched(small, k) ==> Touched(large, k)
  {}

  lemma LiveRowIff(small: set<Op>, large: set<Op>, k: Key, p: map<Field, Cell>)
    requires small <= large && Alive(large, k, p)
    ensures Alive(small, k, p) <==>
      && (forall f :: f in p ==> Stamped(small, k, f, p[f]))
      && (forall f, c :: OvertakenOnlyBy(small, large, k, f, c) ==> f in p && Leq(c.hlc, p[f].hlc))
  {
    SmallerHistory(small, large, k);
    hide Stamped, Overtaken, Less;
    var top :| top in p && !Overtaken(large, k, p[top].hlc);
    assert !Overtaken(small, k, p[top].hlc);
    if forall f, c :: OvertakenOnlyBy(small, large, k, f, c) ==> f in p && Leq(c.hlc, p[f].hlc) {
      forall f, c | Stamped(small, k, f, c) && !Overtaken(small, k, c.hlc) ensures f in p && Leq(c.hlc, p[f].hlc) {
        assert Overtaken(large, k, c.hlc) ==> OvertakenOnlyBy(small, large, k, f, c);
      }
    }
  }

  lemma RowStandsIff(small: set<Op>, large: set<Op>, k: Key, row: Option<Row>)
    requires small <= large && Settled(large, k, row)
    ensures Settled(small, k, row) <==> row.None? || RowStands(small, large, k, row.value)
  {
    SmallerHistory(small, large, k);
    if row.Some? && !row.value.deleted { LiveRowIff(small, large, k, row.value.payload); }
    hide Stamped, Overtaken, Less, Alive, OvertakenOnlyBy;
  }

  /** Rows that are a correct merge of some ops are a correct merge of a part of them, if and only if
      that part carries every stamp in the rows, and no delete outside it has removed a cell. */
  lemma PartIsSettledIff(small: set<Op>, large: set<Op>, rows: Rows)
    requires small <= large && AllSettled(large, rows)
    ensures AllSettled(small, rows) <==> RowsStand(small, large, rows)
  {
    hide Settled, RowStands;
    forall k ensures Settled(small, k, Get(rows, k)) <==> k !in rows || RowStands(small, large, k, rows[k]) {
      RowStandsIff(small, large, k, Get(rows, k));
    }
  }

  // ---- What is captured -------------------------------------------------------------------------

  /** What a compactor folds, and what of it has been published. */
  ghost function FoldedOps(w: World, s: Snapshot): set<Op> { OpsIn(w.log, s.merged) }

  ghost function FoldedAndPublished(w: World, s: Snapshot): set<Op> { OpsIn(w.log, s.merged * w.published) }

  lemma QuietReplicaFacts(i: string, r: Replica, log: Log, published: set<FileName>, m: Remote)
    requires ReplicaOk(i, r, log, published, m) && r.pending.None?
    ensures AllSettled(OpsIn(log, r.merged), r.rows) && r.merged <= log.Keys
    ensures OutboxNames(r) + r.stranded <= r.merged <= published + OutboxNames(r) + r.stranded
  {
    hide AllSettled;
    assert OpsIn(log, r.merged) + {} == OpsIn(log, r.merged);
  }

  lemma CapturedIs(w: World, i: string, changes: seq<Change>, nows: seq<nat>)
    requires Enabled(w, Capture(i, changes, nows))
    ensures i in w.replicas && PullsAll(w.remote, w.replicas[i], changes, nows)
    ensures var s, pulled := CapturedBy(w, i, changes, nows), Pulled(w.replicas[i], changes, nows);
      && s.rows == pulled.rows && s.merged == pulled.merged && pulled.pending.None?
      && pulled.outbox == w.replicas[i].outbox && pulled.stranded == w.replicas[i].stranded
  {
    hide Listing, ApplyOps, ReceiveAll;
  }

  lemma CapturedFacts(w: World, i: string, changes: seq<Change>, nows: seq<nat>)
    requires Inv(w) && Enabled(w, Capture(i, changes, nows))
    ensures i in w.replicas
    ensures var s, r := CapturedBy(w, i, changes, nows), w.replicas[i];
      && AllSettled(FoldedOps(w, s), s.rows) && s.merged <= w.log.Keys
      && OutboxNames(r) + r.stranded <= s.merged <= w.published + OutboxNames(r) + r.stranded
  {
    CapturedIs(w, i, changes, nows);
    hide Inv, Enabled, CapturedBy, AllSettled, PullsAll, Pulled, ReplicaOk;
    var pulled := Pulled(w.replicas[i], changes, nows);
    PullOk(w, i, changes, nows);
    ReplicaInOrder(WithReplica(w, i, pulled), i);
    QuietReplicaFacts(i, pulled, w.log, w.published, w.remote);
  }

  lemma OnlyPublishedIff(w: World, names: set<FileName>, n: FileName)
    requires LogOnce(w.log) && n in names && names <= w.log.Keys && OpsIn(w.log, names) <= PublishedOps(w)
    ensures n in w.published
  {
    var op := w.log[n].ops[0];
    assert op in w.log[n].ops && op in OpsIn(w.log, names);
    var m :| m in w.published && m in w.log && op in w.log[m].ops;
  }

  /** After any careful run, the rows a compaction captures are the merge of what it has folded, and
      that is published to the last op, if and only if every change the compactor has queued or
      set aside is published. */
  lemma CaptureIsPublishedIff(run: seq<Step>, i: string, changes: seq<Change>, nows: seq<nat>)
    requires CarefulRun(run) && Enabled(Exec(Start(), run), Capture(i, changes, nows))
    ensures var w := Exec(Start(), run); var s, r := CapturedBy(w, i, changes, nows), w.replicas[i];
      && AllSettled(FoldedOps(w, s), s.rows)
      && (FoldedOps(w, s) <= PublishedOps(w) <==> OutboxNames(r) + r.stranded <= w.published)
  {
    hide Exec, Careful, AllSettled, CapturedBy, Enabled, Inv, LogOnce, OpsIn;
    RunKeepsInv(run);
    RunKeepsOpsOnce(run);
    var w := Exec(Start(), run);
    CapturedFacts(w, i, changes, nows);
    var s, r := CapturedBy(w, i, changes, nows), w.replicas[i];
    if FoldedOps(w, s) <= PublishedOps(w) {
      forall n | n in OutboxNames(r) + r.stranded ensures n in w.published { OnlyPublishedIff(w, s.merged, n); }
    }
    if OutboxNames(r) + r.stranded <= w.published { OpsInMore(w.log, s.merged, w.published); }
  }

  lemma OpsInMore(log: Log, a: set<FileName>, b: set<FileName>)
    requires a <= b
    ensures OpsIn(log, a) <= OpsIn(log, b)
  {}

  /** And the captured rows are a correct merge of the published changes among them, if and only if
      a published change carries every stamp in the rows and no unpublished delete has removed a
      published cell. Unpublished changes that were overtaken do no harm. */
  lemma CapturedRowsStandIff(run: seq<Step>, i: string, changes: seq<Change>, nows: seq<nat>)
    requires CarefulRun(run) && Enabled(Exec(Start(), run), Capture(i, changes, nows))
    ensures var w := Exec(Start(), run); var s := CapturedBy(w, i, changes, nows);
      var published := FoldedAndPublished(w, s);
      AllSettled(published, s.rows) <==> RowsStand(published, FoldedOps(w, s), s.rows)
  {
    hide Exec, Careful, AllSettled, CapturedBy, Enabled, Inv, OpsIn, RowsStand;
    RunKeepsInv(run);
    var w := Exec(Start(), run);
    CapturedFacts(w, i, changes, nows);
    var s := CapturedBy(w, i, changes, nows);
    OpsInMore(w.log, s.merged * w.published, s.merged);
    PartIsSettledIff(FoldedAndPublished(w, s), FoldedOps(w, s), s.rows);
  }
}
