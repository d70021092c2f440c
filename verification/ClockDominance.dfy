/** The device clock stays above everything the device holds, so its next write always
    supersedes the row: the write path refines merging in every such run. */
module ClockDominance {
  import opened Options
  import opened Hlc
  import opened Merge
  import opened WritePath
  import opened Replica
  import opened Protocol
  import opened Invariant
  import opened InvariantRemote
  import opened Convergence

  // ---- Clocks that cover a device ----------------------------------------------------

  /** The stamp is not ahead of the clock, so the next tick passes it, whatever the node ids. */
  predicate Reaches(h: Hlc, g: Hlc) { !Ahead(g, h) }

  ghost predicate OpReached(op: Op, h: Hlc) {
    match op
    case Delete(_, d) => Reaches(h, d)
    case Upsert(_, columns) => forall f :: f in columns ==> Reaches(h, columns[f].hlc)
  }

  ghost predicate AllUpTo(ops: set<Op>, h: Hlc) { forall op :: op in ops ==> OpReached(op, h) }

  /** The clock reaches every stamp of node `i` that any op carries. */
  ghost predicate OwnUpTo(ops: set<Op>, i: string, h: Hlc) {
    forall op, g :: op in ops && OpCarries(op, g) && g.node == i ==> Reaches(h, g)
  }

  ghost predicate NoStampsOf(ops: set<Op>, i: string) {
    forall op, g :: op in ops && OpCarries(op, g) ==> g.node != i
  }

  /** The clock reaches everything folded into the device's rows, its open batch, and every
      stamp the device ever issued. */
  ghost predicate Covers(i: string, r: Replica, log: Log, ops: set<Op>, h: Hlc) {
    && AllUpTo(OpsIn(log, r.merged) + PendingOps(r), h)
    && OwnUpTo(ops, i, h)
    && (r.pending.Some? ==> Reaches(h, r.pending.value.hlc))
  }

  ghost predicate CoversDevice(w: World, i: string, h: Hlc) {
    i in w.replicas && Covers(i, w.replicas[i], w.log, AllOps(w), h)
  }

  /** Each received change stamp is within the drift window when it arrives. */
  predicate AllWithinReach(clock: Hlc, changes: seq<Change>, nows: seq<nat>)
    requires |nows| == |changes|
    decreases |changes|
  {
    changes == []
    || (WithinReach(clock, changes[0].hlc, nows[0])
        && AllWithinReach(Receive(clock, changes[0].hlc, nows[0]), changes[1..], nows[1..]))
  }

  /** What arrives is within the drift window, and the pull does not save a clock below the one the
      next write would start from, unless that clock still covers the device. */
  ghost predicate PullsAhead(w: World, i: string, changes: seq<Change>, nows: seq<nat>)
    requires i in w.replicas && |nows| == |changes|
  {
    var r := w.replicas[i];
    var after := ReceiveAll(r.clock, changes, nows);
    && AllWithinReach(r.clock, changes, nows)
    && (r.adopting.Some? || Reaches(after, Refreshed(r)) || CoversDevice(w, i, after))
  }

  /** Received stamps are within the drift window, a pull that stops halfway has folded nothing
      above the clock, and whenever the clock that the next write starts from is replaced, by a
      restart, a restore or a pull that saves a lower one, the new one covers the device. Nothing
      is asked of writes. */
  ghost predicate Disciplined(w: World, s: Step) {
    Enabled(w, s) ==>
      match s
      case Pull(i, changes, nows) => PullsAhead(w, i, changes, nows)
      case Capture(i, changes, nows) => PullsAhead(w, i, changes, nows) && Careful(w, s)
      case InterruptedPull(i, changes) => forall c :: c in changes ==> Reaches(Refreshed(w.replicas[i]), c.hlc)
      case Crash(i, now) => CoversDevice(w, i, RestartClock(w.replicas[i], now))
      case AdoptClock(i) => CoversDevice(w, i, Refreshed(ClockAdopted(w.replicas[i])))
      case GiveUpRestore(i) => CoversDevice(w, i, Refreshed(w.replicas[i]))
      case Restore(_, _) => Careful(w, s)
      case EmptyStore(i) => Careful(w, s) && OwnUpTo(AllOps(w), i, w.replicas[i].clock)
      case Sweep(_, _) => Careful(w, s)
      case _ => true
  }

  ghost predicate DisciplinedRun(run: seq<Step>)
    decreases |run|, 1
  {
    run == [] || DisciplinedLast(run)
  }

  ghost predicate DisciplinedLast(run: seq<Step>)
    requires run != []
    decreases |run|, 0
  {
    var front := run[..|run| - 1];
    DisciplinedRun(front) && Disciplined(Exec(Start(), front), run[|run| - 1])
  }

  // ---- The invariant -----------------------------------------------------------------

  /** Outside a restore the clock that the next write starts from covers the device; a restore
      writes nothing. */
  ghost predicate Dominates(i: string, r: Replica, log: Log, ops: set<Op>) {
    r.adopting.None? ==> Covers(i, r, log, ops, Refreshed(r))
  }

  ghost predicate Dominated(w: World) {
    && (forall i :: i in w.replicas ==> Dominates(i, w.replicas[i], w.log, AllOps(w)))
    && (forall i :: i !in w.replicas ==> NoStampsOf(AllOps(w), i))
  }

  // ---- A covering clock makes writes fresh -----------------------------------------------

  lemma AheadPasses(p: Hlc, clock: Hlc, h: Hlc)
    requires Ahead(p, clock) && Reaches(clock, h)
    ensures Less(h, p) && Leq(h, p) && Reaches(p, h)
  {}

  lemma ReachesMore(h: Hlc, g: Hlc, below: Hlc)
    requires Reaches(h, g) && Leq(below, g)
    ensures Reaches(h, below)
  {}

  lemma OpReachedMore(op: Op, g: Hlc, h: Hlc)
    requires OpUpTo(op, g) && Reaches(h, g)
    ensures OpReached(op, h)
  {
    match op
    case Delete(_, d) => ReachesMore(h, g, d);
    case Upsert(_, columns) => forall f | f in columns ensures Reaches(h, columns[f].hlc) { ReachesMore(h, g, columns[f].hlc); }
  }

  /** The next stamp of the device exceeds every stamp in the row and has never been used. */
  ghost predicate FreshWrite(w: World, i: string, key: Key, now: nat) {
    && i in w.replicas
    && var r, p := w.replicas[i], NextStamp(w.replicas[i], now);
       && (key in r.rows ==> forall h :: StampOf(r.rows[key], h) ==> Less(h, p))
       && Unused(w, p)
  }

  /** The next stamp of a device is above the clock it starts from and carries its name. */
  lemma StampAdvances(w: World, i: string, now: nat)
    requires Inv(w) && i in w.replicas
    ensures NextStamp(w.replicas[i], now).node == i && Ahead(NextStamp(w.replicas[i], now), Refreshed(w.replicas[i]))
  {
    hide Inv;
    NodeKept(w, i);
    NextIsAhead(Refreshed(w.replicas[i]), TickAt(now));
  }

  lemma CoveredStampIsUnused(w: World, i: string, p: Hlc)
    requires i in w.replicas && CoversDevice(w, i, Refreshed(w.replicas[i])) && p.node == i && Ahead(p, Refreshed(w.replicas[i]))
    ensures Unused(w, p)
  {
    hide AllOps, Refreshed, AllUpTo, OpsIn, Less, OpCarries;
  }

  lemma CoveredIsFresh(w: World, i: string, key: Key, now: nat)
    requires Inv(w) && i in w.replicas && CoversDevice(w, i, Refreshed(w.replicas[i]))
    ensures FreshWrite(w, i, key, now)
  {
    hide Inv, AllOps, NextStamp, Unused, Settled, OwnUpTo, OpsIn, PendingOps, Less, Refreshed, RowUpTo, AllUpTo;
    StampAdvances(w, i, now);
    var r, p := w.replicas[i], NextStamp(w.replicas[i], now);
    CoveredStampIsUnused(w, i, p);
    RowSettled(w, i, key);
    if key in r.rows { RowIsBelow(Applied(w, r), key, r.rows[key], Refreshed(r), p); }
  }

  lemma RowIsBelow(history: set<Op>, key: Key, row: Row, clock: Hlc, p: Hlc)
    requires Settled(history, key, Some(row)) && AllUpTo(history, clock) && Ahead(p, clock)
    ensures forall h :: StampOf(row, h) ==> Less(h, p)
  {
    hide Settled, Less, AllUpTo;
    OpsUpToRow(history, key, row, clock);
    forall h | StampOf(row, h) ensures Less(h, p) { AheadPasses(p, clock, h); }
  }

  lemma FreshSupersedes(w: World, i: string, key: Key, fields: map<Field, Value>, now: nat)
    requires FreshWrite(w, i, key, now)
    ensures var r := w.replicas[i];
            && Supersedes(Get(r.rows, key), fields, NextStamp(r, now))
            && (key in r.rows ==> forall f :: f in r.rows[key].payload ==> Leq(r.rows[key].payload[f].hlc, NextStamp(r, now)))
  {
    hide Unused, NextStamp;
    var r, p := w.replicas[i], NextStamp(w.replicas[i], now);
    if key in r.rows {
      var row := r.rows[key];
      forall f | f in row.payload ensures Less(row.payload[f].hlc, p) && Leq(row.payload[f].hlc, p) {
        assert StampOf(row, row.payload[f].hlc);
        Trichotomy(row.payload[f].hlc, p);
      }
      if row.deletedHlc.Some? { assert StampOf(row, row.deletedHlc.value); }
    }
  }

  // ---- Every disciplined step keeps it ---------------------------------------------------

  lemma AllUpToMonotone(ops: set<Op>, h: Hlc, h': Hlc)
    requires AllUpTo(ops, h) && Reaches(h', h)
    ensures AllUpTo(ops, h')
  {
    forall op | op in ops ensures OpReached(op, h') { assert OpReached(op, h); }
  }

  lemma OwnUpToMonotone(ops: set<Op>, i: string, h: Hlc, h': Hlc)
    requires OwnUpTo(ops, i, h) && Reaches(h', h)
    ensures OwnUpTo(ops, i, h')
  {
    hide OpCarries;
  }

  lemma SwapDominated(w: World, w': World, i: string)
    requires Dominated(w) && i in w.replicas && i in w'.replicas && w'.replicas == w.replicas[i := w'.replicas[i]]
    requires AllOps(w') == AllOps(w) && w'.log == w.log && Dominates(i, w'.replicas[i], w.log, AllOps(w))
    ensures Dominated(w')
  {
    hide Dominates, AllOps, NoStampsOf;
  }

  /** A change of fields that the clock invariant does not mention. */
  lemma QuietDominated(w: World, i: string, r: Replica)
    requires Dominated(w) && i in w.replicas && r.adopting == w.replicas[i].adopting
    requires r.clock == w.replicas[i].clock && r.stored == w.replicas[i].stored && r.merged == w.replicas[i].merged && r.pending == w.replicas[i].pending
    ensures Dominated(WithReplica(w, i, r))
  {
    SameReplicaOps(w, i, r);
    hide AllOps, OpsIn, AllUpTo, OwnUpTo, NoStampsOf;
    assert Refreshed(r) == Refreshed(w.replicas[i]);
    assert Dominates(i, r, w.log, AllOps(w));
    SwapDominated(w, WithReplica(w, i, r), i);
  }

  /** A replaced clock that covers the device. */
  lemma ReclockedDominated(w: World, w': World, i: string, h: Hlc)
    requires Dominated(w) && CoversDevice(w, i, h) && i in w'.replicas
    requires w'.replicas == w.replicas[i := w'.replicas[i]] && w'.log == w.log
    requires Refreshed(w'.replicas[i]) == h && w'.replicas[i].merged == w.replicas[i].merged && w'.replicas[i].pending == w.replicas[i].pending
    ensures Dominated(w')
  {
    SameReplicaOps(w, i, w'.replicas[i]);
    SameOps(WithReplica(w, i, w'.replicas[i]), w');
    hide AllOps, OpsIn, AllUpTo, OwnUpTo, NoStampsOf;
    assert Dominates(i, w'.replicas[i], w.log, AllOps(w));
    SwapDominated(w, w', i);
  }

  lemma JoinDominated(w: World, i: string, now: nat)
    requires Dominated(w) && i !in w.replicas
    ensures Dominated(WithReplica(w, i, Joined(i, now)))
  {
    var r := Joined(i, now);
    JoinOps(w, i, r);
    assert Covers(i, r, w.log, AllOps(w), r.clock) by {
      assert OpsIn(w.log, {}) + {} == {};
      hide AllOps;
    }
    hide Covers, AllOps, NoStampsOf;
    assert Dominates(i, r, w.log, AllOps(w));
    hide Dominates;
  }

  /** A restore has just begun: its clock is still to be replaced. */
  lemma RestoreDominated(w: World, i: string, s: Snapshot)
    requires Dominated(w) && i in w.replicas && w.replicas[i].pending.None?
    ensures Dominated(WithReplica(w, i, Restored(w.replicas[i], s)))
  {
    var r := Restored(w.replicas[i], s);
    SameReplicaOps(w, i, r);
    hide AllOps, Covers;
    SwapDominated(w, WithReplica(w, i, r), i);
  }

  lemma EmptyStoreDominated(w: World, i: string)
    requires Dominated(w) && i in w.replicas && w.replicas[i].pending.None? && OwnUpTo(AllOps(w), i, w.replicas[i].clock)
    ensures Dominated(WithReplica(w, i, Emptied(w.replicas[i])))
  {
    var r := Emptied(w.replicas[i]);
    SameReplicaOps(w, i, r);
    assert Covers(i, r, w.log, AllOps(w), r.clock) by {
      assert OpsIn(w.log, {}) + {} == {};
      hide AllOps;
    }
    hide AllOps, Covers;
    SwapDominated(w, WithReplica(w, i, r), i);
  }

  lemma NewestIsStamp(row: Option<Row>, fields: map<Field, Value>, p: Hlc, h: Hlc)
    requires fields != map[] && NewestStamp(PutRow(row, fields, p), h)
    requires row.Some? ==> forall g :: StampOf(row.value, g) ==> Less(g, p)
    ensures h == p
  {
    var next := PutRow(row, fields, p);
    var some :| some in fields;
    assert next.payload[some].hlc == p;
    assert StampOf(next, p);
    Trichotomy(h, p);
  }

  lemma CommitStamp(pending: Option<Change>, c: Change, clock: Hlc)
    requires pending.Some? ==> Reaches(clock, pending.value.hlc)
    requires Ahead(c.hlc, clock)
    ensures Commit(pending, c).hlc == c.hlc
  {
    if pending.Some? { AheadPasses(c.hlc, clock, pending.value.hlc); }
  }

  /** The op a device commits carries its new stamp and stamps that were around already. */
  ghost predicate CarriesNewOrKnown(op: Op, p: Hlc, known: set<Op>) {
    forall g :: OpCarries(op, g) ==> g == p || exists o :: o in known && OpCarries(o, g)
  }

  lemma CommitCovers(i: string, r: Replica, p: Hlc, key: Key, row: Row, c: Change, op: Op, log: Log, ops: set<Op>)
    requires Covers(i, r, log, ops, Refreshed(r)) && p.node == i && Ahead(p, Refreshed(r))
    requires c.ops == [op] && c.hlc == p && OpUpTo(op, p) && CarriesNewOrKnown(op, p, ops)
    ensures var r' := CommitRow(r.(clock := p), key, row, c);
            Refreshed(r') == p && r'.stored == Some(p) && Covers(i, r', log, ops + {op}, p)
  {
    var r', clock := CommitRow(r.(clock := p), key, row, c), Refreshed(r);
    CommitPending(r, p, key, row, c, op);
    CommitStamp(r.pending, c, clock);
    Trichotomy(p, p);
    OpReachedMore(op, p, p);
    AllUpToMonotone(OpsIn(log, r.merged) + PendingOps(r), clock, p);
    OwnUpToMonotone(ops, i, clock, p);
    assert Refreshed(r') == p;
    hide Refreshed, OpUpTo, OpReached, OpsIn, PendingOps, Less;
    assert OwnUpTo(ops + {op}, i, p) by { hide Covers, AllUpTo; }
    assert AllUpTo(OpsIn(log, r.merged) + PendingOps(r'), p);
  }

  lemma OthersDominate(j: string, r: Replica, log: Log, ops: set<Op>, op: Op, p: Hlc)
    requires Dominates(j, r, log, ops) && p.node != j && CarriesNewOrKnown(op, p, ops)
    ensures Dominates(j, r, log, ops + {op})
  {
    hide AllUpTo, OpsIn, Less, OpCarries, Ahead;
  }

  lemma CommitDominated(w: World, i: string, p: Hlc, key: Key, row: Row, c: Change, op: Op)
    requires Dominated(w) && i in w.replicas && w.replicas[i].adopting.None? && p.node == i && Ahead(p, Refreshed(w.replicas[i]))
    requires c.ops == [op] && c.hlc == p && OpUpTo(op, p) && CarriesNewOrKnown(op, p, AllOps(w))
    ensures Dominated(WithReplica(w, i, CommitRow(w.replicas[i].(clock := p), key, row, c)))
  {
    hide Covers, AllOps, CarriesNewOrKnown, OpUpTo, Less, NoStampsOf, Refreshed;
    var r := w.replicas[i];
    var r' := CommitRow(r.(clock := p), key, row, c);
    var w' := WithReplica(w, i, r');
    assert Dominates(i, r, w.log, AllOps(w));
    CommitCovers(i, r, p, key, row, c, op, w.log, AllOps(w));
    assert Dominates(i, r', w.log, AllOps(w) + {op});
    hide Dominates, CommitRow;
    CommitPending(r, p, key, row, c, op);
    CommitOps(w, i, r', op);
    forall j | j in w.replicas && j != i ensures Dominates(j, w.replicas[j], w.log, AllOps(w) + {op}) {
      OthersDominate(j, w.replicas[j], w.log, AllOps(w), op, p);
    }
    forall j | j !in w'.replicas ensures NoStampsOf(AllOps(w) + {op}, j) {
      NoNewStamps(AllOps(w), op, p, j);
    }
  }

  lemma NoNewStamps(ops: set<Op>, op: Op, p: Hlc, j: string)
    requires NoStampsOf(ops, j) && CarriesNewOrKnown(op, p, ops) && p.node != j
    ensures NoStampsOf(ops + {op}, j)
  {
    hide OpCarries;
  }

  lemma PutCarriesKnown(history: set<Op>, key: Key, row: Option<Row>, fields: map<Field, Value>, p: Hlc)
    requires Settled(history, key, row)
    ensures CarriesNewOrKnown(Upsert(key, PutRow(row, fields, p).payload), p, history)
  {
    var payload := PutRow(row, fields, p).payload;
    forall f | f in payload && payload[f].hlc != p
      ensures exists o :: o in history && OpCarries(o, payload[f].hlc)
    {
      var o :| o in history && o.Upsert? && o.key == key && f in o.columns && o.columns[f] == payload[f];
      assert OpCarries(o, payload[f].hlc);
    }
  }

  lemma KnownGrows(op: Op, p: Hlc, known: set<Op>, more: set<Op>)
    requires CarriesNewOrKnown(op, p, known) && known <= more
    ensures CarriesNewOrKnown(op, p, more)
  {}

  lemma WriteDominated(w: World, i: string, key: Key, fields: map<Field, Value>, now: nat, h: Hlc, id: string)
    requires Inv(w) && Dominated(w) && i in w.replicas && w.replicas[i].adopting.None? && fields != map[]
    requires NewestStamp(PutRow(Get(w.replicas[i].rows, key), fields, NextStamp(w.replicas[i], now)), h)
    ensures Dominated(WithReplica(w, i, Put(w.replicas[i], key, fields, now, h, id)))
  {
    hide Inv, AllOps, NewestStamp, Less, Tick, NoStampsOf, Covers, NextStamp;
    var r := w.replicas[i];
    var p, row := NextStamp(r, now), Get(r.rows, key);
    StampAdvances(w, i, now);
    assert Dominates(i, r, w.log, AllOps(w));
    CoveredIsFresh(w, i, key, now);
    hide Dominates, Unused;
    NewestIsStamp(row, fields, p, h);
    var next := PutRow(row, fields, p);
    RowSettled(w, i, key);
    PutCarriesKnown(Applied(w, r), key, row, fields, p);
    AppliedWithin(w, i);
    KnownGrows(Upsert(key, next.payload), p, Applied(w, r), AllOps(w));
    NewestBoundsOp(key, next, p);
    hide Dominated, CarriesNewOrKnown, PutRow;
    CommitDominated(w, i, p, key, next, Change(id, p, [Upsert(key, next.payload)]), Upsert(key, next.payload));
  }

  lemma NewestBoundsOp(key: Key, row: Row, p: Hlc)
    requires NewestStamp(row, p)
    ensures OpUpTo(Upsert(key, row.payload), p)
  {
    forall f | f in row.payload ensures Leq(row.payload[f].hlc, p) { assert StampOf(row, row.payload[f].hlc); }
  }

  lemma RowSettled(w: World, i: string, key: Key)
    requires Inv(w) && i in w.replicas
    ensures Settled(Applied(w, w.replicas[i]), key, Get(w.replicas[i].rows, key))
  {
    hide Settled;
    ReplicaInOrder(w, i);
  }

  lemma AppliedWithin(w: World, i: string)
    requires Inv(w) && i in w.replicas
    ensures Applied(w, w.replicas[i]) <= AllOps(w)
  {
    ReplicaInOrder(w, i);
    hide Inv;
    AppliedIsCommitted(w, i);
  }

  lemma RemoveDominated(w: World, i: string, key: Key, now: nat, id: string)
    requires Inv(w) && Dominated(w) && i in w.replicas && w.replicas[i].adopting.None?
    ensures Dominated(WithReplica(w, i, Erase(w.replicas[i], key, now, id)))
  {
    hide Inv, Dominated, AllOps, Less, NextStamp;
    var p := NextStamp(w.replicas[i], now);
    StampAdvances(w, i, now);
    Trichotomy(p, p);
    CommitDominated(w, i, p, key, Row(true, Some(p), map[]), Change(id, p, [Delete(key, p)]), Delete(key, p));
  }

  lemma CloseBatchDominated(w: World, i: string)
    requires Inv(w) && Dominated(w) && i in w.replicas && w.replicas[i].pending.Some? && NameOf(w.replicas[i].pending.value) !in w.log
    ensures Dominated(BatchClosed(w, i))
  {
    hide Inv, AllOps, AllUpTo, OwnUpTo, NoStampsOf;
    var c, w' := w.replicas[i].pending.value, BatchClosed(w, i);
    PromoteAllOps(w, w', i);
    forall j | j in w.replicas ensures Dominates(j, w'.replicas[j], w'.log, AllOps(w)) {
      MergedLogged(w, j);
      assert Dominates(j, w.replicas[j], w.log, AllOps(w));
      if j == i {
        PromoteOps(c, w.log, w'.log, w.replicas[i].merged);
        assert OpsIn(w'.log, w'.replicas[i].merged) + PendingOps(w'.replicas[i]) == OpsIn(w.log, w.replicas[i].merged) + PendingOps(w.replicas[i]);
      } else {
        OpsInExtends(w.log, w'.log, w.replicas[j].merged);
      }
    }
  }

  lemma MergedLogged(w: World, i: string)
    requires Inv(w) && i in w.replicas
    ensures w.replicas[i].merged <= w.log.Keys
  {
    ReplicaInOrder(w, i);
    hide Inv, AllSettled;
  }

  lemma {:induction false} ReceiveAllPasses(clock: Hlc, changes: seq<Change>, nows: seq<nat>)
    requires |nows| == |changes| && AllWithinReach(clock, changes, nows)
    ensures Reaches(ReceiveAll(clock, changes, nows), clock) && ReceiveAll(clock, changes, nows).node == clock.node
    ensures forall c :: c in changes ==> Reaches(ReceiveAll(clock, changes, nows), c.hlc)
    decreases |changes|
  {
    if changes != [] {
      var c := changes[0];
      var next := Receive(clock, c.hlc, nows[0]);
      ReceivePassesRemoteIffWithinReach(clock, c.hlc, nows[0]);
      NextIsAhead(clock, ReceiveAt(c.hlc, nows[0]));
      hide Receive, Less;
      ReceiveAllPasses(next, changes[1..], nows[1..]);
    }
  }

  lemma PulledOpsUpTo(log: Log, changes: seq<Change>, h: Hlc)
    requires LogOk(log) && forall c :: c in changes ==> NameOf(c) in log && log[NameOf(c)] == c && Reaches(h, c.hlc)
    ensures AllUpTo(OpsIn(log, Names(changes)), h)
  {
    forall op | op in OpsIn(log, Names(changes)) ensures OpReached(op, h) {
      var n :| n in Names(changes) && op in log[n].ops;
      var c :| c in changes && NameOf(c) == n;
      OpReachedMore(op, c.hlc, h);
    }
  }

  lemma FoldCovers(i: string, r: Replica, changes: seq<Change>, log: Log, ops: set<Op>, clock: Hlc, h: Hlc)
    requires Covers(i, r, log, ops, clock) && Fold(r, changes).Ok? && LogOk(log) && Reaches(h, clock)
    requires forall c :: c in changes ==> NameOf(c) in log && log[NameOf(c)] == c && Reaches(h, c.hlc)
    ensures Covers(i, Fold(r, changes).value, log, ops, h)
  {
    hide LogOk, OpReached, OpCarries, ApplyOps;
    AllUpToMonotone(OpsIn(log, r.merged) + PendingOps(r), clock, h);
    OwnUpToMonotone(ops, i, clock, h);
    PulledOpsUpTo(log, changes, h);
    OpsInUnion(log, r.merged, Names(changes));
    hide OpsIn;
  }

  lemma ListingLogged(w: World, changes: seq<Change>)
    requires Inv(w) && Listing(w.remote, changes)
    ensures LogOk(w.log) && forall c :: c in changes ==> NameOf(c) in w.log && w.log[NameOf(c)] == c
  {
    hide ReplicaOk, OpsOk, LogOk, CompactionOk, SnapshotOk, AllOps;
  }

  lemma PullDominated(w: World, i: string, changes: seq<Change>, nows: seq<nat>)
    requires Inv(w) && Dominated(w) && i in w.replicas && PullsAll(w.remote, w.replicas[i], changes, nows)
    requires PullsAhead(w, i, changes, nows)
    ensures Dominated(WithReplica(w, i, Pulled(w.replicas[i], changes, nows)))
  {
    var r, r' := w.replicas[i], Pulled(w.replicas[i], changes, nows);
    SameReplicaOps(w, i, r');
    hide Inv, AllOps, NoStampsOf, LogOk, AllUpTo, OwnUpTo, ApplyOps, ReceiveAll, OpsIn;
    ListingLogged(w, changes);
    assert Dominates(i, r, w.log, AllOps(w));
    ReceiveAllPasses(r.clock, changes, nows);
    Trichotomy(r'.clock, r'.clock);
    assert Refreshed(r') == r'.clock;
    hide Refreshed, Less;
    if r.adopting.None? {
      FoldCovers(i, r, changes, w.log, AllOps(w), if Reaches(r'.clock, Refreshed(r)) then Refreshed(r) else r'.clock, r'.clock);
    }
    assert Dominates(i, r', w.log, AllOps(w));
    SwapDominated(w, WithReplica(w, i, r'), i);
  }

  lemma InterruptedPullDominated(w: World, i: string, changes: seq<Change>)
    requires Inv(w) && Dominated(w) && i in w.replicas && Listing(w.remote, changes) && Fold(w.replicas[i], changes).Ok?
    requires forall c :: c in changes ==> Reaches(Refreshed(w.replicas[i]), c.hlc)
    ensures Dominated(WithReplica(w, i, Fold(w.replicas[i], changes).value))
  {
    var r, r' := w.replicas[i], Fold(w.replicas[i], changes).value;
    SameReplicaOps(w, i, r');
    hide Inv, AllOps, NoStampsOf, LogOk, AllUpTo, OwnUpTo, ApplyOps;
    ListingLogged(w, changes);
    assert Dominates(i, r, w.log, AllOps(w));
    assert Refreshed(r') == Refreshed(r);
    hide Refreshed, Less;
    if r.adopting.None? { FoldCovers(i, r, changes, w.log, AllOps(w), Refreshed(r), Refreshed(r)); }
    hide OpsIn;
    assert Dominates(i, r', w.log, AllOps(w));
    SwapDominated(w, WithReplica(w, i, r'), i);
  }

  lemma SameReplicasDominated(w: World, w': World)
    requires Dominated(w) && w'.replicas == w.replicas && w'.log == w.log
    ensures Dominated(w')
  {
    SameOps(w, w');
    hide AllOps, Dominates, NoStampsOf;
  }

  lemma WritingKeepsDominated(w: World, s: Step)
    requires Inv(w) && Dominated(w) && Enabled(w, s) && Writing(s)
    ensures Dominated(Do(w, s))
  {
    hide Inv, Dominated, Put, Erase, NewestStamp, PutRow, NextStamp;
    match s
    case Write(i, key, fields, now, h, id) => WriteDominated(w, i, key, fields, now, h, id);
    case Remove(i, key, now, id) => RemoveDominated(w, i, key, now, id);
    case CloseBatch(i) => CloseBatchDominated(w, i);
    case BeginFlush(i) => QuietDominated(w, i, ObserveOutbox(w.replicas[i]));
    case WriteFile(i, k) => SameReplicasDominated(w, FileWritten(w, w.replicas[i].outbox[k]));
    case EndFlush(i, n) => QuietDominated(w, i, Acknowledge(w.replicas[i], n));
    case Expire(i) => QuietDominated(w, i, Quarantined(w.replicas[i]));
  }

  lemma MailboxKeepsDominated(w: World, s: Step)
    requires Inv(w) && Dominated(w) && Enabled(w, s) && Disciplined(w, s) && OnMailbox(s)
    ensures Dominated(Do(w, s))
  {
    hide Inv, Dominated, Fold, AllWithinReach, Careful, PullDone, Listing, Current;
    if s.Capture? {
      PullDominated(w, s.node, s.changes, s.nows);
      SameReplicasDominated(WithReplica(w, s.node, Pulled(w.replicas[s.node], s.changes, s.nows)), Do(w, s));
    } else if s.SaveEpoch? {
      var i := w.compaction.value.compactor;
      QuietDominated(w, i, w.replicas[i].(epoch := w.compaction.value.snapshot.epoch));
    } else {
      MailboxLeavesDevices(w, s);
      hide Do;
      SameReplicasDominated(w, Do(w, s));
    }
  }

  lemma ReadingKeepsDominated(w: World, s: Step)
    requires Inv(w) && Dominated(w) && Enabled(w, s) && Disciplined(w, s) && !Writing(s) && !OnMailbox(s)
    ensures Dominated(Do(w, s))
  {
    hide Inv, Dominated, Fold, AllWithinReach, CoversDevice, RestartClock, Listing;
    match s
    case Join(i, now) => JoinDominated(w, i, now);
    case Pull(i, changes, nows) => PullDominated(w, i, changes, nows);
    case InterruptedPull(i, changes) => InterruptedPullDominated(w, i, changes);
    case Restore(i, e) => RestoreDominated(w, i, w.remote.snapshots[e]);
    case EmptyStore(i) => EmptyStoreDominated(w, i);
    case Crash(i, now) =>
      RestartKeepsClock(w.replicas[i], now);
      ReclockedDominated(w, Restarting(w, i, now), i, RestartClock(w.replicas[i], now));
    case AdoptClock(i) => ReclockedDominated(w, WithReplica(w, i, ClockAdopted(w.replicas[i])), i, Refreshed(ClockAdopted(w.replicas[i])));
    case GiveUpRestore(i) => ReclockedDominated(w, WithReplica(w, i, w.replicas[i].(adopting := None)), i, Refreshed(w.replicas[i]));
    case Pause(i) => QuietDominated(w, i, w.replicas[i].(paused := true));
    case Unpause(i) => QuietDominated(w, i, w.replicas[i].(paused := false));
  }

  lemma RestartKeepsClock(r: Replica, now: nat)
    ensures Refreshed(Restarted(r, now)) == RestartClock(r, now)
  {
    Trichotomy(RestartClock(r, now), RestartClock(r, now));
  }

  lemma StepKeepsDominated(w: World, s: Step)
    requires Inv(w) && Dominated(w) && Disciplined(w, s)
    ensures Dominated(Do(w, s))
  {
    hide Inv, Dominated, Disciplined, Enabled;
    if Enabled(w, s) {
      if Writing(s) {
        WritingKeepsDominated(w, s);
      } else if OnMailbox(s) {
        MailboxKeepsDominated(w, s);
      } else {
        ReadingKeepsDominated(w, s);
      }
    } else {
      DisabledStep(w, s);
    }
  }

  // ---- Disciplined runs are careful ------------------------------------------------------

  lemma WriteIsCareful(w: World, i: string, key: Key, fields: map<Field, Value>, now: nat, h: Hlc, id: string)
    requires Inv(w) && Dominated(w)
    ensures Careful(w, Write(i, key, fields, now, h, id))
  {
    hide Inv, AllOps, Covers, NextStamp, Supersedes, Unused, NewestStamp, PutRow;
    if Enabled(w, Write(i, key, fields, now, h, id)) {
      assert Dominates(i, w.replicas[i], w.log, AllOps(w));
      CoveredIsFresh(w, i, key, now);
      FreshSupersedes(w, i, key, fields, now);
    }
  }

  lemma RemoveIsCareful(w: World, i: string, key: Key, now: nat, id: string)
    requires Inv(w) && Dominated(w)
    ensures Careful(w, Remove(i, key, now, id))
  {
    hide Inv, AllOps, Covers, NextStamp, Unused;
    if Enabled(w, Remove(i, key, now, id)) {
      assert Dominates(i, w.replicas[i], w.log, AllOps(w));
      CoveredIsFresh(w, i, key, now);
      FreshSupersedes(w, i, key, map[], now);
    }
  }

  /** Every put and delete a dominated device can perform supersedes its row under an unused stamp. */
  lemma DisciplinedIsCareful(w: World, s: Step)
    requires Inv(w) && Dominated(w) && Disciplined(w, s)
    ensures Careful(w, s)
  {
    hide Inv, Dominated, Supersedes, Unused, NewestStamp, NextStamp, PutRow, CoversDevice, AllWithinReach, Fold;
    match s
    case Write(i, key, fields, now, h, id) => WriteIsCareful(w, i, key, fields, now, h, id);
    case Remove(i, key, now, id) => RemoveIsCareful(w, i, key, now, id);
    case _ =>
  }

  lemma StartDominated()
    ensures Dominated(Start())
  {
    assert AllOps(Start()) == {};
  }

  /** In every disciplined run, restores and crashes included, every clock covers its device, and
      every put and delete meets the conditions of a careful run by itself. */
  lemma {:induction false} RunKeepsDominated(run: seq<Step>)
    requires DisciplinedRun(run)
    ensures CarefulRun(run) && Dominated(Exec(Start(), run))
  {
    if run == [] {
      StartDominated();
    } else {
      hide Inv, Dominated, Disciplined, Careful, Do, Start, Exec, CarefulRun;
      var front, s := run[..|run| - 1], run[|run| - 1];
      assert DisciplinedLast(run);
      RunKeepsDominated(front);
      RunKeepsInv(front);
      StepKeepsDominated(Exec(Start(), front), s);
      DisciplinedIsCareful(Exec(Start(), front), s);
      CarefulSnoc(front, s);
      ExecSnoc(Start(), front, s);
      assert run == front + [s];
    }
  }

  /** Convergence without a condition on writes: in every disciplined run, caught-up devices agree,
      and no pull throws. */
  lemma DisciplinedDevicesConverge(run: seq<Step>, i: string, j: string)
    requires DisciplinedRun(run) && CaughtUp(Exec(Start(), run), i) && CaughtUp(Exec(Start(), run), j)
    ensures var w := Exec(Start(), run); Agree(PublishedOps(w), w.replicas[i].rows, w.replicas[j].rows)
    ensures forall changes :: Listing(Exec(Start(), run).remote, changes) ==> Fold(Exec(Start(), run).replicas[i], changes).Ok?
  {
    hide Exec, Disciplined, Careful, Dominated, Agree, Fold, Listing;
    RunKeepsDominated(run);
    CaughtUpDevicesAgree(run, i, j);
    forall changes | Listing(Exec(Start(), run).remote, changes) ensures Fold(Exec(Start(), run).replicas[i], changes).Ok? {
      PullNeverThrows(run, i, changes);
    }
  }

  /** The write path refines merging: in every disciplined run, the next write of a device carries a
      stamp above everything in its row, so the row it keeps is exactly the row that merging its
      published op gives, for `put` and for `delete` alike. */
  lemma LocalWritesRefineMerge(run: seq<Step>, i: string, key: Key, fields: map<Field, Value>, now: nat)
    requires DisciplinedRun(run) && i in Exec(Start(), run).replicas && fields != map[]
    requires Exec(Start(), run).replicas[i].adopting.None?
    ensures FreshWrite(Exec(Start(), run), i, key, now)
    ensures var r := Exec(Start(), run).replicas[i]; var p := NextStamp(r, now);
            var next := PutRow(Get(r.rows, key), fields, p);
            && next.payload != map[] && ApplyToRow(Get(r.rows, key), Upsert(key, next.payload)) == Ok(next)
            && (key in r.rows && !r.rows[key].deleted ==>
                  ApplyToRow(Get(r.rows, key), Delete(key, p)) == Ok(Row(true, Some(p), map[])))
  {
    hide Inv, Exec, Settled, Unused, NextStamp, AllOps, Covers, NoStampsOf, Disciplined, PutRow, ApplyToRow, Careful;
    var w := Exec(Start(), run);
    var r, p := w.replicas[i], NextStamp(w.replicas[i], now);
    RunKeepsDominated(run);
    RunKeepsInv(run);
    assert Dominates(i, r, w.log, AllOps(w));
    CoveredIsFresh(w, i, key, now);
    FreshSupersedes(w, i, key, fields, now);
    RowSettled(w, i, key);
    PutRowMerges(Applied(w, r), key, Get(r.rows, key), fields, p);
    if key in r.rows && !r.rows[key].deleted {
      SettledIsPublishable(Applied(w, r), key, r.rows[key]);
      DeleteRefinesMergeIff(key, r.rows[key], p);
    }
  }

  // ---- Runs in which no store is replaced -----------------------------------------------------

  /** No store is replaced and every pull completes; what arrives is within the drift window. */
  ghost predicate Plain(w: World, s: Step) {
    match s
    case Pull(i, changes, nows) => Enabled(w, s) ==> AllWithinReach(w.replicas[i].clock, changes, nows)
    case Capture(i, changes, nows) => Enabled(w, s) ==> AllWithinReach(w.replicas[i].clock, changes, nows) && Careful(w, s)
    case Restore(_, _) => false
    case AdoptClock(_) => false
    case GiveUpRestore(_) => false
    case EmptyStore(_) => false
    case InterruptedPull(_, _) => false
    case Crash(_, _) => true
    case _ => Disciplined(w, s)
  }

  ghost predicate PlainRun(run: seq<Step>)
    decreases |run|, 1
  {
    run == [] || PlainLast(run)
  }

  ghost predicate PlainLast(run: seq<Step>)
    requires run != []
    decreases |run|, 0
  {
    var front := run[..|run| - 1];
    PlainRun(front) && Plain(Exec(Start(), front), run[|run| - 1])
  }

  /** The clock is saved whenever it matters. */
  ghost predicate Saved(i: string, r: Replica, ops: set<Op>) {
    && r.adopting.None?
    && (r.stored.Some? ==> r.stored.value == r.clock)
    && (r.stored.None? ==> r.merged == {} && r.pending.None? && NoStampsOf(ops, i))
  }

  ghost predicate AllSaved(w: World) { forall i :: i in w.replicas ==> Saved(i, w.replicas[i], AllOps(w)) }

  /** A restart finds a clock that covers the device. */
  lemma RestartIsCovered(w: World, i: string, now: nat)
    requires Inv(w) && Dominated(w) && AllSaved(w) && i in w.replicas
    ensures CoversDevice(w, i, RestartClock(w.replicas[i], now))
  {
    NodeKept(w, i);
    hide Inv, AllOps;
    var r := w.replicas[i];
    assert Saved(i, r, AllOps(w)) && Dominates(i, r, w.log, AllOps(w));
    if r.stored.None? {
      assert OpsIn(w.log, {}) + {} == {};
    }
  }

  lemma PlainIsDisciplined(w: World, s: Step)
    requires Inv(w) && Dominated(w) && AllSaved(w) && Plain(w, s)
    ensures Disciplined(w, s)
  {
    hide Inv, Dominated, AllSaved, CoversDevice, RestartClock, Careful, Fold, Listing, Refreshed, ReceiveAll, AllWithinReach;
    if Enabled(w, s) {
      match s
      case Crash(i, now) => RestartIsCovered(w, i, now);
      case Pull(i, changes, nows) => SavedPullsAhead(w, i, changes, nows);
      case Capture(i, changes, nows) => SavedPullsAhead(w, i, changes, nows);
      case _ =>
    }
  }

  /** A saved clock is the one the next write starts from. */
  lemma SavedIsRefreshed(w: World, i: string)
    requires AllSaved(w) && i in w.replicas
    ensures Refreshed(w.replicas[i]) == w.replicas[i].clock
  {
    hide AllOps, NoStampsOf;
    var r := w.replicas[i];
    assert Saved(i, r, AllOps(w));
    Trichotomy(r.clock, r.clock);
  }

  lemma SavedPullsAhead(w: World, i: string, changes: seq<Change>, nows: seq<nat>)
    requires AllSaved(w) && i in w.replicas && |nows| == |changes| && AllWithinReach(w.replicas[i].clock, changes, nows)
    ensures PullsAhead(w, i, changes, nows)
  {
    hide AllSaved, AllWithinReach, ReceiveAll, CoversDevice, Less;
    SavedIsRefreshed(w, i);
    ReceiveAllPasses(w.replicas[i].clock, changes, nows);
  }

  lemma CommitSaved(w: World, i: string, p: Hlc, key: Key, row: Row, c: Change, op: Op)
    requires AllSaved(w) && Dominated(w) && i in w.replicas && p.node == i && Ahead(p, Refreshed(w.replicas[i]))
    requires c.ops == [op] && c.hlc == p && CarriesNewOrKnown(op, p, AllOps(w))
    ensures AllSaved(WithReplica(w, i, CommitRow(w.replicas[i].(clock := p), key, row, c)))
  {
    var r := w.replicas[i];
    var r' := CommitRow(r.(clock := p), key, row, c);
    CommitPending(r, p, key, row, c, op);
    CommitOps(w, i, r', op);
    hide AllOps, NoStampsOf, CarriesNewOrKnown, AllUpTo, OwnUpTo, Less, PendingOps, OpsIn;
    assert Saved(i, r, AllOps(w)) && Dominates(i, r, w.log, AllOps(w));
    CommitStamp(r.pending, c, Refreshed(r));
    assert r'.stored == Some(p) && r'.clock == p;
    var w' := WithReplica(w, i, r');
    forall j | j in w'.replicas ensures Saved(j, w'.replicas[j], AllOps(w')) {
      if j != i {
        assert Saved(j, w.replicas[j], AllOps(w));
        if w.replicas[j].stored.None? { NoNewStamps(AllOps(w), op, p, j); }
      }
    }
  }

  lemma WriteSaved(w: World, i: string, key: Key, fields: map<Field, Value>, now: nat, h: Hlc, id: string)
    requires Inv(w) && Dominated(w) && AllSaved(w) && i in w.replicas && w.replicas[i].adopting.None? && fields != map[]
    requires NewestStamp(PutRow(Get(w.replicas[i].rows, key), fields, NextStamp(w.replicas[i], now)), h)
    ensures AllSaved(WithReplica(w, i, Put(w.replicas[i], key, fields, now, h, id)))
  {
    hide Inv, AllOps, NewestStamp, Less, Tick, NoStampsOf, Covers, NextStamp, Saved;
    var r := w.replicas[i];
    var p, row := NextStamp(r, now), Get(r.rows, key);
    StampAdvances(w, i, now);
    assert Dominates(i, r, w.log, AllOps(w));
    CoveredIsFresh(w, i, key, now);
    hide Dominates, Unused;
    NewestIsStamp(row, fields, p, h);
    var next := PutRow(row, fields, p);
    RowSettled(w, i, key);
    PutCarriesKnown(Applied(w, r), key, row, fields, p);
    AppliedWithin(w, i);
    KnownGrows(Upsert(key, next.payload), p, Applied(w, r), AllOps(w));
    hide Dominated, CarriesNewOrKnown, PutRow, AllSaved;
    CommitSaved(w, i, p, key, next, Change(id, p, [Upsert(key, next.payload)]), Upsert(key, next.payload));
  }

  lemma RemoveSaved(w: World, i: string, key: Key, now: nat, id: string)
    requires Inv(w) && Dominated(w) && AllSaved(w) && i in w.replicas
    ensures AllSaved(WithReplica(w, i, Erase(w.replicas[i], key, now, id)))
  {
    hide Inv, Dominated, AllOps, Less, NextStamp, AllSaved;
    var p := NextStamp(w.replicas[i], now);
    StampAdvances(w, i, now);
    CommitSaved(w, i, p, key, Row(true, Some(p), map[]), Change(id, p, [Delete(key, p)]), Delete(key, p));
  }

  lemma CloseBatchSaved(w: World, i: string)
    requires AllSaved(w) && i in w.replicas && w.replicas[i].pending.Some? && NameOf(w.replicas[i].pending.value) !in w.log
    ensures AllSaved(BatchClosed(w, i))
  {
    PromoteAllOps(w, BatchClosed(w, i), i);
    hide AllOps, NoStampsOf;
    forall j | j in w.replicas ensures Saved(j, BatchClosed(w, i).replicas[j], AllOps(w)) {
      assert Saved(j, w.replicas[j], AllOps(w)) && Saved(i, w.replicas[i], AllOps(w));
    }
  }

  lemma JoinSaved(w: World, i: string, now: nat)
    requires AllSaved(w) && Dominated(w) && i !in w.replicas
    ensures AllSaved(WithReplica(w, i, Joined(i, now)))
  {
    JoinOps(w, i, Joined(i, now));
    hide AllOps, Dominates, NoStampsOf;
    assert forall j :: j in w.replicas ==> Saved(j, w.replicas[j], AllOps(w));
  }

  /** One device is replaced, and its clock is kept or saved. */
  lemma SwapSaved(w: World, w': World, i: string)
    requires AllSaved(w) && i in w.replicas && i in w'.replicas && w'.replicas == w.replicas[i := w'.replicas[i]]
    requires w'.log == w.log && w'.replicas[i].pending == w.replicas[i].pending && w'.replicas[i].adopting.None?
    requires var r, r' := w.replicas[i], w'.replicas[i];
             r'.stored == Some(r'.clock) || (r'.stored == r.stored && r'.merged == r.merged && (r.stored.Some? ==> r'.clock == r.clock))
    ensures AllSaved(w')
  {
    SameReplicaOps(w, i, w'.replicas[i]);
    SameOps(WithReplica(w, i, w'.replicas[i]), w');
    hide AllOps, NoStampsOf;
    forall j | j in w'.replicas ensures Saved(j, w'.replicas[j], AllOps(w')) { assert Saved(j, w.replicas[j], AllOps(w)); }
  }

  lemma SameReplicasSaved(w: World, w': World)
    requires AllSaved(w) && w'.replicas == w.replicas && w'.log == w.log
    ensures AllSaved(w')
  {
    SameOps(w, w');
    hide AllOps, Saved;
  }

  lemma NotAdopting(w: World, i: string)
    requires AllSaved(w) && i in w.replicas
    ensures w.replicas[i].adopting.None? && (w.replicas[i].stored.Some? ==> w.replicas[i].stored.value == w.replicas[i].clock)
  {
    hide AllOps, NoStampsOf;
    assert Saved(i, w.replicas[i], AllOps(w));
  }

  lemma WritingKeepsSaved(w: World, s: Step)
    requires Inv(w) && Dominated(w) && AllSaved(w) && Enabled(w, s) && Writing(s)
    ensures AllSaved(Do(w, s))
  {
    hide Inv, Dominated, AllSaved, Put, Erase, NewestStamp, PutRow, NextStamp;
    if s.WriteFile? {
      SameReplicasSaved(w, FileWritten(w, w.replicas[s.node].outbox[s.index]));
    } else {
      NotAdopting(w, s.node);
      match s
      case Write(i, key, fields, now, h, id) => WriteSaved(w, i, key, fields, now, h, id);
      case Remove(i, key, now, id) => RemoveSaved(w, i, key, now, id);
      case CloseBatch(i) => CloseBatchSaved(w, i);
      case BeginFlush(i) => SwapSaved(w, WithReplica(w, i, ObserveOutbox(w.replicas[i])), i);
      case EndFlush(i, n) => SwapSaved(w, WithReplica(w, i, Acknowledge(w.replicas[i], n)), i);
      case Expire(i) => SwapSaved(w, WithReplica(w, i, Quarantined(w.replicas[i])), i);
      case _ =>
    }
  }

  lemma PullSaved(w: World, i: string, changes: seq<Change>, nows: seq<nat>)
    requires AllSaved(w) && i in w.replicas && PullsAll(w.remote, w.replicas[i], changes, nows)
    ensures AllSaved(WithReplica(w, i, Pulled(w.replicas[i], changes, nows)))
  {
    NotAdopting(w, i);
    hide AllSaved, ReceiveAll, ApplyOps;
    SwapSaved(w, WithReplica(w, i, Pulled(w.replicas[i], changes, nows)), i);
  }

  lemma OtherKeepsSaved(w: World, s: Step)
    requires Inv(w) && Dominated(w) && AllSaved(w) && Enabled(w, s) && Plain(w, s) && !Writing(s)
    ensures AllSaved(Do(w, s))
  {
    hide Inv, Dominated, AllSaved, Fold, Disciplined;
    match s
    case Join(i, now) => JoinSaved(w, i, now);
    case Pull(i, changes, nows) => PullSaved(w, i, changes, nows);
    case Crash(i, now) =>
      NotAdopting(w, i);
      NodeKept(w, i);
      SwapSaved(w, Restarting(w, i, now), i);
    case Pause(i) =>
      NotAdopting(w, i);
      SwapSaved(w, WithReplica(w, i, w.replicas[i].(paused := true)), i);
    case Unpause(i) =>
      NotAdopting(w, i);
      SwapSaved(w, WithReplica(w, i, w.replicas[i].(paused := false)), i);
    case Capture(i, changes, nows) =>
      PullSaved(w, i, changes, nows);
      SameReplicasSaved(WithReplica(w, i, Pulled(w.replicas[i], changes, nows)), Do(w, s));
    case SaveEpoch =>
      var i := w.compaction.value.compactor;
      NotAdopting(w, i);
      SwapSaved(w, WithReplica(w, i, w.replicas[i].(epoch := w.compaction.value.snapshot.epoch)), i);
    case _ => MailboxKeepsSaved(w, s);
  }

  lemma MailboxKeepsSaved(w: World, s: Step)
    requires AllSaved(w) && OnMailbox(s) && !s.Capture? && !s.SaveEpoch?
    ensures AllSaved(Do(w, s))
  {
    hide AllSaved, Do;
    MailboxLeavesDevices(w, s);
    SameReplicasSaved(w, Do(w, s));
  }

  /** Where no store is replaced and every pull completes, nothing needs to be asked of crashes. */
  lemma {:induction false} PlainRunsAreDisciplined(run: seq<Step>)
    requires PlainRun(run)
    ensures DisciplinedRun(run) && AllSaved(Exec(Start(), run))
  {
    hide Inv, Dominated, Disciplined, Plain, AllSaved, Do, Careful, DisciplinedRun, CarefulRun;
    if run == [] {
      NothingSavedYet();
    } else {
      var front, s := run[..|run| - 1], run[|run| - 1];
      assert PlainLast(run);
      PlainRunsAreDisciplined(front);
      RunKeepsDominated(front);
      RunKeepsInv(front);
      var w := Exec(Start(), front);
      PlainIsDisciplined(w, s);
      PlainStepKeepsSaved(w, s);
      DisciplinedSnoc(front, s);
      assert run == front + [s];
    }
  }

  lemma NothingSavedYet()
    ensures DisciplinedRun([]) && AllSaved(Exec(Start(), []))
  {}

  lemma DisciplinedSnoc(run: seq<Step>, s: Step)
    requires DisciplinedRun(run) && Disciplined(Exec(Start(), run), s)
    ensures DisciplinedRun(run + [s])
  {
    hide Exec, Disciplined;
    assert (run + [s])[..|run|] == run;
    assert DisciplinedLast(run + [s]);
  }

  lemma PlainStepKeepsSaved(w: World, s: Step)
    requires Inv(w) && Dominated(w) && AllSaved(w) && Plain(w, s)
    ensures AllSaved(Do(w, s))
  {
    hide Inv, Dominated, AllSaved, Plain, Enabled;
    if !Enabled(w, s) {
      DisabledStep(w, s);
    } else if Writing(s) {
      WritingKeepsSaved(w, s);
    } else {
      OtherKeepsSaved(w, s);
    }
  }

  // ---- The clock of a snapshot ------------------------------------------------------------

  ghost predicate RowUpTo(row: Row, h: Hlc) { forall g :: StampOf(row, g) ==> Reaches(h, g) }

  ghost predicate RowsUpTo(rows: Rows, h: Hlc) { forall k :: k in rows ==> RowUpTo(rows[k], h) }

  lemma OpsUpToRow(history: set<Op>, k: Key, row: Row, h: Hlc)
    requires Settled(history, k, Some(row)) && AllUpTo(history, h)
    ensures RowUpTo(row, h)
  {
    hide Less;
    forall g | StampOf(row, g) ensures Reaches(h, g) {
      if row.deletedHlc == Some(g) {
        assert OpReached(Delete(k, g), h);
      } else {
        var f :| f in row.payload && row.payload[f].hlc == g;
        assert Stamped(history, k, f, row.payload[f]);
        var op :| op in history && op.Upsert? && op.key == k && f in op.columns && op.columns[f] == row.payload[f];
        assert OpReached(op, h);
      }
    }
  }

  lemma RowUpToOps(history: set<Op>, k: Key, row: Row, h: Hlc, op: Op)
    requires Settled(history, k, Some(row)) && RowUpTo(row, h) && op in history && op.key == k
    ensures OpReached(op, h)
  {
    hide Less, Ahead;
    var top := NewestOf(history, k, row);
    assert Reaches(h, top);
    match op
    case Delete(_, d) =>
      assert DeletedAt(history, k, d);
      ReachesMore(h, top, d);
    case Upsert(_, columns) =>
      forall f | f in columns ensures Reaches(h, columns[f].hlc) {
        assert Stamped(history, k, f, columns[f]);
        if !Overtaken(history, k, columns[f].hlc) && !row.deleted {
          assert StampOf(row, row.payload[f].hlc);
          ReachesMore(h, row.payload[f].hlc, columns[f].hlc);
        } else {
          ReachesMore(h, top, columns[f].hlc);
        }
      }
  }

  /** A stamp of the row above every delete of its history, and above every column some delete has
      overtaken; above every column if the row is a tombstone. */
  lemma NewestOf(history: set<Op>, k: Key, row: Row) returns (top: Hlc)
    requires Settled(history, k, Some(row))
    ensures StampOf(row, top) && forall d :: DeletedAt(history, k, d) ==> Leq(d, top)
    ensures forall f, c :: Stamped(history, k, f, c) && (row.deleted || Overtaken(history, k, c.hlc)) ==> Leq(c.hlc, top)
  {
    hide Less;
    TotalOrder();
    if row.deleted {
      top := row.deletedHlc.value;
    } else {
      var f :| f in row.payload && !Overtaken(history, k, row.payload[f].hlc);
      top := row.payload[f].hlc;
      forall d | DeletedAt(history, k, d) ensures Less(d, top) { assert !Leq(top, d); }
    }
  }

  /** Settled rows are bounded by a clock exactly when every op behind them is. */
  lemma RowsUpToIff(history: set<Op>, rows: Rows, h: Hlc)
    requires AllSettled(history, rows)
    ensures RowsUpTo(rows, h) <==> AllUpTo(history, h)
  {
    if AllUpTo(history, h) {
      forall k | k in rows ensures RowUpTo(rows[k], h) {
        assert Settled(history, k, Get(rows, k));
        OpsUpToRow(history, k, rows[k], h);
      }
    }
    if RowsUpTo(rows, h) {
      forall op | op in history ensures OpReached(op, h) {
        assert Settled(history, op.key, Get(rows, op.key)) && Touched(history, op.key);
        RowUpToOps(history, op.key, rows[op.key], h, op);
      }
    }
  }

  /** A clock covers a device with no open batch if and only if it is at or above every stamp in its
      rows and every stamp the device ever issued: what a restart or a restore can check. */
  lemma CoversIff(run: seq<Step>, i: string, h: Hlc)
    requires CarefulRun(run) && i in Exec(Start(), run).replicas && Exec(Start(), run).replicas[i].pending.None?
    ensures var w := Exec(Start(), run);
            CoversDevice(w, i, h) <==> RowsUpTo(w.replicas[i].rows, h) && OwnUpTo(AllOps(w), i, h)
  {
    hide Exec, Careful, RowsUpTo, OwnUpTo, AllOps, Inv, CoversDevice;
    RunKeepsInv(run);
    CoversRowsIff(Exec(Start(), run), i, h);
  }

  lemma CoversRowsIff(w: World, i: string, h: Hlc)
    requires Inv(w) && i in w.replicas && w.replicas[i].pending.None?
    ensures CoversDevice(w, i, h) <==> RowsUpTo(w.replicas[i].rows, h) && OwnUpTo(AllOps(w), i, h)
  {
    hide RowsUpTo, AllUpTo, OwnUpTo, AllOps, AllSettled;
    ReplicaInOrder(w, i);
    hide Inv;
    RowsUpToIff(Applied(w, w.replicas[i]), w.replicas[i].rows, h);
  }

  lemma FoldedRowsSettled(w: World, i: string, changes: seq<Change>)
    requires Inv(w) && i in w.replicas && Listing(w.remote, changes)
    ensures Fold(w.replicas[i], changes).Ok?
    ensures AllSettled(Applied(w, w.replicas[i]) + OpsIn(w.log, Names(changes)), Fold(w.replicas[i], changes).value.rows)
  {
    hide Inv, AllSettled, ApplyOps;
    FoldOk(w, i, changes);
    var r, after := w.replicas[i], Fold(w.replicas[i], changes).value;
    OpsInUnion(w.log, r.merged, Names(changes));
    assert RowsOk(after, w.log);
    assert OpsIn(w.log, after.merged) + PendingOps(after) == Applied(w, r) + OpsIn(w.log, Names(changes));
  }

  lemma FoldCoveredIff(w: World, i: string, changes: seq<Change>, h: Hlc)
    requires Inv(w) && i in w.replicas && Listing(w.remote, changes)
    ensures Fold(w.replicas[i], changes).Ok?
    ensures var r := w.replicas[i];
            RowsUpTo(Fold(r, changes).value.rows, h) <==> RowsUpTo(r.rows, h) && AllUpTo(OpsIn(w.log, Names(changes)), h)
  {
    hide AllSettled, RowsUpTo, OpReached, Listing, Fold, OpsIn;
    ReplicaInOrder(w, i);
    hide Inv;
    FoldedRowsSettled(w, i, changes);
    var r := w.replicas[i];
    RowsUpToIff(Applied(w, r) + OpsIn(w.log, Names(changes)), Fold(r, changes).value.rows, h);
    RowsUpToIff(Applied(w, r), r.rows, h);
  }

  // ---- An emptied store ------------------------------------------------------------------------

  /** Emptying a store clears the saved clock with it: the next write starts from the running clock,
      which covers the emptied device if and only if it reaches every stamp the device ever issued. A
      process that restarts right then starts from the wall clock. */
  lemma EmptiedStoreCoveredIff(run: seq<Step>, i: string, now: nat)
    requires CarefulRun(run) && i in Exec(Start(), run).replicas && Exec(Start(), run).replicas[i].pending.None?
    ensures var w := Exec(Start(), run); var r := Emptied(w.replicas[i]);
      && (CoversDevice(WithReplica(w, i, r), i, Refreshed(r)) <==> OwnUpTo(AllOps(w), i, w.replicas[i].clock))
      && RestartClock(r, now) == Create(now, i)
  {
    hide Exec, Careful, Inv, OwnUpTo, AllOps;
    RunKeepsInv(run);
    var w := Exec(Start(), run);
    var r := Emptied(w.replicas[i]);
    NodeKept(w, i);
    SameReplicaOps(w, i, r);
    assert OpsIn(w.log, {}) + {} == {} && AllUpTo({}, r.clock);
  }

  // ---- The end of a restore ------------------------------------------------------------------

  /** What a restore and its pull leave, and the clock that the next write then starts from. */
  lemma RestoreEnds(r: Replica, s: Snapshot, changes: seq<Change>, nows: seq<nat>)
    requires |nows| == |changes| && Fold(Restored(r, s), changes).Ok? && AllWithinReach(r.clock, changes, nows)
    ensures var pulled := Pulled(Restored(r, s), changes, nows);
      && pulled.adopting == Some(s.clock.(node := r.clock.node)) && pulled.stored.Some? && pulled.pending.None?
      && pulled.rows == Fold(Restored(r, s), changes).value.rows
      && var h := Refreshed(ClockAdopted(pulled));
         && Reaches(h, r.clock) && Reaches(h, s.clock) && forall c :: c in changes ==> Reaches(h, c.hlc)
  {
    hide ApplyOps, ReceiveAll, AllWithinReach;
    ReceiveAllPasses(r.clock, changes, nows);
  }

  /** The device can restore the snapshot without losing a queued change, and then pull. */
  ghost predicate CanRestore(w: World, i: string, e: nat, changes: seq<Change>, nows: seq<nat>) {
    && Idle(w, i) && e in w.remote.snapshots && e <= Current(w.remote).epoch && QueueSafe(w, w.replicas[i])
    && PullsAll(w.remote, Restored(w.replicas[i], w.remote.snapshots[e]), changes, nows)
  }

  /** The device after the restore and its pull. */
  function RestoredAndPulled(r: Replica, s: Snapshot, changes: seq<Change>, nows: seq<nat>): Replica
    requires |nows| == |changes| && Fold(Restored(r, s), changes).Ok?
  {
    Pulled(Restored(r, s), changes, nows)
  }

  lemma RestoreStep(w: World, i: string, e: nat)
    requires Inv(w) && Idle(w, i) && e in w.remote.snapshots && e <= Current(w.remote).epoch && QueueSafe(w, w.replicas[i])
    ensures var w1 := WithReplica(w, i, Restored(w.replicas[i], w.remote.snapshots[e]));
            Do(w, Restore(i, e)) == w1 && Inv(w1) && AllOps(w1) == AllOps(w)
  {
    hide Inv, AllOps;
    assert Enabled(w, Restore(i, e)) && Careful(w, Restore(i, e));
    StepKeepsInv(w, Restore(i, e));
    hide Careful;
    SameReplicaOps(w, i, Restored(w.replicas[i], w.remote.snapshots[e]));
  }

  lemma PullStep(w: World, i: string, changes: seq<Change>, nows: seq<nat>)
    requires Inv(w) && Idle(w, i) && PullsAll(w.remote, w.replicas[i], changes, nows)
    ensures var w1 := WithReplica(w, i, Pulled(w.replicas[i], changes, nows));
            Do(w, Pull(i, changes, nows)) == w1 && Inv(w1) && AllOps(w1) == AllOps(w) && Idle(w1, i)
  {
    hide Inv, AllOps, Listing, Fold;
    assert Enabled(w, Pull(i, changes, nows)) && Careful(w, Pull(i, changes, nows));
    StepKeepsInv(w, Pull(i, changes, nows));
    hide Careful;
    PullKeepsQueue(w.replicas[i], changes, nows);
    SameReplicaOps(w, i, Pulled(w.replicas[i], changes, nows));
  }

  lemma PullKeepsQueue(r: Replica, changes: seq<Change>, nows: seq<nat>)
    requires |nows| == |changes| && Fold(r, changes).Ok?
    ensures Pulled(r, changes, nows).pending == r.pending
  {}

  lemma AdoptMeans(w: World, i: string)
    requires Idle(w, i) && w.replicas[i].adopting.Some? && w.replicas[i].stored.Some?
    ensures Enabled(w, AdoptClock(i))
    ensures Disciplined(w, AdoptClock(i)) <==> CoversDevice(w, i, Refreshed(ClockAdopted(w.replicas[i])))
  {}

  lemma RestoredIsCovered(w: World, w1: World, w2: World, i: string, s: Snapshot, changes: seq<Change>, nows: seq<nat>, h: Hlc)
    requires Inv(w1) && Inv(w2) && AllOps(w2) == AllOps(w) && Listing(w1.remote, changes) && |nows| == |changes|
    requires i in w.replicas && w1 == WithReplica(w, i, Restored(w.replicas[i], s)) && Fold(w1.replicas[i], changes).Ok?
    requires w2 == WithReplica(w1, i, Pulled(w1.replicas[i], changes, nows))
    requires OwnUpTo(AllOps(w), i, w.replicas[i].clock) && AllWithinReach(w.replicas[i].clock, changes, nows)
    requires h == Refreshed(ClockAdopted(RestoredAndPulled(w.replicas[i], s, changes, nows)))
    ensures CoversDevice(w2, i, h) <==> RowsUpTo(s.rows, h)
    ensures RowsUpTo(s.rows, s.clock) ==> RowsUpTo(s.rows, h)
  {
    var r := w.replicas[i];
    RestoreEnds(r, s, changes, nows);
    hide Inv, RowsUpTo, AllUpTo, OwnUpTo, AllOps, AllWithinReach, Fold, Pulled, Refreshed, Ahead, Listing, CoversDevice;
    FoldCoveredIff(w1, i, changes, h);
    ListingLogged(w1, changes);
    PulledOpsUpTo(w1.log, changes, h);
    OwnUpToMonotone(AllOps(w), i, r.clock, h);
    CoversRowsIff(w2, i, h);
    if RowsUpTo(s.rows, s.clock) { RowsUpToMonotone(s.rows, s.clock, h); }
  }

  /** A restore with its own pull: adopting the snapshot's clock is disciplined if and only if the
      clock that the next write then starts from, the later of the snapshot's clock and the one the
      pull saved, reaches the rows of the snapshot. Whatever the pull brought is covered anyway, and
      a snapshot whose clock reaches its own rows always qualifies. */
  lemma RestoreEndsCoveredIff(run: seq<Step>, i: string, e: nat, changes: seq<Change>, nows: seq<nat>)
    requires CarefulRun(run)
    requires var w := Exec(Start(), run);
      && CanRestore(w, i, e, changes, nows)
      && OwnUpTo(AllOps(w), i, w.replicas[i].clock) && AllWithinReach(w.replicas[i].clock, changes, nows)
    ensures var w := Exec(Start(), run); var s := w.remote.snapshots[e];
      var r := RestoredAndPulled(w.replicas[i], s, changes, nows); var w2 := WithReplica(w, i, r);
      && Do(Do(w, Restore(i, e)), Pull(i, changes, nows)) == w2 && Enabled(w2, AdoptClock(i)) && r.adopting.Some?
      && (Disciplined(w2, AdoptClock(i)) <==> RowsUpTo(s.rows, Refreshed(ClockAdopted(r))))
      && (RowsUpTo(s.rows, s.clock) ==> Disciplined(w2, AdoptClock(i)))
  {
    hide Exec, Inv, Careful, AllOps, Do, Enabled, Disciplined, RowsUpTo, OwnUpTo, AllWithinReach, Refreshed, CoversDevice;
    RunKeepsInv(run);
    var w := Exec(Start(), run);
    var s, r := w.remote.snapshots[e], w.replicas[i];
    RestoreStep(w, i, e);
    var w1 := WithReplica(w, i, Restored(r, s));
    PullStep(w1, i, changes, nows);
    hide QueueSafe, Fold, Listing, Pulled;
    RestoreEnds(r, s, changes, nows);
    var r2 := RestoredAndPulled(r, s, changes, nows);
    var w2 := WithReplica(w1, i, r2);
    assert w2 == WithReplica(w, i, r2);
    RestoredIsCovered(w, w1, w2, i, s, changes, nows, Refreshed(ClockAdopted(r2)));
    AdoptMeans(w2, i);
  }

  lemma RowsUpToMonotone(rows: Rows, h: Hlc, h': Hlc)
    requires RowsUpTo(rows, h) && Reaches(h', h)
    ensures RowsUpTo(rows, h')
  {
    forall k | k in rows ensures RowUpTo(rows[k], h') { assert RowUpTo(rows[k], h); }
  }

  lemma CapturedParts(w: World, i: string, changes: seq<Change>, nows: seq<nat>)
    requires Enabled(w, Capture(i, changes, nows))
    ensures i in w.replicas && Listing(w.remote, changes) && Fold(w.replicas[i], changes).Ok?
    ensures var s := CapturedBy(w, i, changes, nows);
            s.clock == w.replicas[i].clock && s.rows == Fold(w.replicas[i], changes).value.rows
  {
    hide Listing, Fold;
  }

  /** A compaction captures its clock before its own pull. The captured clock bounds the captured
      rows if and only if it bounds the rows the device had and the pull brings nothing newer. */
  lemma SnapshotClockCoversIff(run: seq<Step>, i: string, changes: seq<Change>, nows: seq<nat>)
    requires CarefulRun(run) && Enabled(Exec(Start(), run), Capture(i, changes, nows))
    ensures var w := Exec(Start(), run); var s := CapturedBy(w, i, changes, nows);
            RowsUpTo(s.rows, s.clock) <==>
              RowsUpTo(w.replicas[i].rows, s.clock) && AllUpTo(OpsIn(w.log, Names(changes)), s.clock)
  {
    hide *;
    var w := Exec(Start(), run);
    RunKeepsInv(run);
    CapturedParts(w, i, changes, nows);
    FoldCoveredIff(w, i, changes, w.replicas[i].clock);
  }
}
