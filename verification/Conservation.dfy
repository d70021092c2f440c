/** Where a committed op is kept, and exactly when replacing a device's store loses one. */
module Conservation {
  import opened Options
  import opened Hlc
  import opened Merge
  import opened WritePath
  import opened Replica
  import opened Protocol
  import opened Invariant
  import opened InvariantRemote

  /** The change is in the mailbox, or the current snapshot stands for it. */
  predicate InMailbox(m: Remote, n: FileName) { n in m.changes || n in Covered(m) }

  /** Where a committed op can be. */
  ghost predicate Kept(w: World, r: Replica, op: Op) {
    || op in PendingOps(r)
    || (exists c :: c in r.outbox && op in c.ops)
    || (exists n :: InMailbox(w.remote, n) && n in w.log && op in w.log[n].ops)
    || (exists c :: c in r.quarantine && op in c.ops)
  }

  lemma MailboxHoldsPublished(w: World, n: FileName)
    requires Inv(w)
    ensures n in w.published <==> InMailbox(w.remote, n)
  {
    hide ReplicaOk, CompactionOk, AllSettled, LogOk, OpsOk, AllOps;
    var s := Current(w.remote).snapshot;
    if s.Some? { assert SnapshotOk(w.remote.snapshots[s.value], w.log, w.published); }
  }

  lemma KeptByInvariant(w: World, i: string, op: Op)
    requires Inv(w) && i in w.replicas && op in w.replicas[i].committed
    ensures Kept(w, w.replicas[i], op)
  {
    ReplicaInOrder(w, i);
    hide Inv, AllSettled;
    var r := w.replicas[i];
    if op !in PendingOps(r) {
      var n :| n in r.made && n in w.log && op in w.log[n].ops;
      if n in OutboxNames(r) {
        var c :| c in r.outbox && NameOf(c) == n;
      } else if n in QuarantineNames(r) {
        var c :| c in r.quarantine && NameOf(c) == n;
      } else {
        MailboxHoldsPublished(w, n);
      }
    }
  }

  /** Outbox conservation: in every state of every careful run, each op a device ever committed is
      in its pending batch, its outbox, a mailbox file, the current snapshot, or its quarantine. */
  lemma CommittedOpsAreKept(run: seq<Step>, i: string, op: Op)
    requires CarefulRun(run)
    requires var w := Exec(Start(), run); i in w.replicas && op in w.replicas[i].committed
    ensures var w := Exec(Start(), run); Kept(w, w.replicas[i], op)
  {
    hide Exec, Inv, Kept, Careful;
    RunKeepsInv(run);
    KeptByInvariant(Exec(Start(), run), i, op);
  }

  /** A change leaves the outbox without having been published or quarantined exactly when the
      store is replaced under it, by a restore or by emptying it. This is so in any state. */
  lemma LeavesOutboxUnsafelyIff(w: World, s: Step, i: string, c: Change)
    requires i in w.replicas && c in w.replicas[i].outbox
    ensures var w' := Do(w, s);
      && i in w'.replicas
      && (c !in w'.replicas[i].outbox && NameOf(c) !in w'.published && c !in w'.replicas[i].quarantine
          <==> && Enabled(w, s) && (s.Restore? || s.EmptyStore?) && s.node == i
               && NameOf(c) !in w.published && c !in w.replicas[i].quarantine)
  {
    hide ApplyOps, AllOpsOf, PutRow, NewestStamp, Listing, NextStamp, ReceiveAll;
    if Enabled(w, s) && s.EndFlush? && s.node == i {
      AcknowledgedIsPublished(w, i, s.count, c);
    }
  }

  lemma AcknowledgedIsPublished(w: World, i: string, n: nat, c: Change)
    requires Enabled(w, EndFlush(i, n)) && c in w.replicas[i].outbox
    ensures c in Acknowledge(w.replicas[i], n).outbox || NameOf(c) in w.published
  {
    var r := w.replicas[i];
    assert r.outbox == r.outbox[..n] + r.outbox[n..];
    if c in r.outbox[..n] {
      var k :| 0 <= k < n && r.outbox[k] == c;
    }
  }

  // ---- No op is committed twice --------------------------------------------------------------

  ghost predicate LogOnce(log: Log) {
    && (forall n :: n in log ==> log[n].ops != [])
    && (forall m, n, op :: m in log && n in log && op in log[m].ops && op in log[n].ops ==> m == n)
  }

  /** Device `i` has an op of the log, or of another device, in its pending batch. */
  ghost predicate Shares(w: World, i: string, op: Op) {
    || (exists n :: n in w.log && op in w.log[n].ops)
    || (exists j :: j in w.replicas && j != i && op in PendingOps(w.replicas[j]))
  }

  ghost predicate BatchOnce(w: World, i: string)
    requires i in w.replicas
  {
    && (w.replicas[i].pending.Some? ==> w.replicas[i].pending.value.ops != [])
    && forall op :: op in PendingOps(w.replicas[i]) ==> !Shares(w, i, op)
  }

  /** Every change has ops, and no op is in two changes, in two batches, or in both. */
  ghost predicate OpsOnce(w: World) {
    LogOnce(w.log) && forall i :: i in w.replicas ==> BatchOnce(w, i)
  }

  /** A step that writes nothing and closes nothing. */
  ghost predicate NoNewOps(w: World, w': World) {
    && w'.log == w.log
    && forall i :: i in w'.replicas ==>
         w'.replicas[i].pending.None? || (i in w.replicas && w'.replicas[i].pending == w.replicas[i].pending)
  }

  lemma QuietKeepsOpsOnce(w: World, w': World)
    requires OpsOnce(w) && NoNewOps(w, w')
    ensures OpsOnce(w')
  {
    hide LogOnce;
    forall i | i in w'.replicas ensures BatchOnce(w', i) {
      forall op | op in PendingOps(w'.replicas[i]) ensures !Shares(w', i, op) {
        assert BatchOnce(w, i) && !Shares(w, i, op);
        forall j | j in w'.replicas && j != i ensures op !in PendingOps(w'.replicas[j]) {
          assert j in w.replicas ==> op !in PendingOps(w.replicas[j]);
        }
      }
    }
  }

  lemma CommitKeepsOpsOnce(w: World, i: string, r': Replica, op: Op)
    requires OpsOnce(w) && i in w.replicas && op !in AllOps(w)
    requires r'.pending.Some? && r'.pending.value.ops != [] && PendingOps(r') == PendingOps(w.replicas[i]) + {op}
    ensures OpsOnce(WithReplica(w, i, r'))
  {
    var w' := WithReplica(w, i, r');
    forall n | n in w.log ensures op !in w.log[n].ops {
      assert op in w.log[n].ops ==> op in OpsIn(w.log, w.log.Keys);
    }
    forall j | j in w.replicas ensures op !in PendingOps(w.replicas[j]) {
      assert op in PendingOps(w.replicas[j]) ==> op in AllPendingOps(w);
    }
    hide AllOps, LogOnce, PendingOps;
    forall j | j in w'.replicas ensures BatchOnce(w', j) {
      assert BatchOnce(w, j);
      forall o | o in PendingOps(w'.replicas[j]) ensures !Shares(w', j, o) {
        assert o != op ==> !Shares(w, j, o);
      }
    }
  }

  lemma CloseKeepsOpsOnce(w: World, i: string)
    requires OpsOnce(w) && i in w.replicas && w.replicas[i].pending.Some?
    ensures OpsOnce(BatchClosed(w, i))
  {
    var c, w' := w.replicas[i].pending.value, BatchClosed(w, i);
    assert BatchOnce(w, i);
    forall op | op in c.ops ensures !Shares(w, i, op) { assert op in PendingOps(w.replicas[i]); }
    assert LogOnce(w'.log);
    hide LogOnce;
    forall j | j in w'.replicas ensures BatchOnce(w', j) {
      assert BatchOnce(w, j);
      forall o | o in PendingOps(w'.replicas[j]) ensures !Shares(w', j, o) {
        assert j != i && !Shares(w, j, o);
        assert forall x :: x in c.ops <==> x in PendingOps(w.replicas[i]);
      }
    }
  }

  lemma NewOpIsNew(w: World, op: Op, p: Hlc)
    requires OpCarries(op, p) && Unused(w, p)
    ensures op !in AllOps(w)
  {}

  lemma WriteKeepsOpsOnce(w: World, i: string, key: Key, fields: map<Field, Value>, now: nat, h: Hlc, id: string)
    requires OpsOnce(w) && i in w.replicas && fields != map[] && Unused(w, NextStamp(w.replicas[i], now))
    ensures OpsOnce(WithReplica(w, i, Put(w.replicas[i], key, fields, now, h, id)))
  {
    hide OpsOnce, Unused, NextStamp;
    var r := w.replicas[i];
    var p := NextStamp(r, now);
    var row := PutRow(Get(r.rows, key), fields, p);
    var op := Upsert(key, row.payload);
    var f :| f in fields;
    assert row.payload[f].hlc == p;
    NewOpIsNew(w, op, p);
    CommitPending(r, p, key, row, Change(id, h, [op]), op);
    hide AllOps, PutRow;
    CommitKeepsOpsOnce(w, i, Put(r, key, fields, now, h, id), op);
  }

  lemma RemoveKeepsOpsOnce(w: World, i: string, key: Key, now: nat, id: string)
    requires OpsOnce(w) && i in w.replicas && Unused(w, NextStamp(w.replicas[i], now))
    ensures OpsOnce(WithReplica(w, i, Erase(w.replicas[i], key, now, id)))
  {
    hide OpsOnce, Unused, NextStamp;
    var r := w.replicas[i];
    var p := NextStamp(r, now);
    NewOpIsNew(w, Delete(key, p), p);
    CommitPending(r, p, key, Row(true, Some(p), map[]), Change(id, p, [Delete(key, p)]), Delete(key, p));
    hide AllOps;
    CommitKeepsOpsOnce(w, i, Erase(r, key, now, id), Delete(key, p));
  }

  lemma OtherStepsAddNothing(w: World, s: Step)
    requires !s.Write? && !s.Remove? && !s.CloseBatch?
    ensures NoNewOps(w, Do(w, s))
  {
    hide NoNewOps;
    if OnMailbox(s) { MailboxAddsNothing(w, s); } else { DeviceAddsNothing(w, s); }
  }

  lemma MailboxAddsNothing(w: World, s: Step)
    requires OnMailbox(s)
    ensures NoNewOps(w, Do(w, s))
  {
    hide ApplyOps, AllOpsOf, Listing, ReceiveAll, Current;
    if !s.Capture? && !s.SaveEpoch? {
      MailboxLeavesDevices(w, s);
      hide Do;
    }
  }

  lemma DeviceAddsNothing(w: World, s: Step)
    requires !OnMailbox(s) && !s.Write? && !s.Remove? && !s.CloseBatch?
    ensures NoNewOps(w, Do(w, s))
  {
    hide ApplyOps, AllOpsOf, Listing, ReceiveAll, Current, Names, OutboxNames, RestartClock;
  }

  lemma {:induction false} RunKeepsOpsOnce(run: seq<Step>)
    requires CarefulRun(run)
    ensures OpsOnce(Exec(Start(), run))
  {
    if run != [] {
      var w, s := Exec(Start(), run[..|run| - 1]), run[|run| - 1];
      RunKeepsOpsOnce(run[..|run| - 1]);
      hide OpsOnce, Supersedes, Unused, NewestStamp;
      StepKeepsOpsOnce(w, s);
    }
  }

  lemma StepKeepsOpsOnce(w: World, s: Step)
    requires OpsOnce(w) && Careful(w, s)
    ensures OpsOnce(Do(w, s))
  {
    hide OpsOnce, Supersedes, Unused, NewestStamp, Put, Erase, BatchClosed, NoNewOps;
    if !Enabled(w, s) {
    } else if s.Write? {
      WriteKeepsOpsOnce(w, s.node, s.key, s.fields, s.now, s.h, s.id);
    } else if s.Remove? {
      RemoveKeepsOpsOnce(w, s.node, s.key, s.now, s.id);
    } else if s.CloseBatch? {
      CloseKeepsOpsOnce(w, s.node);
    } else {
      OtherStepsAddNothing(w, s);
      QuietKeepsOpsOnce(w, Do(w, s));
    }
  }

  // ---- Replacing a store ---------------------------------------------------------------------------

  /** The store of a device has been replaced: nothing is queued any more. */
  ghost predicate Replaced(w: World, w': World, i: string) {
    && i in w.replicas && i in w'.replicas
    && w'.remote == w.remote && w'.log == w.log
    && w'.replicas[i].pending.None? && w'.replicas[i].outbox == []
    && w'.replicas[i].quarantine == w.replicas[i].quarantine && w'.replicas[i].committed == w.replicas[i].committed
  }

  ghost predicate AllKept(w: World, i: string) {
    i in w.replicas && forall op :: op in w.replicas[i].committed ==> Kept(w, w.replicas[i], op)
  }

  lemma QueuedChange(w: World, i: string, c: Change)
    requires Inv(w) && i in w.replicas && c in w.replicas[i].outbox
    ensures NameOf(c) in w.log && w.log[NameOf(c)] == c && NameOf(c) in w.replicas[i].made
    ensures forall op :: op in c.ops ==> op in w.replicas[i].committed
  {
    ReplicaInOrder(w, i);
    hide Inv, AllSettled;
    assert NameOf(c) in OutboxNames(w.replicas[i]);
  }

  lemma QuarantinedChange(w: World, i: string, c: Change)
    requires Inv(w) && i in w.replicas && c in w.replicas[i].quarantine
    ensures NameOf(c) in w.log && w.log[NameOf(c)] == c
  {
    ReplicaInOrder(w, i);
    hide Inv, AllSettled;
  }

  lemma PendingIsCommitted(w: World, i: string)
    requires Inv(w) && i in w.replicas
    ensures PendingOps(w.replicas[i]) <= w.replicas[i].committed
  {
    ReplicaInOrder(w, i);
    hide Inv, AllSettled;
  }

  /** An op of a queued change is kept elsewhere only with the change itself. */
  lemma KeptOnlyWithItsChange(w: World, w': World, i: string, c: Change, op: Op)
    requires Inv(w) && OpsOnce(w) && Replaced(w, w', i) && c in w.replicas[i].outbox && op in c.ops
    requires Kept(w', w'.replicas[i], op)
    ensures NameOf(c) in w.published + QuarantineNames(w.replicas[i])
  {
    QueuedChange(w, i, c);
    if n :| InMailbox(w.remote, n) && n in w.log && op in w.log[n].ops {
      MailboxHoldsPublished(w, n);
    } else {
      var q :| q in w.replicas[i].quarantine && op in q.ops;
      QuarantinedChange(w, i, q);
      assert NameOf(q) == NameOf(c);
    }
  }

  lemma PendingIsKeptNowhere(w: World, w': World, i: string, op: Op)
    requires Inv(w) && OpsOnce(w) && Replaced(w, w', i) && op in PendingOps(w.replicas[i])
    ensures !Kept(w', w'.replicas[i], op)
  {
    hide Inv;
    assert BatchOnce(w, i) && !Shares(w, i, op);
    forall c | c in w.replicas[i].quarantine ensures op !in c.ops { QuarantinedChange(w, i, c); }
  }

  lemma LossIff(w: World, w': World, i: string)
    requires Inv(w) && OpsOnce(w) && Replaced(w, w', i)
    ensures AllKept(w', i) <==> QueueSafe(w, w.replicas[i])
  {
    var r := w.replicas[i];
    hide Inv, OpsOnce, Kept;
    if AllKept(w', i) {
      if r.pending.Some? {
        SomePendingOp(w, i);
        var op :| op in PendingOps(r);
        PendingIsCommitted(w, i);
        PendingIsKeptNowhere(w, w', i, op);
        assert false;
      }
      forall n | n in OutboxNames(r) ensures n in w.published + QuarantineNames(r) {
        var c :| c in r.outbox && NameOf(c) == n;
        QueuedChange(w, i, c);
        SomeQueuedOp(w, i, c);
        var op :| op in c.ops;
        KeptOnlyWithItsChange(w, w', i, c, op);
      }
    }
    if QueueSafe(w, r) {
      forall op | op in r.committed ensures Kept(w', w'.replicas[i], op) { KeptWhenSafe(w, w', i, op); }
    }
  }

  lemma SomePendingOp(w: World, i: string)
    requires OpsOnce(w) && i in w.replicas && w.replicas[i].pending.Some?
    ensures PendingOps(w.replicas[i]) != {}
  {
    assert BatchOnce(w, i);
    assert w.replicas[i].pending.value.ops[0] in PendingOps(w.replicas[i]);
  }

  lemma SomeQueuedOp(w: World, i: string, c: Change)
    requires OpsOnce(w) && NameOf(c) in w.log && w.log[NameOf(c)] == c
    ensures exists op :: op in c.ops
  {
    assert c.ops[0] in c.ops;
  }

  lemma KeptWhenSafe(w: World, w': World, i: string, op: Op)
    requires Inv(w) && Replaced(w, w', i) && QueueSafe(w, w.replicas[i]) && op in w.replicas[i].committed
    ensures Kept(w', w'.replicas[i], op)
  {
    hide Inv;
    var r := w.replicas[i];
    KeptByInvariant(w, i, op);
    if c :| c in r.outbox && op in c.ops {
      QueuedChange(w, i, c);
      assert NameOf(c) in OutboxNames(r);
      if NameOf(c) in w.published {
        MailboxHoldsPublished(w, NameOf(c));
      } else {
        var q :| q in r.quarantine && NameOf(q) == NameOf(c);
        QuarantinedChange(w, i, q);
      }
    }
  }

  /** Replacing a device's store, by a restore or by emptying it, keeps every op the device ever
      committed, if and only if no batch is open and every queued change is already in the mailbox,
      covered by the current snapshot, or quarantined. */
  lemma ReplacingStoreKeepsOpsIff(run: seq<Step>, s: Step)
    requires CarefulRun(run) && (s.Restore? || s.EmptyStore?) && Enabled(Exec(Start(), run), s)
    ensures var w := Exec(Start(), run);
      AllKept(Do(w, s), s.node) <==>
        && w.replicas[s.node].pending.None?
        && forall c :: c in w.replicas[s.node].outbox ==>
             InMailbox(w.remote, NameOf(c)) || NameOf(c) in QuarantineNames(w.replicas[s.node])
  {
    hide Exec, Careful, Inv, OpsOnce, Kept;
    var w := Exec(Start(), run);
    RunKeepsInv(run);
    RunKeepsOpsOnce(run);
    assert Replaced(w, Do(w, s), s.node);
    LossIff(w, Do(w, s), s.node);
    hide Do;
    var r := w.replicas[s.node];
    forall c | c in r.outbox ensures NameOf(c) in w.published <==> InMailbox(w.remote, NameOf(c)) {
      MailboxHoldsPublished(w, NameOf(c));
    }
    forall n | n in OutboxNames(r) ensures exists c :: c in r.outbox && NameOf(c) == n {}
    forall c | c in r.outbox ensures NameOf(c) in OutboxNames(r) {}
  }
}
