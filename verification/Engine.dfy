/** The engine's write and publish paths as the program runs them: fields updated in place,
    each method tied to the device transition the protocol is proved about. */
module Engine {
  import opened Options
  import opened Hlc
  import opened Merge
  import opened WritePath
  import opened Replica
  import L = Ledger
  import P = Protocol
  import S = Scenarios
  import R = Retention

  // ---- The local store ---------------------------------------------------------------------

  function Without(outbox: seq<Change>, ids: set<string>): seq<Change> {
    if outbox == [] then []
    else
      var n := |outbox| - 1;
      Without(outbox[..n], ids) + if outbox[n].id in ids then [] else [outbox[n]]
  }

  /** The rows of a snapshot, table by table. */
  function Union(parts: seq<Rows>): Rows {
    if parts == [] then map[] else var n := |parts| - 1; Union(parts[..n]) + parts[n]
  }

  lemma EmptyUnion(parts: seq<Rows>)
    requires |parts| == 0
    ensures Union(parts) == map[]
  {}

  class LocalStore {
    var rows: Rows
    var outbox: seq<Change>
    var pendingBatch: Option<Change>
    var hlc: Option<Hlc>                // the clock in the store's metadata
    var epoch: nat                      // of the last snapshot restored or written
    var quarantine: set<Change>
    var lastSync: R.SyncTime            // of the last successful sync

    constructor ()
      ensures rows == map[] && outbox == [] && pendingBatch == None && hlc == None && epoch == 0 && quarantine == {}
      ensures lastSync == R.Never
    {
      rows, outbox, pendingBatch, hlc, epoch, quarantine, lastSync := map[], [], None, None, 0, {}, R.Never;
    }

    /** Row, batch and clock change in one transaction. */
    method CommitLocalMutation(key: Key, row: Row, c: Change)
      modifies this
      ensures rows == old(rows)[key := row] && pendingBatch == Some(Commit(old(pendingBatch), c))
      ensures hlc == Some(Commit(old(pendingBatch), c).hlc) && outbox == old(outbox) && epoch == old(epoch) && quarantine == old(quarantine)
      ensures lastSync == old(lastSync)
    {
      if pendingBatch.Some? {
        var batch := pendingBatch.value;
        var newest := if Less(batch.hlc, c.hlc) then c.hlc else batch.hlc;
        pendingBatch := Some(Change(batch.id, newest, batch.ops + c.ops));
      } else {
        pendingBatch := Some(c);
      }
      rows := rows[key := row];
      hlc := Some(pendingBatch.value.hlc);
    }

    method PromotePendingBatch() returns (promoted: bool)
      modifies this
      ensures promoted == old(pendingBatch).Some? && pendingBatch == None
      ensures outbox == if promoted then old(outbox) + [old(pendingBatch).value] else old(outbox)
      ensures rows == old(rows) && hlc == old(hlc) && epoch == old(epoch) && quarantine == old(quarantine) && lastSync == old(lastSync)
    {
      promoted := pendingBatch.Some?;
      if promoted {
        outbox := outbox + [pendingBatch.value];
        pendingBatch := None;
      }
    }

    /** Clear the store, put the quarantine and then the sync time back, and write rows table by
        table. `stop` is the write the process dies before, if it does; there is one before the
        clearing. */
    method ReplaceRows(parts: seq<Rows>, stop: Option<nat>) returns (ok: bool)
      requires stop != Some(0)
      modifies this
      ensures ok == (stop.None? || |parts| + 3 <= stop.value)
      ensures outbox == [] && pendingBatch == None && hlc == None && epoch == 0
      ensures quarantine == if stop == Some(1) then {} else old(quarantine)
      ensures lastSync == if stop == Some(1) || stop == Some(2) then R.Never else old(lastSync)
      ensures rows == if ok then Union(parts) else if stop.value <= 3 then map[] else Union(parts[..stop.value - 3])
    {
      var preserved, synced := quarantine, lastSync;
      rows, outbox, pendingBatch, hlc, epoch, quarantine, lastSync := map[], [], None, None, 0, {}, R.Never;
      if stop == Some(1) {
        return false;
      }
      quarantine := preserved;
      if stop == Some(2) {
        return false;
      }
      lastSync := synced;
      for k := 0 to |parts|
        invariant rows == Union(parts[..k]) && quarantine == preserved && lastSync == synced && (stop.Some? ==> k + 3 <= stop.value)
        invariant outbox == [] && pendingBatch == None && hlc == None && epoch == 0
      {
        if stop == Some(k + 3) {
          return false;
        }
        assert parts[..k + 1][..k] == parts[..k];
        rows := rows + parts[k];
      }
      assert parts[..|parts|] == parts;
      ok := true;
    }

    /** Keep what is queued in the quarantine, and then take it off the queue. */
    method SetAside()
      modifies this
      ensures outbox == [] && quarantine == old(quarantine) + set c | c in old(outbox)
      ensures rows == old(rows) && pendingBatch == old(pendingBatch) && hlc == old(hlc) && epoch == old(epoch) && lastSync == old(lastSync)
    {
      var entries := outbox;
      quarantine := quarantine + set c | c in entries;
      AcknowledgeOutbox(IdsOf(entries));
      WithoutAll(entries, IdsOf(entries));
    }

    method AcknowledgeOutbox(ids: set<string>)
      modifies `outbox
      ensures outbox == Without(old(outbox), ids)
    {
      var kept := [];
      for i := 0 to |outbox|
        invariant kept == Without(outbox[..i], ids) && outbox == old(outbox)
      {
        assert outbox[..i + 1][..i] == outbox[..i];
        if outbox[i].id !in ids {
          kept := kept + [outbox[i]];
        }
      }
      assert outbox[..|outbox|] == outbox;
      outbox := kept;
    }
  }

  lemma {:induction false} WithoutAll(outbox: seq<Change>, ids: set<string>)
    requires forall c :: c in outbox ==> c.id in ids
    ensures Without(outbox, ids) == []
  {
    if outbox != [] {
      WithoutAll(outbox[..|outbox| - 1], ids);
    }
  }

  lemma {:induction false} WithoutNone(outbox: seq<Change>, ids: set<string>)
    requires forall c :: c in outbox ==> c.id !in ids
    ensures Without(outbox, ids) == outbox
  {
    if outbox != [] {
      WithoutNone(outbox[..|outbox| - 1], ids);
    }
  }

  lemma {:induction false} WithoutConcat(a: seq<Change>, b: seq<Change>, ids: set<string>)
    ensures Without(a + b, ids) == Without(a, ids) + Without(b, ids)
  {
    if b == [] {
      assert a + b == a;
    } else {
      var n := |b| - 1;
      assert (a + b)[..|a| + n] == a + b[..n];
      WithoutConcat(a, b[..n], ids);
    }
  }

  function IdsOf(cs: seq<Change>): set<string> { set c | c in cs :: c.id }

  /** Acknowledging the changes of a flush by their ids drops exactly those, also when more were
      queued while the flush was running. */
  lemma AcknowledgeDropsFlushed(flushed: seq<Change>, later: seq<Change>)
    requires IdsOf(flushed) !! IdsOf(later)
    ensures Without(flushed + later, IdsOf(flushed)) == later
  {
    WithoutConcat(flushed, later, IdsOf(flushed));
    WithoutAll(flushed, IdsOf(flushed));
    forall c | c in later ensures c.id !in IdsOf(flushed) { assert c.id in IdsOf(later); }
    WithoutNone(later, IdsOf(flushed));
  }

  // ---- The mailbox ---------------------------------------------------------------------------------

  function NewestOf(cs: seq<Change>): Option<Hlc> {
    if cs == [] then None
    else
      var n := |cs| - 1;
      var before := NewestOf(cs[..n]);
      if before.None? || Less(before.value, cs[n].hlc) then Some(cs[n].hlc) else before
  }

  /** The head file after a flush: it never moves back. */
  function HeadAfter(head: Option<Hlc>, newest: Option<Hlc>): Option<Hlc> {
    if newest.Some? && (head.None? || Less(head.value, newest.value)) then newest else head
  }

  lemma {:induction false} NewestBounds(cs: seq<Change>, c: Change)
    requires c in cs
    ensures NewestOf(cs).Some? && Leq(c.hlc, NewestOf(cs).value)
  {
    var n := |cs| - 1;
    TotalOrder();
    hide Less;
    if c in cs[..n] { NewestBounds(cs[..n], c); }
  }

  lemma HeadPasses(cs: seq<Change>, head: Option<Hlc>)
    ensures forall c :: c in cs ==> HeadAfter(head, NewestOf(cs)).Some? && Leq(c.hlc, HeadAfter(head, NewestOf(cs)).value)
    ensures head.Some? ==> HeadAfter(head, NewestOf(cs)).Some? && Leq(head.value, HeadAfter(head, NewestOf(cs)).value)
  {
    forall c | c in cs ensures NewestOf(cs).Some? && Leq(c.hlc, NewestOf(cs).value) { NewestBounds(cs, c); }
    TotalOrder();
    hide Less, NewestOf;
  }

  class Mailbox {
    var files: map<FileName, Change>
    var head: Option<Hlc>             // the newest stamp published, as far as the head file knows

    /** Write the changes in order, then move the head forward. `failAt` is where the remote fails,
        if it does: before that change, or before the head if it is the number of changes. */
    method WriteChanges(entries: seq<Change>, failAt: Option<nat>) returns (ok: bool)
      modifies this
      ensures ok == (failAt.None? || |entries| < failAt.value)
      ensures files == WrittenTo(old(files), if ok then entries else entries[..failAt.value])
      ensures head == if ok then HeadAfter(old(head), NewestOf(entries)) else old(head)
      ensures ok ==> forall c :: c in entries ==> head.Some? && Leq(c.hlc, head.value)
    {
      hide Less;
      var newest: Option<Hlc> := None;
      for i := 0 to |entries|
        invariant files == WrittenTo(old(files), entries[..i]) && head == old(head)
        invariant failAt.Some? ==> i <= failAt.value
        invariant newest == NewestOf(entries[..i])
      {
        if failAt == Some(i) {
          return false;
        }
        assert entries[..i + 1][..i] == entries[..i];
        files := files[NameOf(entries[i]) := entries[i]];
        if newest.None? || Less(newest.value, entries[i].hlc) {
          newest := Some(entries[i].hlc);
        }
      }
      assert entries[..|entries|] == entries;
      if failAt == Some(|entries|) {
        return false;
      }
      if newest.Some? && (head.None? || Less(head.value, newest.value)) {
        head := newest;
      }
      assert head == HeadAfter(old(head), newest);
      HeadPasses(entries, old(head));
      ok := true;
    }
  }

  function WrittenTo(files: map<FileName, Change>, cs: seq<Change>): map<FileName, Change> {
    if cs == [] then files
    else var n := |cs| - 1; WrittenTo(files, cs[..n])[NameOf(cs[n]) := cs[n]]
  }

  // ---- The engine ------------------------------------------------------------------------------------

  /** A put with any fields. Without an op to publish, the row is stored and nothing is queued. */
  function PutAny(r: Replica, key: Key, fields: map<Field, Value>, now: nat, h: Option<Hlc>, id: string): Replica {
    var p := NextStamp(r, now);
    var row := PutRow(Get(r.rows, key), fields, p);
    if row.payload == map[] || h.None? then r.(clock := p, rows := r.rows[key := row])
    else CommitRow(r.(clock := p), key, row, Change(id, h.value, [Upsert(key, row.payload)]))
  }

  lemma PutAnyIsPut(r: Replica, key: Key, fields: map<Field, Value>, now: nat, h: Hlc, id: string)
    requires fields != map[]
    ensures PutAny(r, key, fields, now, Some(h), id) == Put(r, key, fields, now, h, id)
  {
    var row := PutRow(Get(r.rows, key), fields, NextStamp(r, now));
    var f :| f in fields;
    assert f in row.payload;
  }

  datatype FlushOutcome = Skipped | NoManifest | SetAside | Flushed | Failed

  datatype RestoreOutcome = Aborted | Stopped | Done

  /** A restore that stopped after clearing the store: some rows are back, and neither the ledger nor
      the epoch. */
  function Torn(r: Replica, rows: Rows, quarantine: set<Change>): Replica {
    r.(stored := None, rows := rows, pending := None, outbox := [], quarantine := quarantine, seen := {}, epoch := 0)
  }

  /** The next restore makes up for one that stopped, whatever was left, except for a quarantine that
      was cleared and not yet put back. */
  lemma RestoreRepairsTorn(r: Replica, rows: Rows, quarantine: set<Change>, s: Snapshot)
    ensures Restored(Torn(r, rows, quarantine), s) == Restored(r, s).(quarantine := quarantine)
    ensures Restored(Torn(r, rows, quarantine), s) == Restored(r, s) <==> quarantine == r.quarantine
  {}

  function Promoted(r: Replica): Replica { if r.pending.Some? then Promote(r) else r }

  class Engine {
    const deviceId: string
    const local: LocalStore
    const ledger: L.Store
    var hlc: Hlc
    var remoteAccessError: bool       // set when remote access is denied, until a connect succeeds
    ghost var model: Replica

    /** The fields hold exactly the device the protocol speaks about. */
    ghost predicate Valid()
      reads this, local, ledger
    {
      && model.clock == hlc && hlc.node == deviceId && model.paused == remoteAccessError
      && model.rows == local.rows && model.outbox == local.outbox && model.pending == local.pendingBatch
      && model.stored == local.hlc && model.epoch == local.epoch && model.quarantine == local.quarantine
      && model.seen == L.SeenIn(ledger.meta)
    }

    constructor (deviceId: string, now: nat)
      ensures Valid() && fresh(local) && fresh(ledger) && this.deviceId == deviceId && model == Joined(deviceId, now)
    {
      this.deviceId := deviceId;
      hlc, model, remoteAccessError := Create(now, deviceId), Joined(deviceId, now), false;
      local := new LocalStore();
      ledger := new L.Store();
    }

    method RefreshHlcFromLocal()
      requires Valid()
      modifies this
      ensures Valid() && model == old(model).(clock := Refreshed(old(model)))
    {
      model := model.(clock := Refreshed(model));
      if local.hlc.Some? && Less(hlc, local.hlc.value) {
        hlc := local.hlc.value.(node := deviceId);
      }
    }

    method PutNow(key: Key, fields: map<Field, Value>, now: nat, id: string) returns (ghost h: Option<Hlc>)
      requires Valid()
      modifies this, local
      ensures Valid() && model == PutAny(old(model), key, fields, now, h, id)
      ensures h.Some? ==> NewestStamp(PutRow(Get(old(model).rows, key), fields, NextStamp(old(model), now)), h.value)
      ensures fields != map[] ==> h.Some? && model == Put(old(model), key, fields, now, h.value, id)
      ensures key in local.rows && !local.rows[key].deleted
      ensures forall f :: f in fields ==> f in local.rows[key].payload && local.rows[key].payload[f].value == fields[f]
    {
      ghost var before := model;
      RefreshHlcFromLocal();
      var existing := Get(local.rows, key);
      hlc := Tick(hlc, now);
      var payload := if existing.Some? && !existing.value.deleted then existing.value.payload else map[];
      payload := payload + map f | f in fields :: Cell(fields[f], hlc);
      var row := Row(false, None, payload);
      assert row == PutRow(existing, fields, hlc);
      var op := RowToOp(key, row);
      var newest := RowHlc(row);
      h := newest;
      if op.Some? && newest.Some? {
        local.CommitLocalMutation(key, row, Change(id, newest.value, [op.value]));
      } else {
        local.rows := local.rows[key := row];
      }
      model := PutAny(before, key, fields, now, h, id);
      if fields != map[] {
        ghost var f :| f in fields;
        assert f in row.payload;
        PutAnyIsPut(before, key, fields, now, h.value, id);
      }
    }

    /** Deleting a missing or deleted row only catches the clock up. */
    method DeleteNow(key: Key, now: nat, id: string)
      requires Valid()
      modifies this, local
      ensures Valid()
      ensures model == if key in old(model).rows && !old(model).rows[key].deleted then Erase(old(model), key, now, id)
                       else old(model).(clock := Refreshed(old(model)))
    {
      ghost var before := model;
      RefreshHlcFromLocal();
      if key !in local.rows || local.rows[key].deleted {
        return;
      }
      hlc := Tick(hlc, now);
      var row := Row(true, Some(hlc), map[]);
      var newest := RowHlc(row);
      assert StampOf(row, hlc) && newest == Some(hlc);
      local.CommitLocalMutation(key, row, Change(id, newest.value, [Delete(key, hlc)]));
      model := Erase(before, key, now, id);
    }

    method FlushPendingBatch()
      requires Valid()
      modifies this, local
      ensures Valid() && model == Promoted(old(model)) && remoteAccessError == old(remoteAccessError)
      ensures local.lastSync == old(local.lastSync) && Offline(0) == R.Do(old(Offline(0)), R.Close, 0)
    {
      ghost var before := model;
      var promoted := local.PromotePendingBatch();
      model := Promoted(before);
    }

    /** What the offline limit is about. */
    ghost function Offline(now: int): R.Device
      reads local
    {
      R.Device(local.pendingBatch, local.outbox, local.quarantine, [], local.lastSync, now)
    }

    /** A completed pull of a connected engine, or a completed flush, records the time. */
    method MarkSuccessfulRemoteSync(now: int)
      requires Valid()
      modifies local`lastSync
      ensures Valid() && Offline(now) == R.Do(old(Offline(now)), R.Pulled, 0)
    {
      local.lastSync := R.At(now);
    }

    /** Set the offline writes of a device aside if it was away for too long, the open batch included. */
    method QuarantineExpired(now: int, limit: int) returns (expired: bool)
      requires Valid()
      modifies this, local
      ensures Valid() && remoteAccessError == old(remoteAccessError) && local.lastSync == old(local.lastSync)
      ensures expired <==> local.lastSync.Unreadable? || (local.lastSync.At? && now > local.lastSync.ms + limit)
      ensures model == if expired then Quarantined(Promoted(old(model))) else old(model)
    {
      var last := local.lastSync;
      expired := last.Unreadable? || (last.At? && now - last.ms > limit);
      if !expired {
        return;
      }
      FlushPendingBatch();
      local.SetAside();
      model := Quarantined(model);
    }

    /** Record the changes of a flush as seen before any of them is written. */
    method ObserveBeforePublishing(changes: seq<Change>) returns (ok: bool)
      requires Valid() && changes == local.outbox
      modifies this, ledger
      ensures ok && Valid() && model == ObserveOutbox(old(model)) && remoteAccessError == old(remoteAccessError) && hlc == old(hlc)
    {
      var handle := new L.Handle.Load(ledger);
      for i := 0 to |changes|
        invariant handle.seen == old(L.SeenIn(ledger.meta)) + Names(changes[..i])
        invariant handle.generation == L.Generation(ledger.meta) && ledger.meta == old(ledger.meta)
        invariant Valid() && model == old(model) && remoteAccessError == old(remoteAccessError) && hlc == old(hlc)
      {
        assert changes[..i + 1] == changes[..i] + [changes[i]];
        var _ := handle.Observe(NameOf(changes[i]), changes[i].hlc);
        assert Names(changes[..i + 1]) == Names(changes[..i]) + {NameOf(changes[i])};
      }
      assert changes[..|changes|] == changes;
      ok := handle.Persist(ledger);
      model := ObserveOutbox(model);
      assert Names(changes) == OutboxNames(model);
    }

    /** Publish the queued changes. They leave the outbox only when every one of them is written. */
    method Publish(mailbox: Mailbox, failAt: Option<nat>) returns (ok: bool)
      requires Valid()
      modifies this, local, ledger, mailbox
      ensures Valid() && local.rows == old(local.rows) && local.pendingBatch == old(local.pendingBatch)
      ensures local.lastSync == old(local.lastSync)
      ensures remoteAccessError == old(remoteAccessError)
      ensures ok == (failAt.None? || |old(local.outbox)| < failAt.value)
      ensures model == if ok then Acknowledge(ObserveOutbox(old(model)), |old(model).outbox|) else ObserveOutbox(old(model))
      ensures mailbox.files ==
        WrittenTo(old(mailbox.files), if ok then old(local.outbox) else old(local.outbox)[..failAt.value])
      ensures ok ==> forall c :: c in old(local.outbox) ==> mailbox.head.Some? && Leq(c.hlc, mailbox.head.value)
    {
      hide Less, WrittenTo;
      var entries := local.outbox;
      var observed := ObserveBeforePublishing(entries);
      ok := mailbox.WriteChanges(entries, failAt);
      if ok {
        local.AcknowledgeOutbox(IdsOf(entries));
        WithoutAll(entries, IdsOf(entries));
        assert entries[|entries|..] == [];
        model := Acknowledge(model, |entries|);
      }
    }

    /** A flush: nothing at all while remote access is paused or nothing is queued, and nothing when
        the manifest cannot be loaded; expired work is set aside; otherwise the queue is published
        and the time recorded. A denied write pauses remote access. */
    method Flush(mailbox: Mailbox, manifest: bool, now: int, limit: int, failAt: Option<nat>, denied: bool)
        returns (outcome: FlushOutcome)
      requires Valid()
      modifies this, local, ledger, mailbox
      ensures Valid()
      ensures outcome == if old(remoteAccessError) || old(local.outbox) == [] then Skipped
                         else if !manifest then NoManifest
                         else if R.Expired(old(local.lastSync), now, limit) then SetAside
                         else if failAt.None? || |old(local.outbox)| < failAt.value then Flushed
                         else Failed
      ensures model == match outcome
                       case Skipped => old(model)
                       case NoManifest => old(model)
                       case SetAside => Quarantined(Promoted(old(model)))
                       case Flushed => Acknowledge(ObserveOutbox(old(model)), |old(model).outbox|)
                       case Failed => ObserveOutbox(old(model)).(paused := denied || old(model).paused)
      ensures mailbox.files == match outcome
                               case Flushed => WrittenTo(old(mailbox.files), old(local.outbox))
                               case Failed => WrittenTo(old(mailbox.files), old(local.outbox)[..failAt.value])
                               case _ => old(mailbox.files)
      ensures Offline(now) == if outcome.Skipped? || outcome.NoManifest? then old(Offline(now))
                              else R.Flushed(old(Offline(now)), limit, outcome.Flushed?).(sent := [])
    {
      hide WrittenTo;
      if remoteAccessError || local.outbox == [] {
        return Skipped;
      }
      if !manifest {
        return NoManifest;
      }
      var expired := QuarantineExpired(now, limit);
      if expired {
        return SetAside;
      }
      var ok := Publish(mailbox, failAt);
      if ok {
        MarkSuccessfulRemoteSync(now);
      }
      if !ok && denied {
        remoteAccessError := true;
        model := model.(paused := true);
      }
      outcome := if ok then Flushed else Failed;
    }

    /** Replace the local store by a snapshot; the clock is adopted when the restore is over. The
        store is cleared, quarantine and sync time are put back, the rows written table by table,
        then the ledger, then the epoch. `stop` is the write the process dies before, if it does. */
    method RestoreSnapshot(s: Snapshot, names: seq<FileName>, parts: seq<Rows>, stop: Option<nat>) returns (ok: bool)
      requires Valid() && Union(parts) == s.rows && forall n :: n in names <==> n in s.covered
      modifies this, local, ledger
      ensures Valid() && ok == (stop.None? || |parts| + 4 < stop.value)
      ensures remoteAccessError == old(remoteAccessError)
      ensures local.lastSync == if stop == Some(1) || stop == Some(2) then R.Never else old(local.lastSync)
      ensures model == if ok then Restored(old(model), s)
                       else if stop.value == 0 then old(model)
                       else if stop.value == 1 then Torn(old(model), map[], {})
                       else if stop.value <= 3 then Torn(old(model), map[], old(model).quarantine)
                       else if stop.value == |parts| + 4 then Restored(old(model), s).(epoch := 0)
                       else Torn(old(model), Union(parts[..stop.value - 3]), old(model).quarantine)
    {
      hide L.MetaAfter, Union;
      if stop == Some(0) {
        return false;
      }
      var replaced := local.ReplaceRows(parts, stop);
      assert parts[..|parts|] == parts;
      assert |parts| == 0 ==> parts == [] && Union(parts) == map[] by { if |parts| == 0 { EmptyUnion(parts); } }
      if !replaced || stop == Some(|parts| + 3) {
        ledger.meta, model := None, Torn(model, local.rows, local.quarantine);
        return false;
      }
      RestoredSees(ledger.meta, s.clock, names);
      ok := ledger.RestoreSnapshot(Some(s.clock), ChangeFiles(names));
      assert (set n | n in names) == s.covered;
      model := Restored(model, s).(epoch := 0);
      if stop == Some(|parts| + 4) {
        return false;
      }
      local.epoch, model := s.epoch, Restored(old(model), s);
      ok := true;
    }

    /** `rehydrate`: close the batch, flush, replace the store. A flush that fails stops it; one that
        is skipped because remote access is paused does not, and the queue goes with the store. */
    method FlushAndRehydrate(mailbox: Mailbox, manifest: bool, now: int, limit: int, failAt: Option<nat>,
                             denied: bool, s: Snapshot, names: seq<FileName>, parts: seq<Rows>, stop: Option<nat>)
        returns (outcome: RestoreOutcome)
      requires Valid() && Union(parts) == s.rows && forall n :: n in names <==> n in s.covered
      modifies this, local, ledger, mailbox
      ensures Valid()
      ensures outcome.Aborted? ==> local.outbox == old(Promoted(model).outbox)
      ensures outcome.Done? ==> local.outbox == [] && local.rows == s.rows
      ensures !outcome.Aborted? && old(remoteAccessError) ==>
        mailbox.files == old(mailbox.files) && local.quarantine <= old(local.quarantine)
      ensures !outcome.Aborted? && !old(remoteAccessError) && stop != Some(1) ==>
        forall c :: c in old(Promoted(model).outbox) ==> NameOf(c) in mailbox.files || c in local.quarantine
      ensures outcome.Stopped? && stop == Some(1) ==> local.quarantine == {}
    {
      FlushPendingBatch();
      ghost var queued := model.outbox;
      var flushed := Flush(mailbox, manifest, now, limit, failAt, denied);
      if flushed == Failed || flushed == NoManifest {
        return Aborted;
      }
      forall c | c in queued && flushed == Flushed ensures NameOf(c) in mailbox.files { WrittenHolds(old(mailbox.files), queued, c); }
      var ok := RestoreSnapshot(s, names, parts, stop);
      outcome := if ok then Done else Stopped;
    }
  }

  function ChangeFiles(names: seq<FileName>): seq<L.Name> { seq(|names|, k requires 0 <= k < |names| => L.ChangeFile(names[k])) }

  /** A restored ledger has seen exactly what the snapshot covers. */
  lemma RestoredSees(meta: Option<L.Record>, clock: Hlc, names: seq<FileName>)
    ensures L.SeenIn(L.MetaAfter(L.System(meta, map[]), L.RestoreSnapshot(Some(clock), ChangeFiles(names)))) == set n | n in names
  {
    hide L.ObservedAll, L.Tracks;
    var view := L.View(Some(clock), {}, map[], true, L.Generation(meta) + 1);
    assert L.FilesOf(ChangeFiles(names)) == names;
    L.NothingTracks();
    L.ObservedAllTracks(view, names);
    assert {} + (set n | n in names) == (set n | n in names);
  }

  lemma {:induction false} WrittenHolds(files: map<FileName, Change>, cs: seq<Change>, c: Change)
    requires c in cs
    ensures NameOf(c) in WrittenTo(files, cs)
  {
    var n := |cs| - 1;
    if c in cs[..n] { WrittenHolds(files, cs[..n], c); }
  }

  // ---- A flush is a run of the protocol ------------------------------------------------------------

  /** The steps of a flush that writes the first `k` queued changes. */
  function Writes(i: string, k: nat): seq<P.Step> {
    if k == 0 then [P.BeginFlush(i)] else Writes(i, k - 1) + [P.WriteFile(i, k - 1)]
  }

  function Published(w: P.World, cs: seq<Change>): set<FileName> { w.published + Names(cs) }

  lemma OneMoreWritten(files: map<FileName, Change>, cs: seq<Change>, k: nat)
    requires k < |cs|
    ensures WrittenTo(files, cs[..k + 1]) == WrittenTo(files, cs[..k])[NameOf(cs[k]) := cs[k]]
    ensures Names(cs[..k + 1]) == Names(cs[..k]) + {NameOf(cs[k])}
  {
    assert cs[..k + 1][..k] == cs[..k] && cs[..k + 1] == cs[..k] + [cs[k]];
  }

  /** Writing `k` files after `BeginFlush` is `k` steps of the protocol, stopped anywhere. */
  lemma {:induction false} FlushIsProtocolRun(w: P.World, i: string, k: nat)
    requires P.Idle(w, i) && !w.replicas[i].paused && k <= |w.replicas[i].outbox|
    ensures var r := w.replicas[i]; var t := P.Exec(w, Writes(i, k));
      && t.replicas == w.replicas[i := ObserveOutbox(r)]
      && t.remote == w.remote.(changes := WrittenTo(w.remote.changes, r.outbox[..k]))
      && t.published == Published(w, r.outbox[..k]) && t.log == w.log && t.compaction == w.compaction
  {
    hide P.Exec, P.Do;
    var r := w.replicas[i];
    if k == 0 {
      P.NoSteps(w);
      P.ExecSnoc(w, [], P.BeginFlush(i));
      assert [] + [P.BeginFlush(i)] == [P.BeginFlush(i)];
      S.BeginFlushIs(w, i);
    } else {
      var n := k - 1;
      FlushIsProtocolRun(w, i, n);
      var mid := P.Exec(w, Writes(i, n));
      P.ExecSnoc(w, Writes(i, n), P.WriteFile(i, n));
      assert r.outbox[n] in r.outbox && NameOf(r.outbox[n]) in OutboxNames(r);
      S.WriteFileIs(mid, i, n);
      OneMoreWritten(w.remote.changes, r.outbox, n);
      hide WrittenTo, Names;
    }
  }

  /** And once all are written the acknowledgement is enabled. */
  lemma CompletedFlushMayAcknowledge(w: P.World, i: string)
    requires P.Idle(w, i) && !w.replicas[i].paused
    ensures P.Enabled(P.Exec(w, Writes(i, |w.replicas[i].outbox|)), P.EndFlush(i, |w.replicas[i].outbox|))
  {
    hide P.Exec, P.Enabled, P.Do, WrittenTo;
    var r := w.replicas[i];
    FlushIsProtocolRun(w, i, |r.outbox|);
    assert r.outbox[..|r.outbox|] == r.outbox;
    forall k | 0 <= k < |r.outbox| ensures NameOf(r.outbox[k]) in Names(r.outbox) { assert r.outbox[k] in r.outbox; }
    S.EndFlushIs(P.Exec(w, Writes(i, |r.outbox|)), i, |r.outbox|);
  }
}
