/** What callers of the passphrase key provider see: which outcome a shared resolution hands to
    each of them, and when provisioning writes over another record. */
module PassphraseCallers {
  import opened Options
  import opened Passphrase

  // ---- Callers of one resolution ----------------------------------------------------------------

  /** A finished activity reports a missing record exactly when it was to decrypt and found none, and
      it wrote a record exactly when it found none and returned a key, which takes encrypting. */
  ghost predicate OutcomeOk(a: Activity) {
    && (a.phase.Threw? ==> (a.phase.error == MissingRecord <==> a.purpose == Decrypt && a.found == Some(None)))
    && (a.purpose == Decrypt && a.found == Some(None) ==> a.phase == HasRecord(None) || a.phase == Threw(MissingRecord))
    && (a.phase.HasRecord? ==> a.found == Some(a.phase.record))
    && (a.phase.Prompting? ==> a.found == Some(a.phase.record) && (a.phase.record.None? ==> a.purpose == Encrypt))
    && (a.phase.Deriving? ==> a.found == Some(a.phase.record) && (a.phase.record.None? ==> a.purpose == Encrypt))
    && (a.phase.Fetching? ==> a.found.None?)
    && (a.wrote.Some? <==> a.found == Some(None) && (a.phase.Saved? || a.phase.Returned?))
    && (a.phase.Saved? ==> a.found == Some(None))
    && (a.unlock.Some? ==> a.purpose == Encrypt)
  }

  /** The call that started the resolution of caller `n`. */
  ghost predicate StartedBy(w: World, m: nat, n: nat) {
    && m <= n < |w.callers| && w.callers[m].act == w.callers[n].act
    && w.callers[m].act < |w.acts| && w.callers[m].purpose == w.acts[w.callers[m].act].purpose
  }

  ghost predicate HasStarter(w: World, n: nat) { exists m :: StartedBy(w, m, n) }

  ghost predicate CallersOk(w: World) {
    && (forall i :: 0 <= i < |w.acts| ==> OutcomeOk(w.acts[i]))
    && (forall n :: 0 <= n < |w.callers| ==> HasStarter(w, n))
    && (w.provider.inFlight.Some? ==>
          exists m :: 0 <= m < |w.callers| && w.callers[m].act == w.provider.inFlight.value && StartedBy(w, m, m))
  }

  /** Activities move on without changing purpose, and nobody calls. */
  lemma NobodyCalls(w: World, w': World)
    requires CallersOk(w) && w'.callers == w.callers && |w'.acts| >= |w.acts|
    requires forall i :: 0 <= i < |w.acts| ==> w'.acts[i].purpose == w.acts[i].purpose
    requires forall i :: 0 <= i < |w'.acts| ==> OutcomeOk(w'.acts[i])
    requires w'.provider.inFlight.None? || w'.provider.inFlight == w.provider.inFlight
    ensures CallersOk(w')
  {
    hide OutcomeOk;
    forall n | 0 <= n < |w'.callers| ensures HasStarter(w', n) {
      assert HasStarter(w, n);
      var m :| StartedBy(w, m, n);
      assert StartedBy(w', m, n);
    }
    if w'.provider.inFlight.Some? {
      var m :| 0 <= m < |w.callers| && w.callers[m].act == w.provider.inFlight.value && StartedBy(w, m, m);
      assert StartedBy(w', m, m);
    }
  }

  lemma CallKeepsCallers(cfg: Config, w: World, purpose: Purpose)
    requires CallersOk(w)
    ensures CallersOk(Do(cfg, w, GetKey(purpose)))
  {
    hide OutcomeOk;
    var w' := Do(cfg, w, GetKey(purpose));
    assert OutcomeOk(Begun(purpose, None)) by { BegunIsOpen(purpose, None); }
    forall n | 0 <= n < |w.callers| ensures HasStarter(w', n) {
      assert HasStarter(w, n);
      var m :| StartedBy(w, m, n);
      assert StartedBy(w', m, n);
    }
    if w.provider.inFlight.Some? {
      var m :| 0 <= m < |w.callers| && w.callers[m].act == w.provider.inFlight.value && StartedBy(w, m, m);
      assert StartedBy(w', m, m) && StartedBy(w', m, |w.callers|);
    } else {
      assert StartedBy(w', |w.callers|, |w.callers|);
    }
  }

  lemma BegunIsOpen(purpose: Purpose, unlock: Option<Phrase>)
    requires unlock.Some? ==> purpose == Encrypt
    ensures OutcomeOk(Begun(purpose, unlock))
  {}

  lemma MoveIsOk(cfg: Config, w: World, s: Step)
    requires Enabled(w, s) && ActorOf(s).Some? && OutcomeOk(w.acts[ActorOf(s).value])
    ensures var id := ActorOf(s).value; var w' := Do(cfg, w, s);
      && id < |w.acts| && |w'.acts| == |w.acts| && OutcomeOk(w'.acts[id]) && w'.acts[id].purpose == w.acts[id].purpose
      && w'.acts == w.acts[id := w'.acts[id]]
      && w'.callers == w.callers && w'.provider.inFlight == w.provider.inFlight
  {
    hide Provisioned, RecordAad, Alive, WellFormed;
    var id := ActorOf(s).value;
    assert w.acts[id := w.acts[id]] == w.acts;
  }

  lemma StepKeepsCallers(cfg: Config, w: World, s: Step)
    requires CallersOk(w)
    ensures CallersOk(Do(cfg, w, s))
  {
    if Enabled(w, s) {
      if ActorOf(s).Some? {
        MoveIsOk(cfg, w, s);
        hide OutcomeOk, Do;
        NobodyCalls(w, Do(cfg, w, s));
      } else if s.GetKey? {
        hide CallersOk;
        CallKeepsCallers(cfg, w, s.purpose);
      } else {
        if s.Unlock? { BegunIsOpen(Encrypt, Some(s.phrase)); }
        hide OutcomeOk;
        NobodyCalls(w, Do(cfg, w, s));
      }
    }
  }

  lemma {:induction false} RunKeepsCallers(cfg: Config, stored: Stored, now: int, run: seq<Step>)
    ensures CallersOk(Exec(cfg, Start(stored, now), run))
  {
    hide Do;
    if run != [] {
      hide CallersOk;
      RunKeepsCallers(cfg, stored, now, run[..|run| - 1]);
      StepKeepsCallers(cfg, Exec(cfg, Start(stored, now), run[..|run| - 1]), run[|run| - 1]);
    }
  }

  /** What a call of `getKey` is handed depends on the call that started its resolution, not on its
      own purpose. Once the resolution has ended, the call ends with the missing-record error if and
      only if the starting call was to decrypt and no record was found; and it is handed a key that
      was made for it just then if and only if no record was found and a key was returned, in which
      case the starting call was to encrypt. */
  lemma CallersShareOutcome(cfg: Config, stored: Stored, now: int, run: seq<Step>, n: nat) returns (m: nat)
    requires var w := Exec(cfg, Start(stored, now), run);
             n < |w.callers| && w.callers[n].act < |w.acts| && Finished(w.acts[w.callers[n].act])
    ensures var w := Exec(cfg, Start(stored, now), run); var a := w.acts[w.callers[n].act];
      && m <= n && w.callers[m].act == w.callers[n].act && a.purpose == w.callers[m].purpose
      && (a.phase == Threw(MissingRecord) <==> w.callers[m].purpose == Decrypt && a.found == Some(None))
      && (a.phase.Returned? && a.wrote.Some? <==> a.phase.Returned? && a.found == Some(None))
      && (a.phase.Returned? && a.wrote.Some? ==> w.callers[m].purpose == Encrypt)
  {
    hide Exec;
    RunKeepsCallers(cfg, stored, now, run);
    var w := Exec(cfg, Start(stored, now), run);
    assert HasStarter(w, n);
    m :| StartedBy(w, m, n);
    assert OutcomeOk(w.acts[w.callers[n].act]);
  }

  /** So a decrypting call is handed a newly made key exactly when it joined an encrypting one whose
      resolution found no record and returned; and an encrypting call is refused for want of a record
      exactly when it joined a decrypting one whose resolution found none. */
  lemma JoiningDecidesIff(cfg: Config, stored: Stored, now: int, run: seq<Step>, n: nat)
    requires var w := Exec(cfg, Start(stored, now), run);
             n < |w.callers| && w.callers[n].act < |w.acts| && Finished(w.acts[w.callers[n].act])
    ensures var w := Exec(cfg, Start(stored, now), run); var c := w.callers[n]; var a := w.acts[c.act];
      && (c.purpose == Decrypt ==> (a.phase.Returned? && a.wrote.Some? <==>
            a.phase.Returned? && a.found == Some(None) && exists m :: 0 <= m < n && w.callers[m] == Caller(Encrypt, c.act)))
      && (c.purpose == Encrypt ==> (a.phase == Threw(MissingRecord) <==>
            a.found == Some(None) && a.purpose == Decrypt && exists m :: 0 <= m < n && w.callers[m] == Caller(Decrypt, c.act)))
  {
    hide Exec;
    var m := CallersShareOutcome(cfg, stored, now, run, n);
    var w := Exec(cfg, Start(stored, now), run);
    assert w.callers[m] == Caller(w.callers[m].purpose, w.callers[n].act);
  }

  /** Two calls, the first of which starts the resolution. */
  function Joined(first: Purpose, second: Purpose): seq<Step> { [GetKey(first), GetKey(second), Fetch(0), Resume(0)] }

  lemma JoinedWorld(cfg: Config, first: Purpose, second: Purpose)
    ensures var w := Exec(cfg, Start(Nothing, 0), Joined(first, second));
      w == World(Nothing, Provider(None, Some(0), 0), 0,
                 [Activity(first, None, if first == Decrypt then Threw(MissingRecord) else Prompting(None), Some(None), None, None)],
                 [Caller(first, 0), Caller(second, 0)])
  {
    var w0, run := Start(Nothing, 0), Joined(first, second);
    assert Exec(cfg, w0, run[..0]) == w0;
    hide Exec;
    ExecLast(cfg, w0, run, 0);
    ExecLast(cfg, w0, run, 1);
    var callers := [Caller(first, 0), Caller(second, 0)];
    assert Exec(cfg, w0, run[..2]) == World(Nothing, Provider(None, Some(0), 0), 0, [Begun(first, None)], callers);
    ExecLast(cfg, w0, run, 2);
    assert Exec(cfg, w0, run[..3]) ==
      World(Nothing, Provider(None, Some(0), 0), 0, [Activity(first, None, HasRecord(None), Some(None), None, None)], callers);
    ExecLast(cfg, w0, run, 3);
    assert run[..4] == run;
  }

  /** A call to decrypt with nothing stored can be handed a key made on the spot, and one to encrypt
      can be refused for want of a record. */
  lemma JoinedCallsMixPurposes(cfg: Config, p: Phrase, salt: string, iv: string)
    requires p.raw != "" && p.normal != ""
    ensures
      var w := Exec(cfg, Start(Nothing, 0), Joined(Encrypt, Decrypt) + [Answer(0, Some(p)), Derive(0, salt, iv), Finish(0)]);
      && w.callers == [Caller(Encrypt, 0), Caller(Decrypt, 0)] && |w.acts| == 1
      && w.acts[0].phase == Returned(Kek(p.normal, salt, cfg.iterations), salt) && w.acts[0].found == Some(None)
    ensures
      var w := Exec(cfg, Start(Nothing, 0), Joined(Decrypt, Encrypt));
      w.callers == [Caller(Decrypt, 0), Caller(Encrypt, 0)] && |w.acts| == 1 && w.acts[0].phase == Threw(MissingRecord)
  {
    JoinedWorld(cfg, Encrypt, Decrypt);
    JoinedWorld(cfg, Decrypt, Encrypt);
    hide Exec;
    var w0, run := Start(Nothing, 0), Joined(Encrypt, Decrypt) + [Answer(0, Some(p)), Derive(0, salt, iv), Finish(0)];
    assert run[..4] == Joined(Encrypt, Decrypt);
    ExecLast(cfg, w0, run, 4);
    ExecLast(cfg, w0, run, 5);
    ExecLast(cfg, w0, run, 6);
    assert run[..7] == run;
  }

  // ---- Writing over a record ------------------------------------------------------------------------

  ghost function At(cfg: Config, stored: Stored, now: int, run: seq<Step>, k: nat): World
    requires k <= |run|
  {
    Exec(cfg, Start(stored, now), run[..k])
  }

  /** Step `k` leaves a record in the store: another tab puts one there, or an activity provisions. */
  ghost predicate Writes(cfg: Config, stored: Stored, now: int, run: seq<Step>, k: nat)
    requires k < |run|
  {
    match run[k]
    case Replace(s) => s != Nothing
    case Derive(id, _, _) =>
      && Enabled(At(cfg, stored, now, run, k), run[k])
      && id < |At(cfg, stored, now, run, k + 1).acts| && At(cfg, stored, now, run, k + 1).acts[id].phase.Saved?
    case _ => false
  }

  /** A record was written after step `j`, and not deleted again. */
  ghost predicate WrittenSince(cfg: Config, stored: Stored, now: int, run: seq<Step>, j: nat) {
    exists k :: j < k < |run| && Writes(cfg, stored, now, run, k) && forall l :: k < l < |run| ==> run[l] != Replace(Nothing)
  }

  lemma OneStepStored(cfg: Config, w: World, s: Step)
    ensures var w' := Do(cfg, w, s);
      match s
      case Replace(r) => w'.stored == r
      case Derive(id, _, _) =>
        if Enabled(w, s) && id < |w'.acts| && w'.acts[id].phase.Saved? then w'.stored != Nothing else w'.stored == w.stored
      case _ => w'.stored == w.stored
  {
    hide Provisioned, Unwrap, CheckNamespace, WellFormed;
  }

  lemma StoredAfter(cfg: Config, stored: Stored, now: int, run: seq<Step>, k: nat)
    requires k < |run|
    ensures Writes(cfg, stored, now, run, k) ==> At(cfg, stored, now, run, k + 1).stored != Nothing
    ensures run[k] == Replace(Nothing) ==> At(cfg, stored, now, run, k + 1).stored == Nothing
    ensures !Writes(cfg, stored, now, run, k) && run[k] != Replace(Nothing) ==>
              At(cfg, stored, now, run, k + 1).stored == At(cfg, stored, now, run, k).stored
  {
    hide Exec, Do, Enabled;
    ExecLast(cfg, Start(stored, now), run, k);
    OneStepStored(cfg, At(cfg, stored, now, run, k), run[k]);
  }

  lemma {:induction false} StoredIffWritten(cfg: Config, stored: Stored, now: int, run: seq<Step>, j: nat, n: nat)
    requires j < n <= |run| && At(cfg, stored, now, run, j + 1).stored == Nothing
    ensures At(cfg, stored, now, run, n).stored != Nothing <==>
            exists k :: j < k < n && Writes(cfg, stored, now, run, k) && forall l :: k < l < n ==> run[l] != Replace(Nothing)
    decreases n
  {
    hide At, Writes;
    if n > j + 1 {
      var m := n - 1;
      StoredIffWritten(cfg, stored, now, run, j, m);
      StoredAfter(cfg, stored, now, run, m);
      if At(cfg, stored, now, run, n).stored != Nothing && !Writes(cfg, stored, now, run, m) {
        var k :| j < k < m && Writes(cfg, stored, now, run, k) && forall l :: k < l < m ==> run[l] != Replace(Nothing);
        assert forall l :: k < l < n ==> run[l] != Replace(Nothing);
      }
    }
  }

  /** The activity is past its read, and had read nothing. */
  ghost predicate ReadNothing(w: World, id: nat) { id < |w.acts| && w.acts[id].found == Some(None) }

  lemma ReadNothingStep(cfg: Config, w: World, s: Step, id: nat)
    requires ReadNothing(Do(cfg, w, s), id) && !ReadNothing(w, id)
    ensures s == Fetch(id) && Enabled(w, s) && w.stored == Nothing && Do(cfg, w, s).stored == Nothing
  {
    hide Provisioned, Unwrap, CheckNamespace, WellFormed;
  }

  /** Where the activity read that nothing is stored. */
  lemma {:induction false} FetchOf(cfg: Config, stored: Stored, now: int, run: seq<Step>, id: nat, n: nat) returns (j: nat)
    requires n <= |run| && ReadNothing(At(cfg, stored, now, run, n), id)
    ensures j < n && run[j] == Fetch(id) && Enabled(At(cfg, stored, now, run, j), Fetch(id))
    ensures At(cfg, stored, now, run, j).stored == Nothing && At(cfg, stored, now, run, j + 1).stored == Nothing
    decreases n
  {
    if n == 0 {
      assert false;
    } else {
      var m := n - 1;
      ExecLast(cfg, Start(stored, now), run, m);
      if ReadNothing(At(cfg, stored, now, run, m), id) {
        j := FetchOf(cfg, stored, now, run, id, m);
      } else {
        hide Exec, Do, Enabled;
        ReadNothingStep(cfg, At(cfg, stored, now, run, m), run[m], id);
        j := m;
      }
    }
  }

  /** The activity is about to provision a record. */
  ghost predicate Provisioning(w: World, id: nat) {
    && id < |w.acts| && w.acts[id].phase.Deriving? && w.acts[id].phase.record.None?
    && w.acts[id].purpose == Encrypt && w.acts[id].phase.phrase.normal != ""
  }

  /** Provisioning writes over another record if and only if one was written, and not deleted again,
      since the activity read that there was none. */
  lemma ProvisioningReplacesIff(cfg: Config, stored: Stored, now: int, run: seq<Step>, id: nat, salt: string, iv: string) returns (j: nat)
    requires Provisioning(Exec(cfg, Start(stored, now), run), id)
    ensures var w := Exec(cfg, Start(stored, now), run);
      && j < |run| && run[j] == Fetch(id) && Enabled(At(cfg, stored, now, run, j), Fetch(id)) && At(cfg, stored, now, run, j).stored == Nothing
      && Do(cfg, w, Derive(id, salt, iv)).stored == Json(Provisioned(cfg, w.acts[id].phase.phrase.normal, salt, iv))
      && (w.stored != Nothing <==> WrittenSince(cfg, stored, now, run, j))
  {
    hide Exec, Writes, Provisioned;
    var w := Exec(cfg, Start(stored, now), run);
    RunKeepsCallers(cfg, stored, now, run);
    assert OutcomeOk(w.acts[id]);
    assert run[..|run|] == run;
    j := FetchOf(cfg, stored, now, run, id, |run|);
    StoredIffWritten(cfg, stored, now, run, j, |run|);
  }

  /** Nobody unlocks, and no other tab touches the record. */
  ghost predicate OnlyGetKey(run: seq<Step>) { forall i :: 0 <= i < |run| ==> !run[i].Unlock? && !run[i].Replace? }

  ghost predicate LooksCurrent(w: World) {
    && (forall i :: 0 <= i < |w.acts| ==> w.acts[i].unlock.None?)
    && (forall i :: 0 <= i < |w.acts| && w.acts[i].found == Some(None) && !Finished(w.acts[i]) && !w.acts[i].phase.Saved? ==> w.stored == Nothing)
  }

  lemma StepLooksCurrent(cfg: Config, w: World, s: Step)
    requires Passphrase.Inv(cfg, w) && LooksCurrent(w) && !s.Unlock? && !s.Replace?
    ensures LooksCurrent(Do(cfg, w, s))
  {
    hide Provisioned, Unwrap, CheckNamespace, WellFormed, CacheOk, Proved, ActivityOk;
  }

  lemma {:induction false} RunLooksCurrent(cfg: Config, stored: Stored, now: int, run: seq<Step>)
    requires Accepted(cfg) && OnlyGetKey(run)
    ensures LooksCurrent(Exec(cfg, Start(stored, now), run))
  {
    if run != [] {
      var n := |run| - 1;
      assert !run[n].Unlock? && !run[n].Replace?;
      RunLooksCurrent(cfg, stored, now, run[..n]);
      RunKeepsInv(cfg, stored, now, run[..n]);
      hide Do, LooksCurrent, Passphrase.Inv;
      StepLooksCurrent(cfg, Exec(cfg, Start(stored, now), run[..n]), run[n]);
    }
  }

  /** So with `getKey` alone, provisioning never writes over a record. */
  lemma GetKeyNeverReplaces(cfg: Config, stored: Stored, now: int, run: seq<Step>, id: nat)
    requires Accepted(cfg) && OnlyGetKey(run) && Provisioning(Exec(cfg, Start(stored, now), run), id)
    ensures Exec(cfg, Start(stored, now), run).stored == Nothing
  {
    hide Exec;
    RunLooksCurrent(cfg, stored, now, run);
    RunKeepsCallers(cfg, stored, now, run);
    assert OutcomeOk(Exec(cfg, Start(stored, now), run).acts[id]);
  }
}
