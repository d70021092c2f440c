/** Compaction as the program runs it: remote calls one after the other, each of which may be the
    last, and clean-up deletions each of which may fail on its own. */
module CompactionRun {
  import opened Options
  import opened Merge
  import opened WritePath
  import opened Replica
  import opened Protocol
  import opened Invariant
  import opened InvariantRemote
  import opened Convergence
  import S = Scenarios

  // ---- Single steps -------------------------------------------------------------------------

  /** A compaction of snapshot `s` by `who` is under way and has reached `phase`. */
  ghost predicate Reached(w: World, who: string, s: Snapshot, phase: Phase) {
    w.compaction == Some(Compaction(who, s, phase)) && who in w.replicas
  }

  lemma SnapshotStep(w: World, who: string, s: Snapshot)
    requires Reached(w, who, s, Captured)
    ensures Reached(Do(w, PutSnapshot), who, s, SnapshotWritten)
    ensures Do(w, PutSnapshot).remote == w.remote.(snapshots := w.remote.snapshots[s.epoch := s])
  {
    assert Enabled(w, PutSnapshot);
  }

  lemma ManifestStep(w: World, who: string, s: Snapshot)
    requires Reached(w, who, s, SnapshotWritten)
    ensures Reached(Do(w, PutManifest), who, s, ManifestWritten)
    ensures Do(w, PutManifest).remote ==
      w.remote.(manifests := w.remote.manifests[w.remote.pointer + 1 := Manifest(s.epoch, Some(s.epoch))])
  {
    assert Enabled(w, PutManifest);
  }

  lemma PointerStep(w: World, who: string, s: Snapshot)
    requires Reached(w, who, s, ManifestWritten)
    ensures Reached(Do(w, MovePointer), who, s, Pointed)
    ensures Do(w, MovePointer).remote == w.remote.(pointer := w.remote.pointer + 1)
  {
    assert Enabled(w, MovePointer);
  }

  lemma EpochStep(w: World, who: string, s: Snapshot)
    requires Reached(w, who, s, Pointed)
    ensures Reached(Do(w, SaveEpoch), who, s, Pointed) && Do(w, SaveEpoch).remote == w.remote
    ensures Do(w, SaveEpoch).replicas[who].epoch == s.epoch
  {
    assert Enabled(w, SaveEpoch);
  }

  lemma DropChangeStep(w: World, who: string, s: Snapshot, n: FileName)
    requires Reached(w, who, s, Pointed) && n in s.covered
    ensures Reached(Do(w, DropChange(n)), who, s, Pointed)
    ensures Do(w, DropChange(n)).remote == w.remote.(changes := w.remote.changes - {n})
    ensures Do(w, DropChange(n)).replicas == w.replicas
  {
    assert Enabled(w, DropChange(n));
  }

  lemma DropSnapshotStep(w: World, who: string, s: Snapshot, e: nat)
    requires Reached(w, who, s, Pointed) && e != s.epoch
    ensures Reached(Do(w, DropSnapshot(e)), who, s, Pointed)
    ensures Do(w, DropSnapshot(e)).remote == w.remote.(snapshots := w.remote.snapshots - {e})
    ensures Do(w, DropSnapshot(e)).replicas == w.replicas
  {
    assert Enabled(w, DropSnapshot(e));
  }

  // ---- The remote calls -----------------------------------------------------------------------

  class RemoteStore {
    var changes: map<FileName, Change>
    var snapshots: map<nat, Snapshot>
    var manifests: map<nat, Manifest>
    var pointer: nat

    function Value(): Remote
      reads this
    {
      Remote(changes, snapshots, manifests, pointer)
    }

    /** The three writes that make the snapshot current. `calls` is how many remote calls succeed
        before the process stops; `steps` is the run of the protocol that happened. */
    method Publish(ghost w: World, ghost who: string, s: Snapshot, calls: nat)
        returns (done: bool, ghost steps: seq<Step>)
      requires Reached(w, who, s, Captured) && w.remote == Value()
      modifies this
      ensures Value() == Exec(w, steps).remote && done == (calls >= 3)
      ensures forall k :: 0 <= k < |steps| ==> Compacting(steps[k])
      ensures done ==> Reached(Exec(w, steps), who, s, Pointed)
      ensures done ==> snapshots == old(snapshots)[s.epoch := s] && pointer == old(pointer) + 1 && changes == old(changes)
      ensures done ==> manifests == old(manifests)[pointer := Manifest(s.epoch, Some(s.epoch))]
      ensures !done ==> pointer == old(pointer) && changes == old(changes)
    {
      hide Exec, Do;
      steps := [];
      NoSteps(w);
      if calls == 0 {
        return false, steps;
      }
      snapshots := snapshots[s.epoch := s];
      ExecSnoc(w, steps, PutSnapshot);
      SnapshotStep(w, who, s);
      steps := steps + [PutSnapshot];
      if calls == 1 {
        return false, steps;
      }
      manifests := manifests[pointer + 1 := Manifest(s.epoch, Some(s.epoch))];
      ExecSnoc(w, steps, PutManifest);
      ManifestStep(Exec(w, steps), who, s);
      steps := steps + [PutManifest];
      if calls == 2 {
        return false, steps;
      }
      pointer := pointer + 1;
      ExecSnoc(w, steps, MovePointer);
      PointerStep(Exec(w, steps), who, s);
      steps := steps + [MovePointer];
      return true, steps;
    }

    /** Delete the covered change files, as listed in `covered`. Those in `failing` stay; the process
        stops after `calls` attempts. */
    method DropCovered(ghost w: World, ghost who: string, s: Snapshot, covered: seq<FileName>, failing: set<FileName>, calls: nat)
        returns (left: nat, ghost steps: seq<Step>)
      requires Reached(w, who, s, Pointed) && w.remote == Value() && SetOf(covered) == s.covered
      modifies `changes
      ensures Value() == Exec(w, steps).remote && Reached(Exec(w, steps), who, s, Pointed)
      ensures Exec(w, steps).replicas == w.replicas && forall k :: 0 <= k < |steps| ==> Compacting(steps[k])
      ensures changes == old(changes) - (SetOf(FirstOf(covered, calls)) - failing)
      ensures left == if calls > |covered| then calls - |covered| else 0
    {
      hide Exec, Do, Reached;
      steps := [];
      NoSteps(w);
      var n := if calls < |covered| then calls else |covered|;
      for i := 0 to n
        invariant Value() == Exec(w, steps).remote && Reached(Exec(w, steps), who, s, Pointed)
        invariant Exec(w, steps).replicas == w.replicas
        invariant changes == old(changes) - (SetOf(covered[..i]) - failing)
        invariant forall k :: 0 <= k < |steps| ==> Compacting(steps[k])
      {
        OneMore(covered, i);
        if covered[i] !in failing {
          ExecSnoc(w, steps, DropChange(covered[i]));
          DropChangeStep(Exec(w, steps), who, s, covered[i]);
          changes := changes - {covered[i]};
          steps := steps + [DropChange(covered[i])];
        }
      }
      left := calls - n;
    }

    /** Delete every listed snapshot but `keep`, which is what a manifest names, with the same failures.
        A compaction does this with the manifest it has just written; every connected device of a
        managed mesh does it with the manifest it has just loaded. */
    method CleanSnapshots(keep: nat, listing: seq<nat>, failing: set<nat>, calls: nat) returns (dropped: seq<nat>)
      modifies `snapshots
      ensures keep !in dropped && snapshots == old(snapshots) - SetOf(dropped)
      ensures SetOf(dropped) == SetOf(FirstOf(Others(listing, keep), calls)) - failing
    {
      var candidates := [];
      for i := 0 to |listing|
        invariant candidates == Others(listing[..i], keep)
      {
        assert listing[..i + 1][..i] == listing[..i];
        if listing[i] != keep {
          candidates := candidates + [listing[i]];
        }
      }
      assert listing[..|listing|] == listing;
      OthersExclude(listing, keep);
      dropped := [];
      for i := 0 to if calls < |candidates| then calls else |candidates|
        invariant keep !in dropped && snapshots == old(snapshots) - SetOf(dropped)
        invariant SetOf(dropped) == SetOf(candidates[..i]) - failing
      {
        OneMore(candidates, i);
        if candidates[i] !in failing {
          snapshots := snapshots - {candidates[i]};
          ghost var before := dropped;
          dropped := dropped + [candidates[i]];
          assert SetOf(dropped) == SetOf(before) + {candidates[i]};
        }
      }
    }

    /** A whole compaction after its pull, stopped after any number of remote calls and with any
        clean-up deletions failing: what is left in the mailbox is what a run of the protocol leaves,
        and one that is not stopped leaves no covered file and no other snapshot but the failures. */
    method Compact(ghost w: World, ghost who: string, s: Snapshot, covered: seq<FileName>, listing: seq<nat>, calls: nat,
                   failing: set<FileName>, failingOld: set<nat>)
        returns (moved: bool, ghost steps: seq<Step>)
      requires Reached(w, who, s, Captured) && w.remote == Value()
      requires SetOf(covered) == s.covered && SetOf(listing) == snapshots.Keys + {s.epoch}
      modifies this
      ensures Value() == Exec(w, steps).remote && moved == (calls >= 3)
      ensures forall k :: 0 <= k < |steps| ==> Compacting(steps[k])
      ensures moved ==> pointer == old(pointer) + 1 && s.epoch in snapshots && snapshots[s.epoch] == s
      ensures moved ==> pointer in manifests && manifests[pointer] == Manifest(s.epoch, Some(s.epoch))
      ensures moved ==> changes.Keys >= old(changes).Keys - s.covered
      ensures calls >= 3 + |covered| ==> changes == old(changes) - (s.covered - failing)
      ensures calls >= 3 + |covered| + |listing| ==> snapshots.Keys == {s.epoch} + old(snapshots).Keys * failingOld
      ensures moved ==> Reached(Exec(w, steps), who, s, Pointed) && Exec(w, steps).replicas[who].epoch == s.epoch
      ensures !moved ==> pointer == old(pointer) && changes == old(changes)
    {
      hide Exec, Do;
      moved, steps := Publish(w, who, s, calls);
      if !moved {
        return;
      }
      ghost var at := Exec(w, steps);
      ExecSnoc(w, steps, SaveEpoch);
      EpochStep(at, who, s);
      steps := steps + [SaveEpoch];
      at := Exec(w, steps);
      ghost var more: seq<Step>;
      var left;
      left, more := DropCovered(at, who, s, covered, failing, calls - 3);
      FirstOfAll(covered, calls - 3);
      ExecConcat(w, steps, more);
      steps := steps + more;
      at := Exec(w, steps);
      var dropped := CleanSnapshots(s.epoch, listing, failingOld, left);
      OthersExclude(listing, s.epoch);
      FirstOfAll(Others(listing, s.epoch), left);
      CompactorCleans(at, who, s, dropped);
      ExecConcat(w, steps, CompactorDrops(dropped));
      steps := steps + CompactorDrops(dropped);
    }
  }

  // ---- Lists of files -----------------------------------------------------------------------------

  function SetOf<T>(s: seq<T>): set<T> { set x | x in s }

  function FirstOf<T>(s: seq<T>, n: nat): seq<T> { if n < |s| then s[..n] else s }

  /** The listed snapshots other than `keep`. */
  function Others(listing: seq<nat>, keep: nat): seq<nat> {
    if listing == [] then []
    else
      var n := |listing| - 1;
      Others(listing[..n], keep) + if listing[n] == keep then [] else [listing[n]]
  }

  lemma {:induction false} OthersExclude(listing: seq<nat>, keep: nat)
    ensures SetOf(Others(listing, keep)) == SetOf(listing) - {keep} && |Others(listing, keep)| <= |listing|
  {
    if listing != [] {
      var n := |listing| - 1;
      OthersExclude(listing[..n], keep);
      OneMore(listing, n);
      assert listing[..n + 1] == listing;
      if listing[n] != keep {
        assert SetOf(Others(listing[..n], keep) + [listing[n]]) == SetOf(Others(listing[..n], keep)) + {listing[n]};
      } else {
        assert Others(listing, keep) == Others(listing[..n], keep);
      }
    }
  }

  lemma OneMore<T>(s: seq<T>, i: nat)
    requires i < |s|
    ensures SetOf(s[..i + 1]) == SetOf(s[..i]) + {s[i]}
  {
    assert s[..i + 1] == s[..i] + [s[i]];
  }

  lemma FirstOfAll<T>(s: seq<T>, n: nat)
    ensures SetOf(FirstOf(s, n)) <= SetOf(s) && (n >= |s| ==> FirstOf(s, n) == s)
  {}

  // ---- The two callers of the clean-up --------------------------------------------------------

  function CompactorDrops(dropped: seq<nat>): seq<Step> { seq(|dropped|, k requires 0 <= k < |dropped| => DropSnapshot(dropped[k])) }

  function Sweeps(i: string, dropped: seq<nat>): seq<Step> { seq(|dropped|, k requires 0 <= k < |dropped| => Sweep(i, dropped[k])) }

  lemma {:induction false} CompactorCleans(w: World, who: string, s: Snapshot, dropped: seq<nat>)
    requires Reached(w, who, s, Pointed) && s.epoch !in dropped
    ensures var t := Exec(w, CompactorDrops(dropped));
      && Reached(t, who, s, Pointed) && t.replicas == w.replicas
      && t.remote == w.remote.(snapshots := w.remote.snapshots - SetOf(dropped))
  {
    hide Exec, Do;
    if dropped == [] {
      NoSteps(w);
      assert w.remote.snapshots - SetOf(dropped) == w.remote.snapshots;
    } else {
      var n := |dropped| - 1;
      var front, last := dropped[..n], dropped[n];
      CompactorCleans(w, who, s, front);
      assert CompactorDrops(dropped) == CompactorDrops(front) + [DropSnapshot(last)];
      ExecSnoc(w, CompactorDrops(front), DropSnapshot(last));
      DropSnapshotStep(Exec(w, CompactorDrops(front)), who, s, last);
      assert SetOf(dropped) == SetOf(front) + {last} by { assert dropped == front + [last]; }
    }
  }

  /** A check of snapshots by any device is a run of the protocol too: it deletes exactly the
      snapshots that the manifest it had loaded did not name, whatever the current one is by then. */
  lemma {:induction false} DeviceCleans(w: World, i: string, dropped: seq<nat>)
    requires Idle(w, i) && i in w.sweeps && w.sweeps[i] !in dropped
    ensures Exec(w, Sweeps(i, dropped)) == w.(remote := w.remote.(snapshots := w.remote.snapshots - SetOf(dropped)))
  {
    hide Exec, Do;
    if dropped == [] {
      NoSteps(w);
      assert w.remote.snapshots - SetOf(dropped) == w.remote.snapshots;
    } else {
      var n := |dropped| - 1;
      var front, last := dropped[..n], dropped[n];
      DeviceCleans(w, i, front);
      assert Sweeps(i, dropped) == Sweeps(i, front) + [Sweep(i, last)];
      ExecSnoc(w, Sweeps(i, front), Sweep(i, last));
      S.SweepIs(Exec(w, Sweeps(i, front)), i, last);
      assert SetOf(dropped) == SetOf(front) + {last} by { assert dropped == front + [last]; }
    }
  }

  /** After a check of snapshots that nothing interrupts, the current snapshot is still in the
      mailbox if and only if the manifest the device had loaded is still the current one. */
  lemma CurrentSurvivesCleanUpIff(run: seq<Step>, i: string, dropped: seq<nat>)
    requires CarefulRun(run) && Idle(Exec(Start(), run), i) && i in Exec(Start(), run).sweeps
    requires var w := Exec(Start(), run);
             w.sweeps[i] !in dropped && w.remote.snapshots.Keys - SetOf(dropped) <= {w.sweeps[i]}
    ensures var w := Exec(Start(), run); var t := Exec(w, Sweeps(i, dropped));
            Current(t.remote).epoch in t.remote.snapshots <==> w.sweeps[i] == Current(w.remote).epoch
  {
    hide Exec, Careful;
    var w := Exec(Start(), run);
    RunKeepsInv(run);
    SweepFacts(w, i);
    DeviceCleans(w, i, dropped);
    hide Inv;
    assert Current(Exec(w, Sweeps(i, dropped)).remote) == Current(w.remote);
    hide Current;
  }

  /** The steps a compaction takes after it has captured its snapshot. */
  predicate Compacting(s: Step) {
    s.PutSnapshot? || s.PutManifest? || s.MovePointer? || s.SaveEpoch? || s.DropChange? || s.DropSnapshot?
  }

  /** They need no further care: whatever a compaction has done when it stops, the run stays one to
      which recovery, convergence and conservation apply. */
  lemma {:induction false} StoppedCompactionIsCareful(run: seq<Step>, steps: seq<Step>)
    requires CarefulRun(run) && forall k :: 0 <= k < |steps| ==> Compacting(steps[k])
    ensures CarefulRun(run + steps) && Exec(Start(), run + steps) == Exec(Exec(Start(), run), steps)
  {
    ExecConcat(Start(), run, steps);
    hide Exec;
    if steps == [] {
      assert run + steps == run;
    } else {
      var n := |steps| - 1;
      StoppedCompactionIsCareful(run, steps[..n]);
      assert Careful(Exec(Start(), run + steps[..n]), steps[n]);
      hide Careful;
      CarefulSnoc(run + steps[..n], steps[n]);
      assert run + steps[..n] + [steps[n]] == run + steps;
    }
  }
}
