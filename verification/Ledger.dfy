/** The change ledger: which change files a device has observed. Many short-lived handles
    share one record in the local store, and a generation number tells stale handles apart. */
module Ledger {
  import opened Options
  import opened Hlc
  import opened Replica

  /** A name in the changes folder: a change file, or anything else. */
  datatype Name = ChangeFile(file: FileName) | Foreign(text: string)

  /** The record in the local store. */
  datatype Record = Record(
    generation: nat,
    high: Option<Hlc>,
    seen: set<FileName>,
    frontiers: map<string, Hlc>)   // by writer

  /** The fields of one handle. */
  datatype View = View(
    high: Option<Hlc>,
    seen: set<FileName>,
    frontiers: map<string, Hlc>,
    exact: bool,                   // a record existed when the handle was loaded
    generation: nat)

  datatype Lateness = BehindWriterFrontier | BehindGlobalHighWater

  function Generation(meta: Option<Record>): nat { if meta.Some? then meta.value.generation else 0 }

  function SeenIn(meta: Option<Record>): set<FileName> { if meta.Some? then meta.value.seen else {} }

  function Loaded(meta: Option<Record>): View {
    match meta
    case None => View(None, {}, map[], false, 0)
    case Some(r) => View(r.high, r.seen, r.frontiers, true, r.generation)
  }

  function Saved(v: View): Record { Record(v.generation, v.high, v.seen, v.frontiers) }

  function Empty(generation: nat): Record { Record(generation, None, {}, map[]) }

  function Raise(a: Option<Hlc>, h: Hlc): Option<Hlc> {
    if a.None? || Less(a.value, h) then Some(h) else a
  }

  function Advance(frontiers: map<string, Hlc>, node: string, h: Hlc): map<string, Hlc> {
    if node !in frontiers || Less(frontiers[node], h) then frontiers[node := h] else frontiers
  }

  /** Observe a change file; `stamp` is the stamp inside the file. */
  function Observed(v: View, f: FileName, stamp: Hlc): View {
    v.(high := Raise(v.high, stamp), seen := v.seen + {f}, frontiers := Advance(v.frontiers, f.hlc.node, f.hlc))
  }

  /** What an observation reports before it takes effect. */
  function LatenessOf(v: View, f: FileName): Option<Lateness> {
    if !v.exact then None
    else if f.hlc.node in v.frontiers && Leq(f.hlc, v.frontiers[f.hlc.node]) then Some(BehindWriterFrontier)
    else if v.high.Some? && Leq(f.hlc, v.high.value) then Some(BehindGlobalHighWater)
    else None
  }

  /** The later frontier of every writer. */
  function Later(a: map<string, Hlc>, b: map<string, Hlc>): map<string, Hlc> {
    map n | n in a.Keys + b.Keys ::
      if n !in b then a[n] else if n !in a || Less(a[n], b[n]) then b[n] else a[n]
  }

  /** Merge the stored record into a handle, as a persist does before it writes. */
  function Absorbed(v: View, r: Record): View {
    v.(high := if r.high.Some? then Raise(v.high, r.high.value) else v.high,
       seen := v.seen + r.seen,
       frontiers := Later(v.frontiers, r.frontiers))
  }

  function Persisted(meta: Option<Record>, v: View): Option<Record> {
    if v.generation != Generation(meta) then meta
    else Some(Saved(if meta.Some? then Absorbed(v, meta.value) else v))
  }

  function ObservedAll(v: View, files: seq<FileName>): View {
    if files == [] then v
    else var n := |files| - 1; Observed(ObservedAll(v, files[..n]), files[n], files[n].hlc)
  }

  predicate AllChangeFiles(names: seq<Name>) { forall i :: 0 <= i < |names| ==> names[i].ChangeFile? }

  function FilesOf(names: seq<Name>): (files: seq<FileName>)
    requires AllChangeFiles(names)
    ensures |files| == |names| && forall i :: 0 <= i < |names| ==> files[i] == names[i].file
  {
    seq(|names|, i requires 0 <= i < |names| => names[i].file)
  }

  /** The record a snapshot restore writes. */
  function RestoredRecord(meta: Option<Record>, high: Option<Hlc>, files: seq<FileName>): Record {
    Saved(ObservedAll(View(high, {}, map[], true, Generation(meta) + 1), files))
  }

  // ---- Frontiers --------------------------------------------------------------------------

  /** Every writer's frontier is the greatest file-name stamp among that writer's seen files. */
  ghost predicate Tracks(seen: set<FileName>, frontiers: map<string, Hlc>) {
    && (forall f :: f in seen ==> f.hlc.node in frontiers && Leq(f.hlc, frontiers[f.hlc.node]))
    && (forall n :: n in frontiers ==> exists f :: f in seen && f.hlc.node == n && f.hlc == frontiers[n])
  }

  lemma ObservedTracks(v: View, f: FileName, stamp: Hlc)
    requires Tracks(v.seen, v.frontiers)
    ensures Tracks(Observed(v, f, stamp).seen, Observed(v, f, stamp).frontiers)
  {
    TotalOrder();
    hide Less;
    var w := Observed(v, f, stamp);
    forall n | n in w.frontiers
      ensures exists g :: g in w.seen && g.hlc.node == n && g.hlc == w.frontiers[n]
    {
      if n == f.hlc.node && w.frontiers[n] == f.hlc {
        assert f in w.seen;
      } else {
        var g :| g in v.seen && g.hlc.node == n && g.hlc == v.frontiers[n];
        assert g in w.seen;
      }
    }
  }

  lemma LaterTracks(s: set<FileName>, a: map<string, Hlc>, t: set<FileName>, b: map<string, Hlc>)
    requires Tracks(s, a) && Tracks(t, b)
    ensures Tracks(s + t, Later(a, b))
  {
    TotalOrder();
    hide Less;
    var c := Later(a, b);
    forall n | n in c
      ensures exists g :: g in s + t && g.hlc.node == n && g.hlc == c[n]
    {
      if n in a && c[n] == a[n] {
        var g :| g in s && g.hlc.node == n && g.hlc == a[n];
        assert g in s + t;
      } else {
        var g :| g in t && g.hlc.node == n && g.hlc == b[n];
        assert g in s + t;
      }
    }
  }

  lemma {:induction false} ObservedAllTracks(v: View, files: seq<FileName>)
    requires Tracks(v.seen, v.frontiers)
    ensures Tracks(ObservedAll(v, files).seen, ObservedAll(v, files).frontiers)
    ensures ObservedAll(v, files).seen == v.seen + (set f | f in files)
    ensures ObservedAll(v, files).generation == v.generation
  {
    hide Tracks, Advance, Raise;
    if files != [] {
      var n := |files| - 1;
      ObservedAllTracks(v, files[..n]);
      ObservedTracks(ObservedAll(v, files[..n]), files[n], files[n].hlc);
      assert files == files[..n] + [files[n]];
    }
  }

  /** Frontiers are determined by the seen files. */
  lemma FrontiersAreDetermined(seen: set<FileName>, a: map<string, Hlc>, b: map<string, Hlc>)
    requires Tracks(seen, a) && Tracks(seen, b)
    ensures a == b
  {
    TotalOrder();
    forall n | n in a ensures n in b && a[n] == b[n] {
      var f :| f in seen && f.hlc.node == n && f.hlc == a[n];
      var g :| g in seen && g.hlc.node == n && g.hlc == b[n];
    }
    forall n | n in b ensures n in a {
      var g :| g in seen && g.hlc.node == n && g.hlc == b[n];
    }
  }

  /** A file is reported late against its writer exactly when a file of that writer that is not
      older was already seen. */
  lemma LateIffOvertaken(v: View, f: FileName)
    requires Tracks(v.seen, v.frontiers) && v.exact
    ensures LatenessOf(v, f) == Some(BehindWriterFrontier)
       <==> exists g :: g in v.seen && g.hlc.node == f.hlc.node && Leq(f.hlc, g.hlc)
    ensures LatenessOf(v, f) == Some(BehindGlobalHighWater)
       <==> && (forall g :: g in v.seen && g.hlc.node == f.hlc.node ==> Less(g.hlc, f.hlc))
            && v.high.Some? && !Less(v.high.value, f.hlc)
  {
    TotalOrder();
    if f.hlc.node in v.frontiers {
      var g :| g in v.seen && g.hlc.node == f.hlc.node && g.hlc == v.frontiers[f.hlc.node];
    }
  }

  /** A handle is what was saved, and it has exact history from then on. */
  lemma SaveThenLoad(v: View)
    ensures Loaded(Some(Saved(v))) == v.(exact := true) && !Loaded(None).exact && Loaded(None).seen == {}
  {}

  /** Persisting unites what the handle and the store have seen, and keeps the later high water, if and
      only if both are of one generation; a handle of an earlier one, or of one that was wiped out
      since, leaves the store alone. */
  lemma PersistUnitesIff(meta: Option<Record>, v: View)
    ensures v.generation != Generation(meta) ==> Persisted(meta, v) == meta
    ensures v.generation == Generation(meta) ==>
      var r := Persisted(meta, v);
      && r.Some? && r.value.generation == v.generation && r.value.seen == v.seen + SeenIn(meta)
      && (v.high.Some? ==> r.value.high.Some? && Leq(v.high.value, r.value.high.value))
      && (meta.Some? && meta.value.high.Some? ==> r.value.high.Some? && Leq(meta.value.high.value, r.value.high.value))
      && (r.value.high == v.high || (meta.Some? && r.value.high == meta.value.high))
  {
    TotalOrder();
    hide Less;
  }

  /** A restored record: the next generation, exactly the covered files, and a high water that is the
      latest of the snapshot's clock and their stamps. */
  lemma {:induction false} RestoredRecordMeans(meta: Option<Record>, high: Option<Hlc>, files: seq<FileName>)
    ensures var r := RestoredRecord(meta, high, files);
      && r.generation == Generation(meta) + 1 && r.seen == (set f | f in files) && Tracks(r.seen, r.frontiers)
      && (high.Some? ==> r.high.Some? && Leq(high.value, r.high.value))
      && (forall f :: f in files ==> r.high.Some? && Leq(f.hlc, r.high.value))
      && (r.high == high || exists f :: f in files && r.high == Some(f.hlc))
  {
    var view := View(high, {}, map[], true, Generation(meta) + 1);
    NothingTracks();
    ObservedAllTracks(view, files);
    ObservedAllHigh(view, files);
    hide Tracks, ObservedAll, Less;
    assert {} + (set f | f in files) == (set f | f in files);
  }

  lemma {:induction false} ObservedAllHigh(v: View, files: seq<FileName>)
    ensures var h := ObservedAll(v, files).high;
      && (v.high.Some? ==> h.Some? && Leq(v.high.value, h.value))
      && (forall f :: f in files ==> h.Some? && Leq(f.hlc, h.value))
      && (h == v.high || exists f :: f in files && h == Some(f.hlc))
  {
    TotalOrder();
    hide Less;
    if files != [] {
      var n := |files| - 1;
      assert files == files[..n] + [files[n]];
      ObservedAllHigh(v, files[..n]);
    }
  }

  // ---- Many handles on one store ------------------------------------------------------------

  datatype System = System(meta: Option<Record>, handles: map<nat, View>)

  /** Every step except `Observe` runs under the ledger's lock and is atomic to the others. */
  datatype Step =
    | Load(h: nat)
    | Observe(h: nat, name: Name, stamp: Hlc)
    | Persist(h: nat)
    | Reset
    | ClearAll
    | RestoreSnapshot(high: Option<Hlc>, names: seq<Name>)
    | Wipe   // the engine empties the store behind the ledger's back, or stops inside a clear

  /** A restore has already emptied the store when it meets a name it cannot read. */
  function MetaAfter(s: System, step: Step): Option<Record> {
    match step
    case Load(_) => s.meta
    case Observe(_, _, _) => s.meta
    case Persist(h) => if h in s.handles then Persisted(s.meta, s.handles[h]) else s.meta
    case Reset => Some(Empty(Generation(s.meta) + 1))
    case ClearAll => Some(Empty(Generation(s.meta) + 1))
    case RestoreSnapshot(high, names) =>
      if AllChangeFiles(names) then Some(RestoredRecord(s.meta, high, FilesOf(names))) else None
    case Wipe => None
  }

  function HandlesAfter(s: System, step: Step): map<nat, View> {
    match step
    case Load(h) => if h in s.handles then s.handles else s.handles[h := Loaded(s.meta)]
    case Observe(h, name, stamp) =>
      if h in s.handles && name.ChangeFile? then s.handles[h := Observed(s.handles[h], name.file, stamp)] else s.handles
    case Persist(h) =>
      if h in s.handles && s.handles[h].generation == Generation(s.meta) && s.meta.Some?
      then s.handles[h := Absorbed(s.handles[h], s.meta.value)] else s.handles
    case _ => s.handles
  }

  function Do(s: System, step: Step): System { System(MetaAfter(s, step), HandlesAfter(s, step)) }

  function Exec(s: System, run: seq<Step>): System {
    if run == [] then s else Do(Exec(s, run[..|run| - 1]), run[|run| - 1])
  }

  ghost predicate Tracked(s: System) {
    && (s.meta.Some? ==> Tracks(s.meta.value.seen, s.meta.value.frontiers))
    && (forall h :: h in s.handles ==> Tracks(s.handles[h].seen, s.handles[h].frontiers))
  }

  lemma StepKeepsTracked(s: System, step: Step)
    requires Tracked(s)
    ensures Tracked(Do(s, step))
  {
    hide Tracks, Later, Advance, ObservedAll;
    assert Tracks({}, map[]) by { NothingTracks(); }
    if step.Observe? && step.h in s.handles && step.name.ChangeFile? {
      ObservedTracks(s.handles[step.h], step.name.file, step.stamp);
    } else if step.Persist? && step.h in s.handles && s.meta.Some? {
      var v := s.handles[step.h];
      LaterTracks(v.seen, v.frontiers, s.meta.value.seen, s.meta.value.frontiers);
    } else if step.RestoreSnapshot? && AllChangeFiles(step.names) {
      ObservedAllTracks(View(step.high, {}, map[], true, Generation(s.meta) + 1), FilesOf(step.names));
    }
  }

  lemma NothingTracks()
    ensures Tracks({}, map[])
  {}

  /** In every reachable state, wipes included, every frontier in the store and in every handle
      is the greatest stamp of its writer's seen files. */
  lemma {:induction false} RunKeepsTracked(run: seq<Step>)
    ensures Tracked(Exec(System(None, map[]), run))
  {
    if run != [] {
      RunKeepsTracked(run[..|run| - 1]);
      StepKeepsTracked(Exec(System(None, map[]), run[..|run| - 1]), run[|run| - 1]);
    }
  }

  // ---- Generations ------------------------------------------------------------------------

  /** Steps that leave the store without a record. */
  predicate Erases(step: Step) {
    step.Wipe? || (step.RestoreSnapshot? && !AllChangeFiles(step.names))
  }

  ghost predicate NothingErased(run: seq<Step>) { forall i :: 0 <= i < |run| ==> !Erases(run[i]) }

  /** The generation falls exactly when a step erases a record that had one. */
  lemma GenerationFallsIffErased(s: System, step: Step)
    ensures Generation(Do(s, step).meta) < Generation(s.meta) <==> Erases(step) && Generation(s.meta) > 0
  {
    if step.RestoreSnapshot? && AllChangeFiles(step.names) {
      NothingTracks();
      ObservedAllTracks(View(step.high, {}, map[], true, Generation(s.meta) + 1), FilesOf(step.names));
    }
  }

  ghost predicate Extends(a: Option<Record>, b: Option<Record>) {
    && Generation(a) <= Generation(b)
    && (Generation(a) == Generation(b) ==>
          && SeenIn(a) <= SeenIn(b)
          && (a.Some? ==> b.Some? && forall n :: n in a.value.frontiers ==>
                n in b.value.frontiers && Leq(a.value.frontiers[n], b.value.frontiers[n])))
  }

  lemma StepExtends(s: System, step: Step)
    requires !Erases(step)
    ensures Extends(s.meta, Do(s, step).meta)
    ensures forall h :: h in s.handles ==> h in Do(s, step).handles
    ensures forall h :: h in s.handles ==> s.handles[h].generation == Do(s, step).handles[h].generation
  {
    GenerationFallsIffErased(s, step);
    TotalOrder();
    hide Less;
    if step.RestoreSnapshot? {
      NothingTracks();
      ObservedAllTracks(View(step.high, {}, map[], true, Generation(s.meta) + 1), FilesOf(step.names));
    }
  }

  lemma ExtendsTransitive(a: Option<Record>, b: Option<Record>, c: Option<Record>)
    requires Extends(a, b) && Extends(b, c)
    ensures Extends(a, c)
  {
    TotalOrder();
    hide Less;
  }

  /** Over any run that erases nothing the generation never decreases; within one generation the
      seen files only grow and the frontiers only advance; handles keep their generation. */
  lemma {:induction false} RunExtends(s: System, run: seq<Step>)
    requires NothingErased(run)
    ensures Extends(s.meta, Exec(s, run).meta)
    ensures forall h :: h in s.handles ==> h in Exec(s, run).handles
    ensures forall h :: h in s.handles ==> s.handles[h].generation == Exec(s, run).handles[h].generation
  {
    TotalOrder();
    hide Less, MetaAfter, HandlesAfter;
    if run != [] {
      var mid := Exec(s, run[..|run| - 1]);
      RunExtends(s, run[..|run| - 1]);
      StepExtends(mid, run[|run| - 1]);
      ExtendsTransitive(s.meta, mid.meta, Exec(s, run).meta);
    }
  }

  /** A handle that has fallen behind never writes again, however the run goes on. */
  lemma StaleHandleNeverWrites(s: System, h: nat, run: seq<Step>)
    requires h in s.handles && s.handles[h].generation < Generation(s.meta) && NothingErased(run)
    ensures var t := Exec(s, run); h in t.handles && Do(t, Persist(h)) == t
  {
    RunExtends(s, run);
  }

  /** Once persisted, an observation stays in the store for the rest of its generation. */
  lemma PersistedObservationsAreKept(s: System, h: nat, run: seq<Step>)
    requires h in s.handles && s.handles[h].generation == Generation(s.meta) && NothingErased(run)
    ensures var t := Exec(Do(s, Persist(h)), run);
            Generation(t.meta) == Generation(s.meta) ==> s.handles[h].seen + SeenIn(s.meta) <= SeenIn(t.meta)
  {
    RunExtends(Do(s, Persist(h)), run);
  }

  /** No handle is ever ahead of the store. */
  ghost predicate NoneAhead(s: System) { forall h :: h in s.handles ==> s.handles[h].generation <= Generation(s.meta) }

  lemma {:induction false} RunKeepsNoneAhead(s: System, run: seq<Step>)
    requires NoneAhead(s) && NothingErased(run)
    ensures NoneAhead(Exec(s, run))
  {
    if run != [] {
      var mid, step := Exec(s, run[..|run| - 1]), run[|run| - 1];
      RunKeepsNoneAhead(s, run[..|run| - 1]);
      StepExtends(mid, step);
      forall h | h in Do(mid, step).handles ensures Do(mid, step).handles[h].generation <= Generation(Do(mid, step).meta) {
        if h in mid.handles { assert mid.handles[h].generation <= Generation(mid.meta); }
      }
      hide Extends;
    }
  }

  /** Wiping the store restarts the generations, so a handle from before two resets counts as
      current again and its observations return to the store. */
  lemma WipeRevivesStaleHandle(f: FileName)
    ensures
      var before := Exec(System(None, map[]), [Reset, Load(0), Observe(0, ChangeFile(f), f.hlc), Reset]);
      && Do(before, Persist(0)) == before
      && f in SeenIn(Do(Do(Do(before, Wipe), Reset), Persist(0)).meta)
  {
    var start := System(None, map[]);
    var run := [Reset, Load(0), Observe(0, ChangeFile(f), f.hlc), Reset];
    assert run[..3] == [Reset, Load(0), Observe(0, ChangeFile(f), f.hlc)];
    assert run[..3][..2] == [Reset, Load(0)];
    assert run[..3][..2][..1] == [Reset];
    assert Exec(start, [Reset]) == Do(start, Reset) by { assert [Reset][..0] == []; }
    assert Exec(start, run[..3]) == Do(Do(Do(start, Reset), Load(0)), Observe(0, ChangeFile(f), f.hlc));
    assert Exec(start, run) == Do(Exec(start, run[..3]), Reset);
  }

  // ---- High water ---------------------------------------------------------------------------

  ghost predicate AtMost(seen: set<FileName>, high: Option<Hlc>) {
    forall f :: f in seen ==> high.Some? && Leq(f.hlc, high.value)
  }

  ghost predicate BelowHigh(s: System) {
    && (s.meta.Some? ==> AtMost(s.meta.value.seen, s.meta.value.high))
    && (forall h :: h in s.handles ==> AtMost(s.handles[h].seen, s.handles[h].high))
  }

  /** Each observed file holds the stamp that its name carries. */
  ghost predicate Honest(run: seq<Step>) {
    forall i :: 0 <= i < |run| && run[i].Observe? && run[i].name.ChangeFile? ==> run[i].stamp == run[i].name.file.hlc
  }

  lemma {:induction false} ObservedAllBelowHigh(v: View, files: seq<FileName>)
    requires AtMost(v.seen, v.high)
    ensures AtMost(ObservedAll(v, files).seen, ObservedAll(v, files).high)
  {
    TotalOrder();
    hide Less;
    if files != [] {
      ObservedAllBelowHigh(v, files[..|files| - 1]);
    }
  }

  lemma StepKeepsBelowHigh(s: System, step: Step)
    requires BelowHigh(s)
    requires step.Observe? && step.name.ChangeFile? ==> step.stamp == step.name.file.hlc
    ensures BelowHigh(Do(s, step))
  {
    TotalOrder();
    hide Less, Later, Advance, ObservedAll;
    if step.RestoreSnapshot? && AllChangeFiles(step.names) {
      ObservedAllBelowHigh(View(step.high, {}, map[], true, Generation(s.meta) + 1), FilesOf(step.names));
    }
  }

  /** The high water never lags behind a seen file. */
  lemma {:induction false} RunKeepsBelowHigh(run: seq<Step>)
    requires Honest(run)
    ensures BelowHigh(Exec(System(None, map[]), run))
  {
    if run != [] {
      RunKeepsBelowHigh(run[..|run| - 1]);
      StepKeepsBelowHigh(Exec(System(None, map[]), run[..|run| - 1]), run[|run| - 1]);
    }
  }

  // ---- The classes ----------------------------------------------------------------------------

  class Store {
    var meta: Option<Record>

    constructor ()
      ensures meta == None
    {
      meta := None;
    }

    method Reset()
      modifies this
      ensures meta == Some(Empty(Generation(old(meta)) + 1))
    {
      var generation := (if meta.Some? then meta.value.generation else 0) + 1;
      meta := Some(Record(generation, None, {}, map[]));
    }

    /** Restore the ledger from a snapshot; the store is emptied first and stays empty on a bad name. */
    method RestoreSnapshot(high: Option<Hlc>, names: seq<Name>) returns (ok: bool)
      modifies this
      ensures ok == AllChangeFiles(names)
      ensures meta == MetaAfter(System(old(meta), map[]), Step.RestoreSnapshot(high, names))
    {
      hide Observed, LatenessOf;
      var generation := (if meta.Some? then meta.value.generation else 0) + 1;
      meta := None;
      var ledger := new Handle(high, {}, map[], true, generation);
      ghost var first := ledger.Value();
      var i := 0;
      while i < |names|
        invariant 0 <= i <= |names| && AllChangeFiles(names[..i]) && meta == None
        invariant ledger.Value() == ObservedAll(first, FilesOf(names[..i]))
      {
        if names[i].Foreign? {
          return false;
        }
        ghost var before := FilesOf(names[..i]);
        assert FilesOf(names[..i + 1]) == before + [names[i].file];
        assert (before + [names[i].file])[..i] == before;
        var _ := ledger.Observe(names[i].file, names[i].file.hlc);
        i := i + 1;
      }
      assert names[..i] == names;
      meta := Some(Record(generation, ledger.high, ledger.seen, ledger.frontiers));
      assert ledger.Value().generation == generation;
      return true;
    }
  }

  class Handle {
    var high: Option<Hlc>
    var seen: set<FileName>
    var frontiers: map<string, Hlc>
    const exact: bool
    const generation: nat

    constructor (high: Option<Hlc>, seen: set<FileName>, frontiers: map<string, Hlc>, exact: bool, generation: nat)
      ensures Value() == View(high, seen, frontiers, exact, generation)
    {
      this.high, this.seen, this.frontiers, this.exact, this.generation := high, seen, frontiers, exact, generation;
    }

    constructor Load(store: Store)
      ensures Value() == Loaded(store.meta)
    {
      var m := store.meta;
      high := if m.Some? then m.value.high else None;
      seen := if m.Some? then m.value.seen else {};
      frontiers := if m.Some? then m.value.frontiers else map[];
      exact := m.Some?;
      generation := if m.Some? then m.value.generation else 0;
    }

    function Value(): View
      reads this
    {
      View(high, seen, frontiers, exact, generation)
    }

    method Observe(f: FileName, stamp: Hlc) returns (late: Option<Lateness>)
      modifies this
      ensures Value() == Observed(old(Value()), f, stamp)
      ensures late == LatenessOf(old(Value()), f)
    {
      var node := f.hlc.node;
      var behindWriter := node in frontiers && Leq(f.hlc, frontiers[node]);
      var behindHigh := high.Some? && Leq(f.hlc, high.value);
      late := if exact && (behindWriter || behindHigh)
              then Some(if behindWriter then BehindWriterFrontier else BehindGlobalHighWater) else None;
      if node !in frontiers || Less(frontiers[node], f.hlc) {
        frontiers := frontiers[node := f.hlc];
      }
      if high.None? || Less(high.value, stamp) {
        high := Some(stamp);
      }
      seen := seen + {f};
    }

    /** Write the union of this handle and the stored record, unless the generation moved on. */
    method Persist(store: Store) returns (ok: bool)
      modifies this, store
      ensures ok == (generation == Generation(old(store.meta)))
      ensures store.meta == Persisted(old(store.meta), old(Value()))
      ensures Value() == if ok && old(store.meta).Some? then Absorbed(old(Value()), old(store.meta).value) else old(Value())
    {
      if generation != (if store.meta.Some? then store.meta.value.generation else 0) {
        return false;
      }
      if store.meta.Some? {
        var stored := store.meta.value;
        seen := seen + stored.seen;
        AdvanceAll(stored.frontiers);
        if stored.high.Some? && (high.None? || Less(high.value, stored.high.value)) {
          high := stored.high;
        }
      }
      store.meta := Some(Record(generation, high, seen, frontiers));
      return true;
    }

    method AdvanceAll(stored: map<string, Hlc>)
      modifies `frontiers
      ensures frontiers == Later(old(frontiers), stored)
    {
      var writers := stored.Keys;
      while writers != {}
        invariant writers <= stored.Keys
        invariant frontiers.Keys == old(frontiers).Keys + (stored.Keys - writers)
        invariant forall n :: n in frontiers ==>
          frontiers[n] == if n in writers then old(frontiers)[n] else Later(old(frontiers), stored)[n]
        decreases writers
      {
        var n :| n in writers;
        if n !in frontiers || Less(frontiers[n], stored[n]) {
          frontiers := frontiers[n := stored[n]];
        }
        writers := writers - {n};
      }
    }
  }
}
