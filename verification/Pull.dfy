/** Pulling: list the changes folder, pick the unseen change files in clock order, read them a
    few ahead, and fold each into the rows. */
module Pull {
  import opened Options
  import opened Hlc
  import opened Merge
  import opened WritePath
  import opened Replica
  import opened Ledger
  import T = HlcText
  import R = Retention
  import P = Protocol

  // ---- Order of the listing -------------------------------------------------------------

  /** By stamp, then by file name. Other files sort after the change files; they are dropped anyway. */
  predicate Before(a: Name, b: Name) {
    match (a, b)
    case (ChangeFile(f), ChangeFile(g)) =>
      Less(f.hlc, g.hlc) || (f.hlc == g.hlc && LexLess(f.id + ".json", g.id + ".json"))
    case (ChangeFile(_), Foreign(_)) => true
    case (Foreign(_), ChangeFile(_)) => false
    case (Foreign(s), Foreign(t)) => LexLess(s, t)
  }

  /** The name of a change file as the mailbox lists it. */
  function NameText(f: FileName): string { T.FileText(T.Format(f.hlc), f.id) }

  /** The order of files is the order in which the program compares their names. */
  lemma BeforeIsCompareNames(f: FileName, g: FileName, u: string, v: string)
    requires f.id == "chg_" + u && g.id == "chg_" + v && T.Uuid(u) && T.Uuid(v)
    ensures Before(ChangeFile(f), ChangeFile(g)) <==> T.CompareNames(NameText(f), NameText(g)) < 0
  {
    hide T.Format, T.CompareNames;
    T.SortFollowsClock(f.hlc, u, g.hlc, v);
    Trichotomy(f.hlc, g.hlc);
    if f.hlc == g.hlc { T.SameStampOrder(f.hlc, u, v); }
  }

  lemma SameTail(s: string, t: string)
    requires s + ".json" == t + ".json"
    ensures s == t
  {
    assert (s + ".json")[..|s|] == s && (t + ".json")[..|t|] == t;
  }

  lemma BeforeTotal(a: Name, b: Name)
    ensures !(Before(a, b) && Before(b, a))
    ensures !Before(a, b) && !Before(b, a) ==> a == b
    ensures !Before(a, a)
  {
    match (a, b)
    case (ChangeFile(f), ChangeFile(g)) => {
      Trichotomy(f.hlc, g.hlc);
      LexTrichotomy(f.id + ".json", g.id + ".json");
      LexTrichotomy(f.id + ".json", f.id + ".json");
      Trichotomy(f.hlc, f.hlc);
      if f.id + ".json" == g.id + ".json" { SameTail(f.id, g.id); }
    }
    case (Foreign(s), Foreign(t)) => {
      LexTrichotomy(s, t);
      LexTrichotomy(s, s);
    }
    case (Foreign(s), ChangeFile(_)) => {
      LexTrichotomy(s, s);
    }
    case (ChangeFile(f), Foreign(_)) => {
      LexTrichotomy(f.id + ".json", f.id + ".json");
      Trichotomy(f.hlc, f.hlc);
    }
  }

  lemma BeforeTransitive(a: Name, b: Name, c: Name)
    requires Before(a, b) && Before(b, c)
    ensures Before(a, c)
  {
    match (a, b, c)
    case (ChangeFile(f), ChangeFile(g), ChangeFile(h)) => {
      TotalOrder();
      hide Less;
      if f.hlc == g.hlc == h.hlc {
        LexTransitive(f.id + ".json", g.id + ".json", h.id + ".json");
      }
    }
    case (Foreign(s), Foreign(t), Foreign(u)) => {
      LexTransitive(s, t, u);
    }
    case _ =>
  }

  ghost predicate Sorted(s: seq<Name>) { forall i, j :: 0 <= i < j < |s| ==> !Before(s[j], s[i]) }

  function Insert(s: seq<Name>, x: Name): seq<Name> {
    if s == [] then [x]
    else var n := |s| - 1; if Before(x, s[n]) then Insert(s[..n], x) + [s[n]] else s + [x]
  }

  /** The stable sort of the listing. */
  function Sort(s: seq<Name>): seq<Name> {
    if s == [] then [] else Insert(Sort(s[..|s| - 1]), s[|s| - 1])
  }

  lemma NotBeforeEarlier(s: seq<Name>, x: Name, i: nat)
    requires Sorted(s) && i < |s| && !Before(x, s[|s| - 1])
    ensures !Before(x, s[i])
  {
    hide Before;
    var last := s[|s| - 1];
    BeforeTotal(x, last);
    BeforeTotal(s[i], last);
    if Before(x, s[i]) && x != last { BeforeTransitive(last, x, s[i]); }
  }

  lemma AppendSorted(t: seq<Name>, y: Name)
    requires Sorted(t) && forall i :: 0 <= i < |t| ==> !Before(y, t[i])
    ensures Sorted(t + [y])
  {
    hide Before;
  }

  lemma {:induction false} InsertSorts(s: seq<Name>, x: Name)
    requires Sorted(s)
    ensures Sorted(Insert(s, x)) && multiset(Insert(s, x)) == multiset(s) + multiset{x}
  {
    hide Before;
    if s != [] {
      var n := |s| - 1;
      assert s == s[..n] + [s[n]];
      if Before(x, s[n]) {
        InsertSorts(s[..n], x);
        var t := Insert(s[..n], x);
        forall i | 0 <= i < |t| ensures !Before(s[n], t[i]) {
          assert t[i] in multiset(t);
          if t[i] == x { BeforeTotal(x, s[n]); }
        }
        AppendSorted(t, s[n]);
      } else {
        forall i | 0 <= i < |s| ensures !Before(x, s[i]) { NotBeforeEarlier(s, x, i); }
        AppendSorted(s, x);
      }
    }
  }

  lemma {:induction false} SortSorts(s: seq<Name>)
    ensures Sorted(Sort(s)) && multiset(Sort(s)) == multiset(s)
  {
    if s != [] {
      var n := |s| - 1;
      assert s == s[..n] + [s[n]];
      SortSorts(s[..n]);
      InsertSorts(Sort(s[..n]), s[n]);
    }
  }

  // ---- The queue ------------------------------------------------------------------------

  /** The unseen change files of a listing, each once. */
  function Unseen(names: seq<Name>, seen: set<FileName>): seq<FileName> {
    if names == [] then []
    else
      var n := |names| - 1;
      var q := Unseen(names[..n], seen);
      if names[n].ChangeFile? && names[n].file !in seen && names[n] !in names[..n] then q + [names[n].file] else q
  }

  /** What one pull will read. */
  function Queue(listing: seq<Name>, seen: set<FileName>): seq<FileName> { Unseen(Sort(listing), seen) }

  method BuildQueue(names: seq<Name>, seen: set<FileName>) returns (q: seq<FileName>)
    ensures q == Unseen(names, seen)
  {
    var listed: set<Name> := {};
    q := [];
    for i := 0 to |names|
      invariant q == Unseen(names[..i], seen)
      invariant forall x :: x in listed <==> x in names[..i]
    {
      assert names[..i + 1][..i] == names[..i] && names[..i + 1] == names[..i] + [names[i]];
      if names[i] !in listed {
        listed := listed + {names[i]};
        if names[i].ChangeFile? && names[i].file !in seen {
          q := q + [names[i].file];
        }
      }
    }
    assert names[..|names|] == names;
  }

  ghost predicate Ascending(q: seq<FileName>) {
    forall i, j :: 0 <= i < j < |q| ==> Before(ChangeFile(q[i]), ChangeFile(q[j]))
  }

  lemma {:induction false} UnseenExact(names: seq<Name>, seen: set<FileName>)
    ensures forall f :: f in Unseen(names, seen) <==> ChangeFile(f) in names && f !in seen
  {
    if names != [] {
      var n := |names| - 1;
      assert names == names[..n] + [names[n]];
      UnseenExact(names[..n], seen);
    }
  }

  lemma {:induction false} UnseenAscending(names: seq<Name>, seen: set<FileName>)
    requires Sorted(names)
    ensures Ascending(Unseen(names, seen))
  {
    hide Before;
    if names != [] {
      var n := |names| - 1;
      var q := Unseen(names[..n], seen);
      UnseenAscending(names[..n], seen);
      UnseenExact(names[..n], seen);
      if names[n].ChangeFile? && names[n] !in names[..n] {
        forall i | 0 <= i < |q| ensures Before(ChangeFile(q[i]), names[n]) {
          assert q[i] in q;
          var k :| 0 <= k < n && names[..n][k] == ChangeFile(q[i]);
          BeforeTotal(names[k], names[n]);
        }
      }
    }
  }

  /** The queue holds exactly the unseen change files of the listing, whatever its order and
      duplicates, each once and in clock order. */
  lemma QueueExact(listing: seq<Name>, seen: set<FileName>)
    ensures forall f :: f in Queue(listing, seen) <==> ChangeFile(f) in listing && f !in seen
    ensures var q := Queue(listing, seen);
            forall i, j :: 0 <= i < j < |q| ==> q[i] != q[j] && Leq(q[i].hlc, q[j].hlc)
  {
    SortSorts(listing);
    UnseenExact(Sort(listing), seen);
    UnseenAscending(Sort(listing), seen);
    forall x ensures x in Sort(listing) <==> x in listing {
      assert x in multiset(Sort(listing)) <==> x in multiset(listing);
    }
    var q := Queue(listing, seen);
    forall i, j | 0 <= i < j < |q| ensures q[i] != q[j] && Leq(q[i].hlc, q[j].hlc) {
      BeforeTotal(ChangeFile(q[i]), ChangeFile(q[j]));
      Trichotomy(q[i].hlc, q[j].hlc);
    }
  }

  // ---- Folding the files ------------------------------------------------------------------

  datatype Progress = Progress(rows: Rows, clock: Hlc, view: View)

  /** A pull that fails has already stored the rows of the files before the one it failed on. */
  datatype Outcome = Complete(progress: Progress) | Failed(rows: Rows)

  /** Fold one file: receive its stamp, merge its ops, observe its name. A file that is gone or
      does not merge is an error. */
  function FoldFile(p: Progress, f: FileName, contents: map<FileName, Change>, now: nat): Option<Progress> {
    if f !in contents then None
    else
      match ApplyOps(p.rows, contents[f].ops)
      case Err(_) => None
      case Ok(rows) =>
        Some(Progress(rows, Receive(p.clock, contents[f].hlc, now), Observed(p.view, f, contents[f].hlc)))
  }

  function FoldFiles(p: Progress, files: seq<FileName>, contents: map<FileName, Change>, wall: FileName -> nat): Outcome {
    if files == [] then Complete(p)
    else
      var n := |files| - 1;
      match FoldFiles(p, files[..n], contents, wall)
      case Failed(rows) => Failed(rows)
      case Complete(q) =>
        match FoldFile(q, files[n], contents, wall(files[n]))
        case None => Failed(q.rows)
        case Some(next) => Complete(next)
  }

  lemma {:induction false} FailureSticks(p: Progress, files: seq<FileName>, k: nat, contents: map<FileName, Change>,
                                         wall: FileName -> nat)
    requires k <= |files| && FoldFiles(p, files[..k], contents, wall).Failed?
    ensures FoldFiles(p, files, contents, wall) == FoldFiles(p, files[..k], contents, wall)
    decreases |files| - k
  {
    if k == |files| {
      assert files[..k] == files;
    } else {
      assert files[..k + 1][..k] == files[..k];
      FailureSticks(p, files, k + 1, contents, wall);
    }
  }

  /** A pull that fails leaves the rows of exactly the files before the one it failed on. */
  lemma {:induction false} FailureLeavesPrefix(p: Progress, files: seq<FileName>, contents: map<FileName, Change>,
                                               wall: FileName -> nat) returns (k: nat, q: Progress)
    requires FoldFiles(p, files, contents, wall).Failed?
    ensures k < |files| && FoldFiles(p, files[..k], contents, wall) == Complete(q)
    ensures FoldFile(q, files[k], contents, wall(files[k])).None? && FoldFiles(p, files, contents, wall) == Failed(q.rows)
  {
    hide FoldFile;
    var n := |files| - 1;
    if FoldFiles(p, files[..n], contents, wall).Failed? {
      k, q := FailureLeavesPrefix(p, files[..n], contents, wall);
      assert files[..n][..k] == files[..k];
    } else {
      k, q := n, FoldFiles(p, files[..n], contents, wall).progress;
    }
  }

  const AHEAD: nat := 4

  /** Start reading queue entry `k`, unless there is none or it has been started. */
  method Prefetch(queue: seq<FileName>, slots: array<Option<FileName>>, k: nat, fetched: seq<FileName>)
      returns (started: seq<FileName>)
    requires slots.Length == |queue|
    modifies slots
    ensures k < |queue| && old(slots[k]).None? ==>
      slots[..] == old(slots[..])[k := Some(queue[k])] && started == fetched + [queue[k]]
    ensures !(k < |queue| && old(slots[k]).None?) ==> slots[..] == old(slots[..]) && started == fetched
  {
    started := fetched;
    if k >= |queue| || slots[k].Some? {
      return;
    }
    slots[k] := Some(queue[k]);
    started := fetched + [queue[k]];
  }

  /** The window of outstanding reads: started from `lo` on, none at or after `hi`. */
  ghost predicate Window(slots: seq<Option<FileName>>, queue: seq<FileName>, lo: nat, hi: nat) {
    && |slots| == |queue|
    && forall k :: 0 <= k < |queue| ==> slots[k] == if lo <= k < hi then Some(queue[k]) else None
  }

  function Clip(k: nat, n: nat): nat { if k < n then k else n }

  lemma WindowStep(before: seq<Option<FileName>>, after: seq<Option<FileName>>, queue: seq<FileName>, lo: nat, hi: nat)
    requires lo <= hi && Window(before, queue, lo, hi)
    requires hi < |queue| ==> after == before[hi := Some(queue[hi])]
    requires hi >= |queue| ==> after == before
    ensures Window(after, queue, lo, hi + 1)
  {}

  lemma NothingToFold(p: Progress, queue: seq<FileName>, contents: map<FileName, Change>, wall: FileName -> nat)
    ensures FoldFiles(p, queue[..0], contents, wall) == Complete(p)
  {}

  lemma FoldNext(p: Progress, q: Progress, queue: seq<FileName>, h: nat, contents: map<FileName, Change>,
                 wall: FileName -> nat)
    requires h < |queue| && FoldFiles(p, queue[..h], contents, wall) == Complete(q)
    ensures match FoldFile(q, queue[h], contents, wall(queue[h]))
            case None => FoldFiles(p, queue, contents, wall) == Failed(q.rows)
            case Some(next) => FoldFiles(p, queue[..h + 1], contents, wall) == Complete(next)
  {
    hide FoldFile;
    assert queue[..h + 1][..h] == queue[..h];
    if FoldFile(q, queue[h], contents, wall(queue[h])).None? {
      FailureSticks(p, queue, h + 1, contents, wall);
    }
  }

  /** Start the first few reads. */
  method WarmUp(queue: seq<FileName>, slots: array<Option<FileName>>) returns (fetched: seq<FileName>)
    requires slots.Length == |queue| && Window(slots[..], queue, 0, 0)
    modifies slots
    ensures Window(slots[..], queue, 0, AHEAD) && fetched == queue[..Clip(AHEAD, |queue|)]
  {
    fetched := [];
    var h := 0;
    while h < AHEAD
      invariant 0 <= h <= AHEAD && Window(slots[..], queue, 0, h) && fetched == queue[..Clip(h, |queue|)]
    {
      ghost var before := slots[..];
      fetched := Prefetch(queue, slots, h, fetched);
      WindowStep(before, slots[..], queue, 0, h);
      h := h + 1;
    }
  }

  /** The loop of a pull. `fetched` is the trace of files whose read was started, and `peak` the
      greatest number of reads that were outstanding at once. */
  method FoldAhead(p: Progress, queue: seq<FileName>, contents: map<FileName, Change>, wall: FileName -> nat)
      returns (out: Outcome, fetched: seq<FileName>, peak: nat)
    ensures out == FoldFiles(p, queue, contents, wall)
    ensures fetched == queue[..Clip(|fetched|, |queue|)]
    ensures out.Complete? ==> fetched == queue && peak == Clip(5, |queue|)
    ensures peak <= 5
  {
    hide FoldFiles, FoldFile;
    var slots := new Option<FileName>[|queue|](_ => None);
    fetched := WarmUp(queue, slots);
    peak := |fetched|;
    var h := 0;
    var q := p;
    NothingToFold(p, queue, contents, wall);
    while h < |queue|
      invariant 0 <= h <= |queue| && Window(slots[..], queue, h, h + AHEAD)
      invariant fetched == queue[..Clip(h + AHEAD, |queue|)]
      invariant peak == Clip(if h == 0 then 4 else 5, |queue|)
      invariant FoldFiles(p, queue[..h], contents, wall) == Complete(q)
    {
      ghost var before := slots[..];
      fetched := Prefetch(queue, slots, h + AHEAD, fetched);
      WindowStep(before, slots[..], queue, h, h + AHEAD);
      peak := if |fetched| - h > peak then |fetched| - h else peak;
      var file := slots[h].value;
      slots[h] := None;
      FoldNext(p, q, queue, h, contents, wall);
      var next := FoldFile(q, file, contents, wall(file));
      if next.None? {
        return Failed(q.rows), fetched, peak;
      }
      q, h := next.value, h + 1;
    }
    assert queue[..h] == queue;
    out := Complete(q);
  }

  /** One pull over a listing: each unseen change file is read at most once and folded in clock
      order, and at most five reads are outstanding. */
  method PullFiles(p: Progress, listing: seq<Name>, contents: map<FileName, Change>, wall: FileName -> nat)
      returns (out: Outcome, fetched: seq<FileName>, peak: nat)
    ensures out == FoldFiles(p, Queue(listing, p.view.seen), contents, wall)
    ensures out.Complete? ==> fetched == Queue(listing, p.view.seen)
    ensures forall i, j :: 0 <= i < j < |fetched| ==> fetched[i] != fetched[j]
    ensures forall f :: f in fetched ==> ChangeFile(f) in listing && f !in p.view.seen
    ensures peak <= 5 && (out.Complete? ==> peak == Clip(5, |fetched|))
  {
    var queue := BuildQueue(Sort(listing), p.view.seen);
    QueueExact(listing, p.view.seen);
    out, fetched, peak := FoldAhead(p, queue, contents, wall);
    assert forall i :: 0 <= i < |fetched| ==> fetched[i] == queue[i];
    forall f | f in fetched ensures f in queue {}
  }

  // ---- Pulling again, and not pulling at all -----------------------------------------------

  lemma {:induction false} FoldSees(p: Progress, files: seq<FileName>, contents: map<FileName, Change>, wall: FileName -> nat)
    ensures var o := FoldFiles(p, files, contents, wall);
            o.Complete? ==> o.progress.view.seen == p.view.seen + (set f | f in files)
                            && o.progress.view.generation == p.view.generation
  {
    if files != [] {
      var n := |files| - 1;
      assert files == files[..n] + [files[n]];
      FoldSees(p, files[..n], contents, wall);
    }
  }

  lemma EmptyQueueIff(listing: seq<Name>, seen: set<FileName>)
    ensures Queue(listing, seen) == [] <==> forall f :: ChangeFile(f) in listing ==> f in seen
  {
    QueueExact(listing, seen);
    var q := Queue(listing, seen);
    if q != [] { assert q[0] in q; }
  }

  /** A completed pull, persisted and loaded again, leaves nothing for an immediate second one:
      it fetched no file and changes neither rows nor clock nor ledger. */
  lemma SecondPullChangesNothing(p: Progress, meta: Option<Record>, listing: seq<Name>, contents: map<FileName, Change>,
                                 wall: FileName -> nat, again: FileName -> nat)
    requires p.view == Loaded(meta)
    requires FoldFiles(p, Queue(listing, p.view.seen), contents, wall).Complete?
    ensures var first := FoldFiles(p, Queue(listing, p.view.seen), contents, wall).progress;
            var reloaded := first.(view := Loaded(Persisted(meta, first.view)));
            && Queue(listing, reloaded.view.seen) == []
            && FoldFiles(reloaded, Queue(listing, reloaded.view.seen), contents, again) == Complete(reloaded)
            && reloaded.view.seen == first.view.seen
  {
    var q := Queue(listing, p.view.seen);
    QueueExact(listing, p.view.seen);
    FoldSees(p, q, contents, wall);
    var first := FoldFiles(p, q, contents, wall).progress;
    var seen := Loaded(Persisted(meta, first.view)).seen;
    assert seen == first.view.seen;
    EmptyQueueIff(listing, seen);
    hide Queue;
  }

  datatype MeshManifest = MeshManifest(meshId: string, encrypted: bool)

  /** The state that decides whether connecting may skip its pull. `loaded` is none when the remote
      manifest could not be loaded; `known` is the manifest in memory or in the local store. */
  datatype Connecting = Connecting(
    known: Option<MeshManifest>, encrypted: bool, loaded: Option<MeshManifest>,
    view: View, last: R.SyncTime, now: int, limit: int, outboxSize: nat, pending: bool, head: Option<Hlc>)

  method HasUnseenChange(view: View, listing: seq<Name>) returns (found: bool)
    ensures found <==> exists f :: ChangeFile(f) in listing && f !in view.seen
  {
    for i := 0 to |listing|
      invariant forall f :: ChangeFile(f) in listing[..i] ==> f in view.seen
    {
      if listing[i].ChangeFile? && listing[i].file !in view.seen {
        assert ChangeFile(listing[i].file) in listing;
        return true;
      }
      assert listing[..i + 1] == listing[..i] + [listing[i]];
    }
    assert listing[..|listing|] == listing;
    return false;
  }

  ghost predicate FastPath(c: Connecting, listing: seq<Name>) {
    && c.known.Some? && c.known.value.encrypted == c.encrypted
    && c.loaded.Some? && c.loaded.value.meshId == c.known.value.meshId
    && c.view.high.Some? && c.view.exact && !R.Expired(c.last, c.now, c.limit) && c.outboxSize == 0 && !c.pending
    && c.head.Some? && Leq(c.head.value, c.view.high.value)
    && !exists f :: ChangeFile(f) in listing && f !in c.view.seen
  }

  method TryFastPath(c: Connecting, listing: seq<Name>) returns (taken: bool)
    ensures taken <==> FastPath(c, listing)
  {
    if c.known.None? || c.known.value.encrypted != c.encrypted {
      return false;
    }
    if c.loaded.None? || c.loaded.value.meshId != c.known.value.meshId {
      return false;
    }
    if c.view.high.None? || !c.view.exact || R.Expired(c.last, c.now, c.limit) || c.outboxSize > 0 || c.pending {
      return false;
    }
    if c.head.None? || !Leq(c.head.value, c.view.high.value) {
      return false;
    }
    var unseen := HasUnseenChange(c.view, listing);
    return !unseen;
  }

  /** When connecting skips its pull, the pull it skipped would have merged nothing. */
  lemma FastPathSkipsNothing(c: Connecting, listing: seq<Name>, p: Progress, contents: map<FileName, Change>, wall: FileName -> nat)
    requires FastPath(c, listing) && p.view == c.view
    ensures FoldFiles(p, Queue(listing, p.view.seen), contents, wall) == Complete(p)
  {
    EmptyQueueIff(listing, p.view.seen);
  }

  /** Nor is there anything else to do: a device in that state has nothing to flush and nothing to set
      aside, with or without its open batch, and was in touch within the offline limit. */
  lemma FastPathLeavesNothingBehind(c: Connecting, listing: seq<Name>, d: R.Device, published: bool)
    requires FastPath(c, listing) && d.last == c.last && d.now == c.now
    requires |d.queue| == c.outboxSize && d.pending.Some? == c.pending
    ensures R.QueuedOf(d) == [] && R.Do(R.Do(d, R.Close, c.limit), R.Flush(published), c.limit) == d
    ensures d.last.Never? || (d.last.At? && d.now <= d.last.ms + c.limit)
  {}

  // ---- The pull of the protocol ----------------------------------------------------------------

  function ChangesIn(files: seq<FileName>, contents: map<FileName, Change>): (cs: seq<Change>)
    requires forall f :: f in files ==> f in contents
    ensures |cs| == |files| && forall i :: 0 <= i < |files| ==> cs[i] == contents[files[i]]
  {
    seq(|files|, i requires 0 <= i < |files| => contents[files[i]])
  }

  function Times(files: seq<FileName>, wall: FileName -> nat): (ts: seq<nat>)
    ensures |ts| == |files|
  {
    seq(|files|, i requires 0 <= i < |files| => wall(files[i]))
  }

  lemma {:induction false} AllOpsOfAppend(cs: seq<Change>, c: Change)
    ensures AllOpsOf(cs + [c]) == AllOpsOf(cs) + c.ops
  {
    if cs == [] {
      assert [] + [c] == [c] && [c][1..] == [];
    } else {
      assert (cs + [c])[1..] == cs[1..] + [c];
      AllOpsOfAppend(cs[1..], c);
    }
  }

  lemma {:induction false} ReceiveAllAppend(clock: Hlc, cs: seq<Change>, ts: seq<nat>, c: Change, t: nat)
    requires |cs| == |ts|
    ensures ReceiveAll(clock, cs + [c], ts + [t]) == Receive(ReceiveAll(clock, cs, ts), c.hlc, t)
    decreases |cs|
  {
    if cs == [] {
      assert [] + [c] == [c] && [c][1..] == [] && [] + [t] == [t] && [t][1..] == [];
    } else {
      assert (cs + [c])[1..] == cs[1..] + [c] && (ts + [t])[1..] == ts[1..] + [t];
      ReceiveAllAppend(Receive(clock, cs[0].hlc, ts[0]), cs[1..], ts[1..], c, t);
    }
  }

  /** File by file or all at once: the same rows and the same clock. */
  lemma {:induction false} FoldMeansReplay(p: Progress, files: seq<FileName>, contents: map<FileName, Change>, wall: FileName -> nat)
    requires FoldFiles(p, files, contents, wall).Complete?
    ensures forall f :: f in files ==> f in contents
    ensures var cs := ChangesIn(files, contents); var q := FoldFiles(p, files, contents, wall).progress;
            && ApplyOps(p.rows, AllOpsOf(cs)) == Ok(q.rows)
            && ReceiveAll(p.clock, cs, Times(files, wall)) == q.clock
  {
    if files != [] {
      hide FoldFile, ApplyOps, ReceiveAll, AllOpsOf;
      var n := |files| - 1;
      var front, last := files[..n], files[n];
      FoldMeansReplay(p, front, contents, wall);
      var q := FoldFiles(p, front, contents, wall).progress;
      assert files == front + [last];
      FileMeans(q, last, contents, wall(last));
      var cs, ts := ChangesIn(front, contents), Times(front, wall);
      assert ChangesIn(files, contents) == cs + [contents[last]] && Times(files, wall) == ts + [wall(last)];
      hide FoldFiles, ChangesIn, Times;
      ReplayOneMore(p, q, cs, ts, contents[last], wall(last));
    }
  }

  lemma FileMeans(q: Progress, f: FileName, contents: map<FileName, Change>, now: nat)
    requires FoldFile(q, f, contents, now).Some?
    ensures f in contents && ApplyOps(q.rows, contents[f].ops) == Ok(FoldFile(q, f, contents, now).value.rows)
    ensures FoldFile(q, f, contents, now).value.clock == Receive(q.clock, contents[f].hlc, now)
  {}

  lemma ReplayOneMore(p: Progress, q: Progress, cs: seq<Change>, ts: seq<nat>, c: Change, now: nat)
    requires |cs| == |ts| && ApplyOps(p.rows, AllOpsOf(cs)) == Ok(q.rows) && ReceiveAll(p.clock, cs, ts) == q.clock
    requires ApplyOps(q.rows, c.ops).Ok?
    ensures ApplyOps(p.rows, AllOpsOf(cs + [c])) == ApplyOps(q.rows, c.ops)
    ensures ReceiveAll(p.clock, cs + [c], ts + [now]) == Receive(q.clock, c.hlc, now)
  {
    hide ApplyOps, ReceiveAll, AllOpsOf, Receive;
    AllOpsOfAppend(cs, c);
    ApplyOpsSplit(p.rows, AllOpsOf(cs), c.ops);
    ReceiveAllAppend(p.clock, cs, ts, c, now);
  }

  /** Each file in the mailbox holds the change it is named after. */
  ghost predicate WellNamed(contents: map<FileName, Change>) { forall f :: f in contents ==> NameOf(contents[f]) == f }

  lemma NamesOfFiles(files: seq<FileName>, contents: map<FileName, Change>)
    requires WellNamed(contents) && forall f :: f in files ==> f in contents
    ensures forall f :: f in Names(ChangesIn(files, contents)) <==> f in files
    ensures forall c :: c in ChangesIn(files, contents) ==> NameOf(c) in contents && contents[NameOf(c)] == c
  {
    var cs := ChangesIn(files, contents);
    forall f | f in files ensures f in Names(cs) {
      var i :| 0 <= i < |files| && files[i] == f;
      assert cs[i] in cs && NameOf(cs[i]) == f;
    }
    forall c | c in cs ensures NameOf(c) in files && contents[NameOf(c)] == c {
      var i :| 0 <= i < |cs| && cs[i] == c;
      assert files[i] in files;
    }
  }

  lemma QueueIsListing(m: P.Remote, listing: seq<Name>, seen: set<FileName>)
    requires WellNamed(m.changes) && forall f :: ChangeFile(f) in listing <==> f in m.changes
    ensures var files := Queue(listing, seen);
            && (forall f :: f in files ==> f in m.changes)
            && var cs := ChangesIn(files, m.changes);
               P.Listing(m, cs) && Names(cs) == m.changes.Keys - seen
  {
    var files := Queue(listing, seen);
    QueueExact(listing, seen);
    hide Queue;
    NamesOfFiles(files, m.changes);
    var cs := ChangesIn(files, m.changes);
    forall x, y | 0 <= x < y < |cs| ensures NameOf(cs[x]) != NameOf(cs[y]) {
      assert files[x] in files && files[y] in files;
    }
  }

  /** A completed pull over a full listing is the protocol's pull step, with the same result. */
  lemma PullIsProtocolPull(r: Replica, m: P.Remote, listing: seq<Name>, view: View, wall: FileName -> nat)
    requires WellNamed(m.changes) && forall f :: ChangeFile(f) in listing <==> f in m.changes
    requires view.seen == r.seen
    requires FoldFiles(Progress(r.rows, r.clock, view), Queue(listing, r.seen), m.changes, wall).Complete?
    ensures var files := Queue(listing, r.seen); var q := FoldFiles(Progress(r.rows, r.clock, view), files, m.changes, wall).progress;
            && (forall f :: f in files ==> f in m.changes)
            && var cs := ChangesIn(files, m.changes); var ts := Times(files, wall);
               && P.PullsAll(m, r, cs, ts)
               && var after := P.Pulled(r, cs, ts); after.rows == q.rows && after.clock == q.clock && after.seen == q.view.seen
  {
    hide Queue, FoldFiles, ReceiveAll, ApplyOps, AllOpsOf, P.Listing;
    var p, files := Progress(r.rows, r.clock, view), Queue(listing, r.seen);
    FoldMeansReplay(p, files, m.changes, wall);
    FoldSees(p, files, m.changes, wall);
    QueueIsListing(m, listing, r.seen);
    NamesOfFiles(files, m.changes);
  }
}
