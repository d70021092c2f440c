/** The passphrase key provider: a key record in shared storage, a cached key that expires when
    idle, and resolutions that suspend at every await. */
module Passphrase {
  import opened Options
  import opened Aead
  import opened Digits
  import opened HlcText

  const MAXIMUM_ITERATIONS := 10_000_000
  const VERIFIER := "interocitor.passphrase.envelope.verifier.v1"
  const RECORD_VERSION := 1
  const KDF_NAME := "PBKDF2-HMAC-SHA-256"

  /** A passphrase as typed, and its normalized form. */
  datatype Phrase = Phrase(raw: string, normal: string)

  /** The derived key, as an ideal deterministic derivation. */
  datatype Kek = Kek(phrase: string, salt: string, iterations: nat)

  datatype Record = Record(version: nat, namespace: string, kdf: string, iterations: nat, salt: string,
                           iv: string, verifier: Cipher<Kek, string>)

  datatype Purpose = Encrypt | Decrypt

  datatype Error = WrongPassphrase | Locked | MissingRecord | InvalidRecord | NamespaceMismatch | EmptyPassphrase

  /** `idle` is none when expiry is disabled. */
  datatype Config = Config(namespace: string, idle: Option<nat>, iterations: nat, minimum: nat)

  /** What the constructor checks. */
  predicate Accepted(cfg: Config) {
    cfg.namespace != "" && cfg.minimum <= cfg.iterations <= MAXIMUM_ITERATIONS
  }

  // ---- Records --------------------------------------------------------------------------------

  /** Shared storage under the namespace's key. */
  datatype Stored = Nothing | Corrupt | Json(record: Record)

  predicate Base64Url(s: string) {
    s != [] && forall i :: 0 <= i < |s| ==>
      'a' <= s[i] <= 'z' || 'A' <= s[i] <= 'Z' || '0' <= s[i] <= '9' || s[i] == '_' || s[i] == '-'
  }

  /** The characters are those of the URL-safe alphabet in section 5 of RFC 4648, without padding. */
  lemma Base64UrlIff(s: string)
    ensures Base64Url(s) <==>
      s != "" && forall c :: c in s ==> c in "ABCDEFGHIJKLMNOPQRSTUVWXYZ" + "abcdefghijklmnopqrstuvwxyz" + "0123456789" + "-_"
  {
    forall c: char ensures c in "ABCDEFGHIJKLMNOPQRSTUVWXYZ" + "abcdefghijklmnopqrstuvwxyz" + "0123456789" + "-_" <==>
                           'a' <= c <= 'z' || 'A' <= c <= 'Z' || '0' <= c <= '9' || c == '_' || c == '-'
    {
      RangeIff("ABCDEFGHIJKLMNOPQRSTUVWXYZ", 'A', c);
      RangeIff("abcdefghijklmnopqrstuvwxyz", 'a', c);
      RangeIff("0123456789", '0', c);
      assert c in "-_" <==> c == '-' || c == '_' by { assert "-_"[0] == '-' && "-_"[1] == '_'; }
    }
    assert forall i :: 0 <= i < |s| ==> s[i] in s;
  }

  predicate WellFormed(r: Record) {
    && r.version == RECORD_VERSION && r.namespace != "" && r.kdf == KDF_NAME
    && r.iterations <= MAXIMUM_ITERATIONS && Base64Url(r.salt) && Base64Url(r.iv)
  }

  /** Absent is not corrupt: a record that is there but unreadable is an error. */
  function LoadRecord(stored: Stored): Result<Option<Record>, Error> {
    match stored
    case Nothing => Ok(None)
    case Corrupt => Err(InvalidRecord)
    case Json(r) => if WellFormed(r) then Ok(Some(r)) else Err(InvalidRecord)
  }

  /** Which stored texts load as a record: those of this version and derivation, with a namespace, a
      plausible work factor and texts that can be decoded; nothing else does, and only absence is none. */
  lemma LoadsIff(stored: Stored)
    ensures LoadRecord(stored) == Ok(None) <==> stored == Nothing
    ensures LoadRecord(stored).Ok? && LoadRecord(stored).value.Some? <==>
      && stored.Json? && stored.record.version == 1 && stored.record.kdf == "PBKDF2-HMAC-SHA-256"
      && |stored.record.namespace| > 0 && stored.record.iterations <= 10_000_000
      && Base64Url(stored.record.salt) && Base64Url(stored.record.iv)
  {}

  function CheckNamespace(cfg: Config, r: Record): Option<Error> {
    if r.namespace != cfg.namespace then Some(NamespaceMismatch)
    else if r.iterations < cfg.minimum then Some(InvalidRecord)
    else None
  }

  function RecordAad(namespace: string, salt: string, iterations: nat): string {
    Alphabets();
    "interocitor.passphrase.envelope.v1|" + namespace + "|" + salt + "|" + Number(iterations, DECIMAL, 1)
  }

  function Provisioned(cfg: Config, phrase: string, salt: string, iv: string): Record {
    var key := Kek(phrase, salt, cfg.iterations);
    Record(RECORD_VERSION, cfg.namespace, KDF_NAME, cfg.iterations, salt, iv,
           Sealed(key, iv, RecordAad(cfg.namespace, salt, cfg.iterations), VERIFIER))
  }

  function Verify(key: Kek, r: Record): Option<Error> {
    match Open(key, r.iv, RecordAad(r.namespace, r.salt, r.iterations), r.verifier)
    case None => Some(WrongPassphrase)
    case Some(plain) => if plain == VERIFIER then None else Some(InvalidRecord)
  }

  /** Derive the key of an existing record and prove the phrase against its verifier. */
  function Unwrap(phrase: Phrase, r: Record): Result<Kek, Error> {
    if phrase.normal == "" then Err(EmptyPassphrase)
    else
      var key := Kek(phrase.normal, r.salt, r.iterations);
      match Verify(key, r)
      case Some(e) => Err(e)
      case None => Ok(key)
  }

  /** The key opens the record's verifier, and the record is one this provider accepts. */
  ghost predicate Authentic(cfg: Config, key: Kek, r: Record) {
    && r.namespace == cfg.namespace && key.salt == r.salt && key.iterations == r.iterations >= cfg.minimum
    && Open(key, r.iv, RecordAad(r.namespace, r.salt, r.iterations), r.verifier) == Some(VERIFIER)
  }

  // ---- The provider between two awaits ---------------------------------------------------------

  /** `expiresAt` is none for a key that never expires. */
  datatype Cached = Cached(key: Kek, salt: string, expiresAt: Option<int>)

  function Expiry(cfg: Config, now: int): Option<int> { if cfg.idle.Some? then Some(now + cfg.idle.value) else None }

  predicate Alive(c: Cached, now: int) { c.expiresAt.Some? ==> now < c.expiresAt.value }

  datatype Phase =
    | Fetching                                          // the record is being read
    | HasRecord(record: Option<Record>)                 // and has been read
    | Prompting(record: Option<Record>)
    | Deriving(phrase: Phrase, record: Option<Record>)
    | Saved(key: Kek, saved: Record)                    // a new record has been written
    | Returned(key: Kek, salt: string)
    | Threw(error: Error)

  /** A resolution for `getKey`, or an `unlock` with its phrase. `found`, `typed` and `wrote` are
      history: what it read when its record arrived, the phrase it was given, and the record it
      provisioned. */
  datatype Activity = Activity(purpose: Purpose, unlock: Option<Phrase>, phase: Phase,
                               found: Option<Option<Record>>, typed: Option<Phrase>, wrote: Option<Record>)

  function Begun(purpose: Purpose, unlock: Option<Phrase>): Activity {
    Activity(purpose, unlock, Fetching, None, unlock, None)
  }

  /** `touched` is the time of the last touch of the cache. */
  datatype Provider = Provider(cache: Option<Cached>, inFlight: Option<nat>, touched: int)

  /** What a resolution does when its record has arrived: fail, serve the cache, or ask. */
  datatype Decision = Fail(error: Error) | Serve(cached: Cached) | Ask

  function Decide(cfg: Config, p: Provider, purpose: Purpose, record: Option<Record>, now: int): Decision {
    if record.Some? && CheckNamespace(cfg, record.value).Some? then Fail(CheckNamespace(cfg, record.value).value)
    else if record.None? && purpose == Decrypt then Fail(MissingRecord)
    else if p.cache.Some? && Alive(p.cache.value, now) && record.Some? && p.cache.value.salt == record.value.salt
      then Serve(p.cache.value)
    else Ask
  }

  function Touched(cfg: Config, p: Provider, now: int): Provider {
    if p.cache.None? then p else p.(cache := Some(p.cache.value.(expiresAt := Expiry(cfg, now))), touched := now)
  }

  function Keep(cfg: Config, p: Provider, key: Kek, salt: string, now: int): Provider {
    p.(cache := Some(Cached(key, salt, Expiry(cfg, now))), touched := now)
  }

  function LockedNow(p: Provider): Provider { p.(cache := None) }

  // ---- All interleavings ---------------------------------------------------------------------------

  /** A call of `getKey`, and the resolution whose promise it was handed. */
  datatype Caller = Caller(purpose: Purpose, act: nat)

  datatype World = World(stored: Stored, provider: Provider, now: int, acts: seq<Activity>, callers: seq<Caller>)

  datatype Step =
    | GetKey(purpose: Purpose)
    | Unlock(phrase: Phrase)
    | Fetch(id: nat)
    | Resume(id: nat)
    | Answer(id: nat, reply: Option<Phrase>)
    | Derive(id: nat, salt: string, iv: string)       // salt and iv are random
    | Finish(id: nat)
    | Retire(id: nat)                                 // the resolution's `finally`
    | Lock                                            // by the caller, the timer or a hidden page
    | Clock(now: int)                                 // the wall clock moves, either way
    | Replace(stored: Stored)                         // another tab writes or deletes the record

  predicate Finished(a: Activity) { a.phase.Returned? || a.phase.Threw? }

  predicate Enabled(w: World, s: Step) {
    match s
    case Fetch(id) => id < |w.acts| && w.acts[id].phase.Fetching?
    case Resume(id) => id < |w.acts| && w.acts[id].phase.HasRecord?
    case Answer(id, _) => id < |w.acts| && w.acts[id].phase.Prompting?
    case Derive(id, _, _) => id < |w.acts| && w.acts[id].phase.Deriving?
    case Finish(id) => id < |w.acts| && w.acts[id].phase.Saved?
    case Retire(id) => id < |w.acts| && Finished(w.acts[id]) && w.provider.inFlight == Some(id)
    case _ => true
  }

  function To(w: World, id: nat, phase: Phase): World
    requires id < |w.acts|
  {
    w.(acts := w.acts[id := w.acts[id].(phase := phase)])
  }

  function Fetched(w: World, id: nat): World
    requires Enabled(w, Fetch(id))
  {
    match LoadRecord(w.stored)
    case Err(e) => To(w, id, Threw(e))
    case Ok(r) => w.(acts := w.acts[id := w.acts[id].(phase := HasRecord(r), found := Some(r))])
  }

  function Resumed(cfg: Config, w: World, id: nat): World
    requires Enabled(w, Resume(id))
  {
    var a, r := w.acts[id], w.acts[id].phase.record;
    if a.unlock.Some? then
      if r.Some? && CheckNamespace(cfg, r.value).Some? then To(w, id, Threw(CheckNamespace(cfg, r.value).value))
      else To(w, id, Deriving(a.unlock.value, r))
    else
      match Decide(cfg, w.provider, a.purpose, r, w.now)
      case Fail(e) => To(w, id, Threw(e))
      case Serve(c) => To(w.(provider := Touched(cfg, w.provider, w.now)), id, Returned(c.key, c.salt))
      case Ask => To(w.(provider := LockedNow(w.provider)), id, Prompting(r))
  }

  function Answered(w: World, id: nat, phrase: Option<Phrase>): World
    requires Enabled(w, Answer(id, phrase))
  {
    if phrase.None? || phrase.value.raw == "" then To(w, id, Threw(Locked))
    else
      var deriving := Deriving(phrase.value, w.acts[id].phase.record);
      w.(acts := w.acts[id := w.acts[id].(phase := deriving, typed := phrase)])
  }

  function Derived(cfg: Config, w: World, id: nat, salt: string, iv: string): World
    requires Enabled(w, Derive(id, salt, iv))
  {
    var phrase, record := w.acts[id].phase.phrase, w.acts[id].phase.record;
    if record.Some? then
      match Unwrap(phrase, record.value)
      case Err(e) => To(w, id, Threw(e))
      case Ok(key) =>
        To(w.(provider := Keep(cfg, w.provider, key, record.value.salt, w.now)), id, Returned(key, record.value.salt))
    else if w.acts[id].purpose == Decrypt then To(w, id, Threw(MissingRecord))
    else if phrase.normal == "" then To(w, id, Threw(EmptyPassphrase))
    else
      var r := Provisioned(cfg, phrase.normal, salt, iv);
      var saved := Saved(Kek(phrase.normal, salt, cfg.iterations), r);
      w.(stored := Json(r), acts := w.acts[id := w.acts[id].(phase := saved, wrote := Some(r))])
  }

  function Completed(cfg: Config, w: World, id: nat): World
    requires Enabled(w, Finish(id))
  {
    var ph := w.acts[id].phase;
    To(w.(provider := Keep(cfg, w.provider, ph.key, ph.saved.salt, w.now)), id, Returned(ph.key, ph.saved.salt))
  }

  function Do(cfg: Config, w: World, s: Step): World {
    if !Enabled(w, s) then w
    else
      match s
      case GetKey(purpose) =>
        if w.provider.inFlight.Some? then w.(callers := w.callers + [Caller(purpose, w.provider.inFlight.value)])
        else w.(provider := w.provider.(inFlight := Some(|w.acts|)), acts := w.acts + [Begun(purpose, None)],
                callers := w.callers + [Caller(purpose, |w.acts|)])
      case Unlock(phrase) => w.(acts := w.acts + [Begun(Encrypt, Some(phrase))])
      case Fetch(id) => Fetched(w, id)
      case Resume(id) => Resumed(cfg, w, id)
      case Answer(id, phrase) => Answered(w, id, phrase)
      case Derive(id, salt, iv) => Derived(cfg, w, id, salt, iv)
      case Finish(id) => Completed(cfg, w, id)
      case Retire(_) => w.(provider := w.provider.(inFlight := None))
      case Lock => w.(provider := LockedNow(w.provider))
      case Clock(now) => w.(now := now)
      case Replace(stored) => w.(stored := stored)
  }

  function Start(stored: Stored, now: int): World { World(stored, Provider(None, None, now), now, [], []) }

  function Exec(cfg: Config, w: World, run: seq<Step>): World {
    if run == [] then w else Do(cfg, Exec(cfg, w, run[..|run| - 1]), run[|run| - 1])
  }

  // ---- Invariant ---------------------------------------------------------------------------------

  /** The activity read the record, or wrote it. */
  ghost predicate Met(a: Activity, r: Record) { a.found == Some(Some(r)) || a.wrote == Some(r) }

  /** The activity returned the key, for a record with that salt that it read or wrote itself. */
  ghost predicate ProvedBy(cfg: Config, a: Activity, key: Kek, salt: string) {
    a.phase == Returned(key, salt) && exists r :: Met(a, r) && r.salt == salt && Authentic(cfg, key, r)
  }

  ghost predicate Proved(cfg: Config, acts: seq<Activity>, key: Kek, salt: string) {
    exists i :: 0 <= i < |acts| && ProvedBy(cfg, acts[i], key, salt)
  }

  ghost predicate CacheOk(cfg: Config, w: World) {
    w.provider.cache.Some? ==>
      var c := w.provider.cache.value;
      Proved(cfg, w.acts, c.key, c.salt) && c.expiresAt == Expiry(cfg, w.provider.touched)
  }

  ghost predicate RecordOk(cfg: Config, purpose: Purpose, record: Option<Record>) {
    match record
    case None => purpose == Encrypt
    case Some(r) => CheckNamespace(cfg, r).None?
  }

  ghost predicate ActivityOk(cfg: Config, a: Activity) {
    && (a.unlock.Some? ==> a.purpose == Encrypt)
    && match a.phase
       case HasRecord(r) => a.found == Some(r)
       case Prompting(r) => a.found == Some(r) && RecordOk(cfg, a.purpose, r)
       case Deriving(_, r) => a.found == Some(r) && RecordOk(cfg, a.purpose, r)
       case Saved(key, r) => a.purpose == Encrypt && a.wrote == Some(r) && Authentic(cfg, key, r)
       case _ => true
  }

  ghost predicate ActivitiesOk(cfg: Config, acts: seq<Activity>) {
    forall i :: 0 <= i < |acts| ==>
      ActivityOk(cfg, acts[i]) && (acts[i].phase.Returned? ==> Proved(cfg, acts, acts[i].phase.key, acts[i].phase.salt))
  }

  /** A resolution that is not finished is the one in flight. */
  ghost predicate SingleFlight(w: World) {
    && (forall i :: 0 <= i < |w.acts| && w.acts[i].unlock.None? && !Finished(w.acts[i]) ==> w.provider.inFlight == Some(i))
    && (w.provider.inFlight.Some? ==> w.provider.inFlight.value < |w.acts|)
  }

  ghost predicate Inv(cfg: Config, w: World) {
    CacheOk(cfg, w) && ActivitiesOk(cfg, w.acts) && SingleFlight(w)
  }

  lemma UnwrapAuthenticates(cfg: Config, phrase: Phrase, r: Record)
    requires CheckNamespace(cfg, r).None? && Unwrap(phrase, r).Ok?
    ensures Authentic(cfg, Unwrap(phrase, r).value, r) && Unwrap(phrase, r).value.salt == r.salt
  {
    hide RecordAad;
  }

  lemma ProvisioningSeals(cfg: Config, phrase: string, salt: string, iv: string)
    requires Accepted(cfg)
    ensures Authentic(cfg, Kek(phrase, salt, cfg.iterations), Provisioned(cfg, phrase, salt, iv))
  {
    hide RecordAad;
  }

  /** What was proved stays proved while returned activities stay as they are. */
  lemma ProvedStays(cfg: Config, acts: seq<Activity>, acts': seq<Activity>)
    requires |acts| <= |acts'| && forall i :: 0 <= i < |acts| && acts[i].phase.Returned? ==> acts'[i] == acts[i]
    ensures forall key, salt :: Proved(cfg, acts, key, salt) ==> Proved(cfg, acts', key, salt)
  {
    hide Met, Authentic;
    forall key, salt | Proved(cfg, acts, key, salt) ensures Proved(cfg, acts', key, salt) {
      var i :| 0 <= i < |acts| && ProvedBy(cfg, acts[i], key, salt);
      assert ProvedBy(cfg, acts'[i], key, salt);
    }
  }

  /** One activity moves on, and the others stay. */
  lemma ActivityMoves(cfg: Config, acts: seq<Activity>, id: nat, a: Activity)
    requires ActivitiesOk(cfg, acts) && id < |acts| && !acts[id].phase.Returned? && ActivityOk(cfg, a)
    requires a.phase.Returned? ==> ProvedBy(cfg, a, a.phase.key, a.phase.salt) || Proved(cfg, acts, a.phase.key, a.phase.salt)
    ensures ActivitiesOk(cfg, acts[id := a])
    ensures a.phase.Returned? ==> Proved(cfg, acts[id := a], a.phase.key, a.phase.salt)
    ensures forall key, salt :: Proved(cfg, acts, key, salt) ==> Proved(cfg, acts[id := a], key, salt)
  {
    ProvedStays(cfg, acts, acts[id := a]);
    hide ProvedBy, ActivityOk;
    assert acts[id := a][id] == a;
  }

  lemma DeriveKeepsInv(cfg: Config, w: World, id: nat, salt: string, iv: string)
    requires Accepted(cfg) && Inv(cfg, w) && Enabled(w, Derive(id, salt, iv))
    ensures Inv(cfg, Derived(cfg, w, id, salt, iv))
  {
    hide Unwrap, Authentic, Provisioned, Proved;
    var phrase, record := w.acts[id].phase.phrase, w.acts[id].phase.record;
    var w' := Derived(cfg, w, id, salt, iv);
    assert ActivityOk(cfg, w.acts[id]);
    if record.Some? && Unwrap(phrase, record.value).Ok? {
      UnwrapAuthenticates(cfg, phrase, record.value);
      assert Met(w'.acts[id], record.value);
    }
    ProvisioningSeals(cfg, phrase.normal, salt, iv);
    ActivityMoves(cfg, w.acts, id, w'.acts[id]);
    assert w'.acts == w.acts[id := w'.acts[id]];
  }

  lemma FinishKeepsInv(cfg: Config, w: World, id: nat)
    requires Inv(cfg, w) && Enabled(w, Finish(id))
    ensures Inv(cfg, Completed(cfg, w, id))
  {
    hide Proved;
    assert ActivityOk(cfg, w.acts[id]);
    var w', ph := Completed(cfg, w, id), w.acts[id].phase;
    assert Met(w'.acts[id], ph.saved);
    hide Authentic;
    ActivityMoves(cfg, w.acts, id, w'.acts[id]);
  }

  lemma ResumeKeepsInv(cfg: Config, w: World, id: nat)
    requires Inv(cfg, w) && Enabled(w, Resume(id))
    ensures Inv(cfg, Resumed(cfg, w, id))
  {
    hide Authentic, Proved;
    assert ActivityOk(cfg, w.acts[id]);
    var w' := Resumed(cfg, w, id);
    ActivityMoves(cfg, w.acts, id, w'.acts[id]);
  }

  lemma BeginKeepsInv(cfg: Config, w: World, s: Step)
    requires Inv(cfg, w) && Enabled(w, s) && ActorOf(s).None?
    ensures Inv(cfg, Do(cfg, w, s))
  {
    hide ActivityOk, ProvedBy;
    var w' := Do(cfg, w, s);
    ProvedStays(cfg, w.acts, w'.acts);
    hide Proved;
    BegunOk(cfg);
  }

  lemma BegunOk(cfg: Config)
    ensures forall p :: ActivityOk(cfg, Begun(p, None))
    ensures forall x :: ActivityOk(cfg, Begun(Encrypt, Some(x)))
  {}

  lemma StepKeepsInv(cfg: Config, w: World, s: Step)
    requires Accepted(cfg) && Inv(cfg, w)
    ensures Inv(cfg, Do(cfg, w, s))
  {
    hide Authentic, Proved, Derived, Completed, Resumed, CheckNamespace, WellFormed;
    if Enabled(w, s) {
      match s
      case Derive(id, salt, iv) => DeriveKeepsInv(cfg, w, id, salt, iv);
      case Finish(id) => FinishKeepsInv(cfg, w, id);
      case Resume(id) => ResumeKeepsInv(cfg, w, id);
      case Answer(id, _) =>
        assert ActivityOk(cfg, w.acts[id]);
        ActivityMoves(cfg, w.acts, id, Do(cfg, w, s).acts[id]);
      case Fetch(id) =>
        assert ActivityOk(cfg, w.acts[id]);
        ActivityMoves(cfg, w.acts, id, Do(cfg, w, s).acts[id]);
      case _ => BeginKeepsInv(cfg, w, s);
    }
  }

  lemma {:induction false} RunKeepsInv(cfg: Config, stored: Stored, now: int, run: seq<Step>)
    requires Accepted(cfg)
    ensures Inv(cfg, Exec(cfg, Start(stored, now), run))
  {
    hide Do;
    if run != [] {
      RunKeepsInv(cfg, stored, now, run[..|run| - 1]);
      StepKeepsInv(cfg, Exec(cfg, Start(stored, now), run[..|run| - 1]), run[|run| - 1]);
    }
  }

  // ---- What the provider promises ----------------------------------------------------------------

  /** The record was the stored one at some point of the run. */
  ghost predicate WasStored(cfg: Config, start: World, run: seq<Step>, r: Record) {
    exists j :: 0 <= j <= |run| && Exec(cfg, start, run[..j]).stored == Json(r)
  }

  lemma WasStoredStays(cfg: Config, start: World, run: seq<Step>, n: nat, r: Record)
    requires n <= |run| && WasStored(cfg, start, run[..n], r)
    ensures WasStored(cfg, start, run, r)
  {
    var j :| 0 <= j <= n && Exec(cfg, start, run[..n][..j]).stored == Json(r);
    assert run[..n][..j] == run[..j];
  }

  /** A step gives an activity only a record that is stored before it or after it. */
  lemma MetIsStored(cfg: Config, w: World, s: Step, i: nat, r: Record)
    requires i < |Do(cfg, w, s).acts| && Met(Do(cfg, w, s).acts[i], r)
    ensures (i < |w.acts| && Met(w.acts[i], r)) || w.stored == Json(r) || Do(cfg, w, s).stored == Json(r)
  {
    hide Unwrap, Decide, CheckNamespace, Provisioned;
  }

  lemma {:induction false} MetWasStored(cfg: Config, start: World, run: seq<Step>, i: nat, r: Record)
    requires start.acts == [] && i < |Exec(cfg, start, run).acts| && Met(Exec(cfg, start, run).acts[i], r)
    ensures WasStored(cfg, start, run, r)
  {
    if run != [] {
      var n := |run| - 1;
      var w, s := Exec(cfg, start, run[..n]), run[n];
      ExecLast(cfg, start, run, n);
      assert run[..n + 1] == run;
      MetIsStored(cfg, w, s, i, r);
      if i < |w.acts| && Met(w.acts[i], r) {
        MetWasStored(cfg, start, run[..n], i, r);
        WasStoredStays(cfg, start, run, n, r);
      }
    }
  }

  /** The key opened or sealed the verifier of a record that was stored during the run, under that
      record's salt and work factor, in an activity that read or wrote the record and returned the key. */
  ghost predicate ProvedInRun(cfg: Config, start: World, run: seq<Step>, key: Kek, salt: string) {
    var acts := Exec(cfg, start, run).acts;
    exists i, r :: 0 <= i < |acts| && acts[i].phase == Returned(key, salt) && Met(acts[i], r) && r.salt == salt
                   && Authentic(cfg, key, r) && WasStored(cfg, start, run, r)
  }

  lemma ProvedMeans(cfg: Config, start: World, run: seq<Step>, key: Kek, salt: string)
    requires start.acts == [] && Proved(cfg, Exec(cfg, start, run).acts, key, salt)
    ensures ProvedInRun(cfg, start, run, key, salt)
  {
    hide Exec, Authentic, WasStored;
    var acts := Exec(cfg, start, run).acts;
    var i :| 0 <= i < |acts| && ProvedBy(cfg, acts[i], key, salt);
    var r :| Met(acts[i], r) && r.salt == salt && Authentic(cfg, key, r);
    MetWasStored(cfg, start, run, i, r);
  }

  /** Over every interleaving, and whatever other tabs do to the record: each key that is cached or
      returned was proved during the run against a record that was stored then. */
  lemma KeysAreAuthenticated(cfg: Config, stored: Stored, now: int, run: seq<Step>)
    requires Accepted(cfg)
    ensures var start := Start(stored, now); var w := Exec(cfg, start, run);
      && (w.provider.cache.Some? ==> ProvedInRun(cfg, start, run, w.provider.cache.value.key, w.provider.cache.value.salt))
      && (forall i :: 0 <= i < |w.acts| && w.acts[i].phase.Returned? ==>
            ProvedInRun(cfg, start, run, w.acts[i].phase.key, w.acts[i].phase.salt))
  {
    hide Exec, Proved, ProvedInRun, ActivityOk;
    RunKeepsInv(cfg, stored, now, run);
    var start := Start(stored, now);
    var w := Exec(cfg, start, run);
    if w.provider.cache.Some? { ProvedMeans(cfg, start, run, w.provider.cache.value.key, w.provider.cache.value.salt); }
    forall i | 0 <= i < |w.acts| && w.acts[i].phase.Returned?
      ensures ProvedInRun(cfg, start, run, w.acts[i].phase.key, w.acts[i].phase.salt)
    {
      ProvedMeans(cfg, start, run, w.acts[i].phase.key, w.acts[i].phase.salt);
    }
  }

  /** A resolution is served from the cache if and only if the record it read is acceptable, a key is
      filed under the salt of that record, and the last touch plus the idle timeout is still to come;
      it then gets that key, and the key is touched. One that has to ask drops what was cached. */
  lemma CacheServedIff(cfg: Config, stored: Stored, now: int, run: seq<Step>, id: nat)
    requires Accepted(cfg)
    requires var w := Exec(cfg, Start(stored, now), run); Enabled(w, Resume(id)) && w.acts[id].unlock.None?
    ensures var w := Exec(cfg, Start(stored, now), run); var w' := Do(cfg, w, Resume(id)); var record := w.acts[id].phase.record;
      && (w'.acts[id].phase.Returned? <==>
            && record.Some? && record.value.namespace == cfg.namespace && record.value.iterations >= cfg.minimum
            && w.provider.cache.Some? && w.provider.cache.value.salt == record.value.salt
            && (cfg.idle.Some? ==> w.now < w.provider.touched + cfg.idle.value))
      && (w'.acts[id].phase.Returned? ==>
            && w'.acts[id].phase == Returned(w.provider.cache.value.key, record.value.salt)
            && w'.provider.cache.Some? && w'.provider.cache.value.key == w.provider.cache.value.key && w'.provider.touched == w.now)
      && (w'.acts[id].phase.Prompting? ==> w'.provider.cache.None?) && (w'.acts[id].phase.Threw? ==> w'.provider == w.provider)
  {
    RunKeepsInv(cfg, stored, now, run);
    hide Exec, Proved;
  }

  /** A phrase that was proved stays in use: the step in which an activity returns a key of its own
      caches that key under the record's salt and starts its idle time. */
  lemma ProvedKeyIsCached(cfg: Config, w: World, s: Step, id: nat)
    requires (s.Derive? || s.Finish?) && s.id == id && Enabled(w, s) && Do(cfg, w, s).acts[id].phase.Returned?
    ensures var w' := Do(cfg, w, s); var ph := w'.acts[id].phase;
      && w'.provider.cache.Some? && w'.provider.cache.value.key == ph.key && w'.provider.cache.value.salt == ph.salt
      && w'.provider.touched == w.now && w'.provider.inFlight == w.provider.inFlight
  {
    hide Provisioned, Unwrap;
  }

  /** A prompt that is dismissed or left empty ends in the locked error and nothing else happens; any
      other reply goes on to be derived. */
  lemma DismissedPromptLocks(cfg: Config, w: World, id: nat, reply: Option<Phrase>)
    requires Enabled(w, Answer(id, reply))
    ensures var w' := Do(cfg, w, Answer(id, reply));
      && w'.stored == w.stored && w'.provider == w.provider && |w'.acts| == |w.acts|
      && (w'.acts[id].phase == Threw(Locked) <==> reply.None? || |reply.value.raw| == 0)
      && (w'.acts[id].phase != Threw(Locked) ==>
            reply.Some? && w'.acts[id].typed == reply && w'.acts[id].phase == Deriving(reply.value, w.acts[id].phase.record))
  {}

  /** No key is derived. */
  ghost predicate NothingDerived(run: seq<Step>) { forall i :: 0 <= i < |run| ==> !run[i].Derive? && !run[i].Finish? }

  /** After a lock, over every run in which nothing is derived, no key is cached and none is returned. */
  lemma {:induction false} LockedUntilDerived(cfg: Config, w: World, run: seq<Step>)
    requires NothingDerived(run)
    ensures var t := Exec(cfg, Do(cfg, w, Lock), run);
      && t.provider.cache.None? && |w.acts| <= |t.acts|
      && forall i :: 0 <= i < |t.acts| && t.acts[i].phase.Returned? ==> i < |w.acts| && t.acts[i] == w.acts[i]
  {
    if run != [] {
      var n := |run| - 1;
      assert !run[n].Derive? && !run[n].Finish?;
      LockedUntilDerived(cfg, w, run[..n]);
      hide Exec, CheckNamespace, WellFormed;
      ExecLast(cfg, Do(cfg, w, Lock), run, n);
      assert run[..n + 1] == run;
    }
  }

  /** Once a resolution is over, the next call starts another, for its own purpose. */
  lemma RetiredStartsAnew(cfg: Config, stored: Stored, now: int, run: seq<Step>, purpose: Purpose)
    requires Accepted(cfg)
    requires var w := Exec(cfg, Start(stored, now), run);
             w.provider.inFlight.Some? && w.provider.inFlight.value < |w.acts| && Finished(w.acts[w.provider.inFlight.value])
    ensures var w := Exec(cfg, Start(stored, now), run);
      var t := Do(cfg, Do(cfg, w, Retire(w.provider.inFlight.value)), GetKey(purpose));
      && t.acts == w.acts + [Begun(purpose, None)] && t.provider.inFlight == Some(|w.acts|)
      && t.callers == w.callers + [Caller(purpose, |w.acts|)]
  {
    hide Exec;
  }

  /** Two unfinished resolutions are one: callers never prompt or derive twice at a time. */
  lemma ResolutionsAreSingleFlight(cfg: Config, stored: Stored, now: int, run: seq<Step>, i: nat, j: nat)
    requires Accepted(cfg)
    requires var acts := Exec(cfg, Start(stored, now), run).acts;
             && i < |acts| && acts[i].unlock.None? && !Finished(acts[i])
             && j < |acts| && acts[j].unlock.None? && !Finished(acts[j])
    ensures i == j
  {
    RunKeepsInv(cfg, stored, now, run);
    hide Exec;
  }

  /** A step that belongs to an activity. */
  function ActorOf(s: Step): Option<nat> {
    match s
    case Fetch(id) => Some(id)
    case Resume(id) => Some(id)
    case Answer(id, _) => Some(id)
    case Derive(id, _, _) => Some(id)
    case Finish(id) => Some(id)
    case _ => None
  }

  /** A resolution started to decrypt never creates or changes a record, at any of its steps. */
  lemma DecryptNeverCreates(cfg: Config, w: World, s: Step)
    requires var a := ActorOf(s); a.Some? && a.value < |w.acts| && w.acts[a.value].purpose == Decrypt
    ensures Do(cfg, w, s).stored == w.stored
  {}

  /** Nobody starts an encrypting resolution or an unlock, and no other tab touches the record. */
  ghost predicate OnlyDecrypts(run: seq<Step>) {
    forall i :: 0 <= i < |run| ==> !run[i].Unlock? && !run[i].Replace? && (run[i].GetKey? ==> run[i].purpose == Decrypt)
  }

  /** Decrypting alone leaves the stored record as it was, over any run. */
  lemma {:induction false} DecryptingRunsChangeNothing(cfg: Config, stored: Stored, now: int, run: seq<Step>)
    requires OnlyDecrypts(run)
    ensures var w := Exec(cfg, Start(stored, now), run);
            w.stored == stored && forall i :: 0 <= i < |w.acts| ==> w.acts[i].purpose == Decrypt
  {
    if run != [] {
      var w, s := Exec(cfg, Start(stored, now), run[..|run| - 1]), run[|run| - 1];
      DecryptingRunsChangeNothing(cfg, stored, now, run[..|run| - 1]);
      assert !s.Unlock? && !s.Replace? && (s.GetKey? ==> s.purpose == Decrypt);
      hide Exec, Unwrap, Decide, CheckNamespace;
      assert Exec(cfg, Start(stored, now), run) == Do(cfg, w, s) by { ExecLast(cfg, Start(stored, now), run, |run| - 1); assert run[..|run|] == run; }
    }
  }

  /** The key cannot have come from anywhere: with nothing stored, decrypting never returns a key, and
      every resolution that ends has ended with the missing-record error. */
  lemma {:induction false} DecryptingWithoutRecordNeverSucceeds(cfg: Config, now: int, run: seq<Step>)
    requires OnlyDecrypts(run)
    ensures var w := Exec(cfg, Start(Nothing, now), run);
      && w.provider.cache.None?
      && forall i :: 0 <= i < |w.acts| ==>
           w.acts[i].unlock.None? && w.acts[i].phase in {Fetching, HasRecord(None), Threw(MissingRecord)}
  {
    if run != [] {
      var w, s := Exec(cfg, Start(Nothing, now), run[..|run| - 1]), run[|run| - 1];
      DecryptingWithoutRecordNeverSucceeds(cfg, now, run[..|run| - 1]);
      DecryptingRunsChangeNothing(cfg, Nothing, now, run[..|run| - 1]);
      assert !s.Unlock? && !s.Replace? && (s.GetKey? ==> s.purpose == Decrypt);
      ExecLast(cfg, Start(Nothing, now), run, |run| - 1);
      assert run[..|run|] == run;
      hide Exec, Unwrap, CheckNamespace;
    }
  }

  // ---- Records round trip -------------------------------------------------------------------------

  /** A provisioned record opens again with a phrase exactly when the phrase normalizes alike;
      any other phrase is reported as wrong. */
  lemma ProvisionedRecordOpensIff(cfg: Config, phrase: string, salt: string, iv: string, attempt: Phrase)
    requires Accepted(cfg) && attempt.normal != ""
    ensures var r := Provisioned(cfg, phrase, salt, iv);
            && CheckNamespace(cfg, r).None?
            && (attempt.normal == phrase ==> Unwrap(attempt, r) == Ok(Kek(phrase, salt, cfg.iterations)))
            && (attempt.normal != phrase ==> Unwrap(attempt, r) == Err(WrongPassphrase))
  {
    hide RecordAad;
  }

  /** And it is well formed: loading what provisioning has stored gives the record back. */
  lemma ProvisionedRecordLoads(cfg: Config, phrase: string, salt: string, iv: string)
    requires Accepted(cfg) && Base64Url(salt) && Base64Url(iv)
    ensures var r := Provisioned(cfg, phrase, salt, iv);
      && LoadRecord(Json(r)) == Ok(Some(r))
      && r.version == 1 && r.kdf == "PBKDF2-HMAC-SHA-256" && r.namespace == cfg.namespace
      && r.salt == salt && r.iv == iv && r.iterations == cfg.iterations <= 10_000_000
      && r.verifier.Sealed? && r.verifier.iv == iv && r.verifier.plain == "interocitor.passphrase.envelope.verifier.v1"
      && "interocitor.passphrase.envelope.v1|" + cfg.namespace + "|" + salt + "|" <= r.verifier.aad
  {
    hide Number;
    var aad := RecordAad(cfg.namespace, salt, cfg.iterations);
    var start := "interocitor.passphrase.envelope.v1|" + cfg.namespace + "|" + salt + "|";
    assert aad[..|start|] == start;
  }

  /** The stored record stays the same throughout the run. */
  ghost predicate StoredStays(cfg: Config, w: World, run: seq<Step>) {
    forall k :: 0 <= k <= |run| ==> Exec(cfg, w, run[..k]).stored == w.stored
  }

  /** How far an activity can get while `r` is the stored record. */
  ghost predicate Follows(a: Activity, r: Record) {
    && a.wrote.None?
    && match a.phase
       case Fetching => a.typed == a.unlock
       case HasRecord(found) => found == Some(r) && a.typed == a.unlock
       case Prompting(found) => found == Some(r) && a.typed.None?
       case Deriving(phrase, found) => found == Some(r) && a.typed == Some(phrase)
       case Saved(_, _) => false
       case Returned(key, salt) => a.typed.Some? ==> Unwrap(a.typed.value, r) == Ok(key) && salt == r.salt
       case Threw(e) => a.typed.Some? ==> Unwrap(a.typed.value, r) == Err(e)
  }

  ghost predicate NewOnesFollow(w: World, first: nat, r: Record) {
    first <= |w.acts| && forall i :: first <= i < |w.acts| ==> Follows(w.acts[i], r)
  }

  lemma StepFollows(cfg: Config, w: World, s: Step, first: nat, r: Record)
    requires NewOnesFollow(w, first, r) && w.stored == Json(r) && LoadRecord(Json(r)) == Ok(Some(r)) && CheckNamespace(cfg, r).None?
    ensures NewOnesFollow(Do(cfg, w, s), first, r)
  {
    hide Provisioned, Unwrap, WellFormed, CheckNamespace;
  }

  lemma {:induction false} RunFollows(cfg: Config, w: World, run: seq<Step>, r: Record)
    requires w.stored == Json(r) && StoredStays(cfg, w, run) && LoadRecord(Json(r)) == Ok(Some(r)) && CheckNamespace(cfg, r).None?
    ensures NewOnesFollow(Exec(cfg, w, run), |w.acts|, r)
  {
    if run != [] {
      var n := |run| - 1;
      forall k | 0 <= k <= n ensures Exec(cfg, w, run[..n][..k]).stored == w.stored { assert run[..n][..k] == run[..k]; }
      RunFollows(cfg, w, run[..n], r);
      assert Exec(cfg, w, run[..n]).stored == w.stored;
      hide Do, NewOnesFollow;
      StepFollows(cfg, Exec(cfg, w, run[..n]), run[n], |w.acts|, r);
    }
  }

  /** A provisioned record can be used again. From any state in which it is the stored one, over every
      run that leaves it stored, each later activity that was given a phrase and has ended returned
      the very key of the provisioning if the phrase normalizes alike, and otherwise reported the
      phrase as wrong or empty. */
  lemma StoredRecordReopensIff(cfg: Config, w: World, run: seq<Step>, phrase: string, salt: string, iv: string, id: nat)
    requires Accepted(cfg) && phrase != "" && Base64Url(salt) && Base64Url(iv)
    requires w.stored == Json(Provisioned(cfg, phrase, salt, iv)) && StoredStays(cfg, w, run)
    requires var after := Exec(cfg, w, run); |w.acts| <= id < |after.acts| && Finished(after.acts[id]) && after.acts[id].typed.Some?
    ensures var a := Exec(cfg, w, run).acts[id];
      && (a.phase == Returned(Kek(phrase, salt, cfg.iterations), salt) <==> a.typed.value.normal == phrase)
      && (a.typed.value.normal == "" ==> a.phase == Threw(EmptyPassphrase))
      && (a.typed.value.normal !in {"", phrase} ==> a.phase == Threw(WrongPassphrase))
  {
    hide Exec, RecordAad, Provisioned, Finished, LoadRecord, StoredStays, NewOnesFollow;
    var r := Provisioned(cfg, phrase, salt, iv);
    ProvisionedRecordLoads(cfg, phrase, salt, iv);
    var attempt := Exec(cfg, w, run).acts[id].typed.value;
    ProvisionedRecordUnwraps(cfg, phrase, salt, iv, attempt);
    RunFollows(cfg, w, run, r);
    FollowedToTheEnd(Exec(cfg, w, run), |w.acts|, r, id);
  }

  lemma ProvisionedRecordUnwraps(cfg: Config, phrase: string, salt: string, iv: string, attempt: Phrase)
    requires Accepted(cfg) && phrase != ""
    ensures var r := Provisioned(cfg, phrase, salt, iv); var out := Unwrap(attempt, r);
      && CheckNamespace(cfg, r).None? && r.salt == salt
      && (out == Ok(Kek(phrase, salt, cfg.iterations)) <==> attempt.normal == phrase)
      && (attempt.normal == "" ==> out == Err(EmptyPassphrase))
      && (attempt.normal !in {"", phrase} ==> out == Err(WrongPassphrase))
  {
    hide RecordAad;
  }

  lemma FollowedToTheEnd(w: World, first: nat, r: Record, id: nat)
    requires NewOnesFollow(w, first, r) && first <= id < |w.acts| && Finished(w.acts[id]) && w.acts[id].typed.Some?
    ensures var a := w.acts[id];
      a.phase == match Unwrap(a.typed.value, r) case Ok(key) => Returned(key, r.salt) case Err(e) => Threw(e)
  {
    hide Unwrap;
    assert Follows(w.acts[id], r);
  }

  lemma NumberInjective(m: nat, n: nat)
    requires |DECIMAL| == 10
    requires Number(m, DECIMAL, 1) == Number(n, DECIMAL, 1)
    ensures m == n
  {
    Alphabets();
    NumberRoundTrip(m, DECIMAL, 1);
    NumberRoundTrip(n, DECIMAL, 1);
  }

  lemma {:induction false} NoBarInNumber(n: nat)
    ensures |DECIMAL| == 10 && '|' !in Number(n, DECIMAL, 1)
  {
    Alphabets();
    PaddedValue(n, 10, 1);
    var ds := Padded(n, 10, 1);
    hide Padded, ToDigits, Value;
    forall i | 0 <= i < |ds| ensures DECIMAL[ds[i]] != '|' {
      assert ds[i] < 10;
    }
  }

  /** The associated data pins down namespace, salt and work factor, even if the namespace
      contains the delimiter. */
  lemma RecordAadInjective(n1: string, s1: string, i1: nat, n2: string, s2: string, i2: nat)
    requires Base64Url(s1) && Base64Url(s2) && RecordAad(n1, s1, i1) == RecordAad(n2, s2, i2)
    ensures n1 == n2 && s1 == s2 && i1 == i2
  {
    NoBarInNumber(i1);
    NoBarInNumber(i2);
    var p := "interocitor.passphrase.envelope.v1|";
    var t1, t2 := Number(i1, DECIMAL, 1), Number(i2, DECIMAL, 1);
    assert RecordAad(n1, s1, i1) == (p + n1 + "|" + s1) + "|" + t1;
    assert RecordAad(n2, s2, i2) == (p + n2 + "|" + s2) + "|" + t2;
    hide RecordAad, Number;
    LastBar(p + n1 + "|" + s1, t1, p + n2 + "|" + s2, t2);
    NumberInjective(i1, i2);
    LastBar(p + n1, s1, p + n2, s2);
    assert n1 == (p + n1)[|p|..] && n2 == (p + n2)[|p|..];
  }

  /** Relabelling a provisioned record, or editing its parameters, makes it refuse every phrase. */
  lemma EditedRecordRefusesEveryPhrase(cfg: Config, phrase: string, salt: string, iv: string, edited: Record, attempt: Phrase)
    requires Base64Url(salt) && WellFormed(edited) && attempt.normal != ""
    requires var r := Provisioned(cfg, phrase, salt, iv);
             && edited.verifier == r.verifier
             && !(edited.namespace == r.namespace && edited.salt == r.salt && edited.iterations == r.iterations)
    ensures Unwrap(attempt, edited) == Err(WrongPassphrase)
  {
    var r := Provisioned(cfg, phrase, salt, iv);
    if RecordAad(edited.namespace, edited.salt, edited.iterations) == RecordAad(r.namespace, r.salt, r.iterations) {
      RecordAadInjective(edited.namespace, edited.salt, edited.iterations, r.namespace, r.salt, r.iterations);
    }
    hide RecordAad;
  }

  // ---- What it does not promise -----------------------------------------------------------------------

  /** A resolution and an unlock both find no record before either writes one. */
  function Race(p: Phrase, s: string, t: string, iv: string): seq<Step> {
    [GetKey(Encrypt), Unlock(p), Fetch(0), Fetch(1), Resume(0), Answer(0, Some(p)), Resume(1),
     Derive(0, s, iv), Finish(0), Derive(1, t, iv)]
  }

  function Both(first: Phase, p: Phrase, second: Phase): World {
    World(Nothing, Provider(None, Some(0), 0), 0, [InRace(None, first), InRace(Some(p), second)], [Caller(Encrypt, 0)])
  }

  /** In the race, every record read is absent. */
  function InRace(unlock: Option<Phrase>, phase: Phase): Activity {
    Activity(Encrypt, unlock, phase, if phase.Fetching? then None else Some(None),
             if phase.Deriving? then Some(phase.phrase) else unlock, None)
  }

  /** Single flight covers `getKey` only. An unlock racing a resolution can provision a second
      record over the first, and a key is then returned whose record is no longer stored. */
  lemma RacingProvisioningsDiverge(cfg: Config, p: Phrase, s: string, t: string, iv: string)
    requires Accepted(cfg) && p.raw != "" && p.normal != "" && s != t
    ensures
      var w := Exec(cfg, Start(Nothing, 0), Race(p, s, t, iv));
      && |w.acts| == 2 && w.acts[0].phase == Returned(Kek(p.normal, s, cfg.iterations), s)
      && w.stored.Json? && w.stored.record.salt == t
      && Verify(Kek(p.normal, s, cfg.iterations), w.stored.record) == Some(WrongPassphrase)
  {
    hide RecordAad, Exec;
    var w0, run := Start(Nothing, 0), Race(p, s, t, iv);
    BothDeriving(cfg, p, s, t, iv);
    ExecLast(cfg, w0, run, 7);
    ExecLast(cfg, w0, run, 8);
    ExecLast(cfg, w0, run, 9);
    assert run[..10] == run;
  }

  lemma ExecLast(cfg: Config, w: World, run: seq<Step>, i: nat)
    requires i < |run|
    ensures Exec(cfg, w, run[..i + 1]) == Do(cfg, Exec(cfg, w, run[..i]), run[i])
  {
    assert run[..i + 1][..i] == run[..i];
  }

  lemma BothFetching(cfg: Config, p: Phrase, s: string, t: string, iv: string)
    ensures Exec(cfg, Start(Nothing, 0), Race(p, s, t, iv)[..2]) == Both(Fetching, p, Fetching)
  {
    var w0, run := Start(Nothing, 0), Race(p, s, t, iv);
    assert Exec(cfg, w0, run[..0]) == w0;
    hide Exec;
    ExecLast(cfg, w0, run, 0);
    ExecLast(cfg, w0, run, 1);
  }

  lemma BothFetched(cfg: Config, p: Phrase, s: string, t: string, iv: string)
    ensures Exec(cfg, Start(Nothing, 0), Race(p, s, t, iv)[..4]) == Both(HasRecord(None), p, HasRecord(None))
  {
    hide Exec;
    var w0, run := Start(Nothing, 0), Race(p, s, t, iv);
    BothFetching(cfg, p, s, t, iv);
    ExecLast(cfg, w0, run, 2);
    assert Exec(cfg, w0, run[..3]) == Both(HasRecord(None), p, Fetching);
    ExecLast(cfg, w0, run, 3);
  }

  lemma BothDeriving(cfg: Config, p: Phrase, s: string, t: string, iv: string)
    requires p.raw != ""
    ensures Exec(cfg, Start(Nothing, 0), Race(p, s, t, iv)[..7]) == Both(Deriving(p, None), p, Deriving(p, None))
  {
    hide Exec;
    var w0, run := Start(Nothing, 0), Race(p, s, t, iv);
    BothFetched(cfg, p, s, t, iv);
    ExecLast(cfg, w0, run, 4);
    assert Exec(cfg, w0, run[..5]) == Both(Prompting(None), p, HasRecord(None));
    ExecLast(cfg, w0, run, 5);
    assert Exec(cfg, w0, run[..6]) == Both(Deriving(p, None), p, HasRecord(None));
    ExecLast(cfg, w0, run, 6);
  }

  // ---- The class -----------------------------------------------------------------------------------

  class KeyProvider {
    const cfg: Config
    var cache: Option<Cached>
    var inFlight: Option<nat>
    ghost var touched: int

    constructor (cfg: Config, now: int)
      requires Accepted(cfg)
      ensures Value() == Start(Nothing, now).provider && this.cfg == cfg
    {
      this.cfg, cache, inFlight, touched := cfg, None, None, now;
    }

    ghost function Value(): Provider
      reads this
    {
      Provider(cache, inFlight, touched)
    }

    method LockKey()
      modifies this
      ensures Value() == LockedNow(old(Value()))
    {
      cache := None;
    }

    method Touch(now: int)
      modifies this
      ensures Value() == Touched(cfg, old(Value()), now)
    {
      if cache.Some? {
        cache := Some(cache.value.(expiresAt := if cfg.idle.None? then None else Some(now + cfg.idle.value)));
        touched := now;
      }
    }

    method Store(key: Kek, salt: string, now: int)
      modifies this
      ensures Value() == Keep(cfg, old(Value()), key, salt, now)
    {
      cache := Some(Cached(key, salt, Some(0)));
      Touch(now);
    }

    /** Read the cache; an expired key is dropped on the way. */
    method Peek(now: int) returns (c: Option<Cached>)
      modifies this
      ensures c == if old(cache).Some? && Alive(old(cache).value, now) then old(cache) else None
      ensures Value() == if c.Some? then old(Value()) else LockedNow(old(Value()))
    {
      if cache.None? {
        return None;
      }
      if cache.value.expiresAt.Some? && now >= cache.value.expiresAt.value {
        LockKey();
        return None;
      }
      return cache;
    }

    /** The part of a resolution between the arrival of the record and the prompt. */
    method ResolveWith(purpose: Purpose, record: Option<Record>, now: int) returns (d: Decision)
      modifies this
      ensures d == Decide(cfg, old(Value()), purpose, record, now)
      ensures Value() == match d
                         case Fail(_) => old(Value())
                         case Serve(_) => Touched(cfg, old(Value()), now)
                         case Ask => LockedNow(old(Value()))
    {
      if record.Some? {
        if record.value.namespace != cfg.namespace {
          return Fail(NamespaceMismatch);
        }
        if record.value.iterations < cfg.minimum {
          return Fail(InvalidRecord);
        }
      } else if purpose == Decrypt {
        return Fail(MissingRecord);
      }
      var cached := Peek(now);
      if cached.Some? && record.Some? && cached.value.salt == record.value.salt {
        Touch(now);
        return Serve(cached.value);
      }
      LockKey();
      return Ask;
    }
  }
}
