/** The enveloped credential store: credentials sealed under a provider's key, in a versioned
    envelope that records which key sealed it. */
module Envelope {
  import opened Options
  import opened Aead

  datatype Credentials = Credentials(portableKey: string, deviceId: string, meshId: Option<string>)

  /** What a plaintext decodes to. */
  datatype Payload = Creds(value: Credentials) | OtherJson | NotJson

  datatype Key = Plain(material: string) | Derived(material: string, dbName: string, salt: string)

  datatype Kdf = Kdf(name: string, salt: string)

  datatype Envelope =
    | V1(iv: string, cipher: Cipher<Key, Payload>)
    | V2(kdf: Option<Kdf>, keyId: Option<string>, iv: string, cipher: Cipher<Key, Payload>)

  /** `Taxonomy` failures of a provider are passed on; any other is reported as unavailable. */
  datatype Error = Unavailable | Unreadable | Taxonomy(code: string)

  const HKDF := "HKDF-SHA-256"

  // ---- The provider -------------------------------------------------------------------------

  /** `down` is the error every request currently ends in, if any. */
  datatype Provider = Provider(keyId: Option<string>, deriving: bool, material: map<string, string>, down: Option<Error>)

  function CurrentId(p: Provider): string { if p.keyId.Some? then p.keyId.value else "custom" }

  /** A key depends on the key id, and on database and salt too if it is derived. */
  function RequireKey(p: Provider, dbName: string, keyId: string, salt: string, derive: bool): Result<Key, Error> {
    if p.down.Some? then Err(if p.down.value.Taxonomy? then p.down.value else Unavailable)
    else if keyId !in p.material then Err(Unavailable)
    else Ok(if derive && p.deriving then Derived(p.material[keyId], dbName, salt) else Plain(p.material[keyId]))
  }

  // ---- Saving and loading ------------------------------------------------------------------------

  function Aad(dbName: string, keyId: string, salt: string): string {
    "interocitor.credential.envelope.v2|" + dbName + "|" + keyId + "|" + salt
  }

  /** An empty mesh id is not stored. */
  function Trimmed(c: Credentials): Credentials { if c.meshId == Some("") then c.(meshId := None) else c }

  /** A loaded record is the saved one, except that an empty mesh id comes back as none. */
  predicate Recovers(loaded: Credentials, saved: Credentials) {
    && loaded.portableKey == saved.portableKey && loaded.deviceId == saved.deviceId
    && (loaded.meshId.None? <==> saved.meshId.None? || saved.meshId == Some(""))
    && (loaded.meshId.Some? ==> loaded.meshId == saved.meshId)
  }

  /** Seal under the current key id; a deriving provider gets a random salt. */
  function Seal(p: Provider, dbName: string, c: Credentials, salt: string, iv: string): Result<Envelope, Error> {
    var keyId := CurrentId(p);
    var saltText := if p.deriving then salt else "";
    match RequireKey(p, dbName, keyId, salt, p.deriving)
    case Err(e) => Err(e)
    case Ok(key) =>
      Ok(V2(if p.deriving then Some(Kdf(HKDF, saltText)) else None, Some(keyId), iv,
            Sealed(key, iv, Aad(dbName, keyId, saltText), Creds(Trimmed(c)))))
  }

  function OpenV1(p: Provider, dbName: string, e: Envelope): Result<Payload, Error>
    requires e.V1?
  {
    match RequireKey(p, dbName, CurrentId(p), "", false)
    case Err(err) => Err(err)
    case Ok(key) =>
      match Open(key, e.iv, "", e.cipher)
      case None => Err(Unreadable)
      case Some(payload) => Ok(payload)
  }

  function OpenV2(p: Provider, dbName: string, e: Envelope): Result<Payload, Error>
    requires e.V2?
  {
    if e.kdf.Some? && e.kdf.value.name != HKDF then Err(Unreadable)
    else if e.kdf.Some? && !p.deriving then Err(Unreadable)
    else
      var salt := if e.kdf.Some? then e.kdf.value.salt else "";
      var keyId := if e.keyId.Some? then e.keyId.value else "custom";
      match RequireKey(p, dbName, keyId, salt, e.kdf.Some?)
      case Err(err) => Err(err)
      case Ok(key) =>
        match Open(key, e.iv, Aad(dbName, keyId, salt), e.cipher)
        case None => Err(Unreadable)
        case Some(payload) => Ok(payload)
  }

  /** A plaintext that is JSON but not a credential record reads as null. */
  function Normalized(payload: Payload): Result<Option<Credentials>, Error> {
    match payload
    case Creds(c) => Ok(Some(Trimmed(c)))
    case OtherJson => Ok(None)
    case NotJson => Err(Unreadable)
  }

  function OpenEnvelope(p: Provider, dbName: string, e: Envelope): Result<Payload, Error> {
    if e.V1? then OpenV1(p, dbName, e) else OpenV2(p, dbName, e)
  }

  function Load(p: Provider, dbName: string, stored: Option<Envelope>): Result<Option<Credentials>, Error> {
    match stored
    case None => Ok(None)
    case Some(e) =>
      match OpenEnvelope(p, dbName, e)
      case Err(err) => Err(err)
      case Ok(payload) => Normalized(payload)
  }

  // ---- Runs -----------------------------------------------------------------------------------------

  /** A history variable: who wrote what is stored. */
  datatype Origin = Nobody | Saved(c: Credentials) | Foreign

  /** `origin` tells of the last successful save, or other write, since the last clear. */
  datatype World = World(stored: Option<Envelope>, provider: Provider, origin: Origin)

  datatype Step =
    | Save(c: Credentials, salt: string, iv: string)
    | Read
    | Clear(keys: map<string, string>)              // the provider may destroy or replace its keys
    | Rotate(keyId: string, material: string)       // a new current id; old keys are kept
    | StartDeriving
    | Outage(error: Error)
    | Recover
    | StoreForeign(envelope: Envelope)              // something else writes the envelope record

  predicate Enabled(w: World, s: Step) {
    match s
    case Rotate(id, m) => id in w.provider.material ==> w.provider.material[id] == m
    case _ => true
  }

  function Do(dbName: string, w: World, s: Step): World {
    if !Enabled(w, s) then w
    else
      match s
      case Save(c, salt, iv) =>
        (match Seal(w.provider, dbName, c, salt, iv)
         case Err(_) => w
         case Ok(e) => w.(stored := Some(e), origin := Saved(c)))
      case Read => w
      case Clear(material) => w.(stored := None, provider := w.provider.(material := material), origin := Nobody)
      case Rotate(id, m) => w.(provider := w.provider.(keyId := Some(id), material := w.provider.material[id := m]))
      case StartDeriving => w.(provider := w.provider.(deriving := true))
      case Outage(e) => w.(provider := w.provider.(down := Some(e)))
      case Recover => w.(provider := w.provider.(down := None))
      case StoreForeign(e) => w.(stored := Some(e), origin := Foreign)
  }

  function Start(p: Provider): World { World(None, p, Nobody) }

  function Exec(dbName: string, w: World, run: seq<Step>): World {
    if run == [] then w else Do(dbName, Exec(dbName, w, run[..|run| - 1]), run[|run| - 1])
  }

  /** The envelope was sealed over `payload`, under a key the provider has for it and with the
      associated data that a load recomputes. */
  ghost predicate SealedFor(p: Provider, dbName: string, e: Envelope, payload: Payload) {
    match e
    case V1(iv, cipher) =>
      && CurrentId(p) in p.material
      && cipher == Sealed(Plain(p.material[CurrentId(p)]), iv, "", payload)
    case V2(kdf, keyId, iv, cipher) =>
      var id := if keyId.Some? then keyId.value else "custom";
      var salt := if kdf.Some? then kdf.value.salt else "";
      && id in p.material && (kdf.Some? ==> kdf.value.name == HKDF && p.deriving)
      && cipher == Sealed(if kdf.Some? then Derived(p.material[id], dbName, salt) else Plain(p.material[id]), iv,
                          Aad(dbName, id, salt), payload)
  }

  lemma OpensIff(p: Provider, dbName: string, e: Envelope, payload: Payload)
    ensures OpenEnvelope(p, dbName, e) == Ok(payload) <==> p.down.None? && SealedFor(p, dbName, e, payload)
  {
    hide Aad;
  }

  ghost predicate Inv(dbName: string, w: World) {
    match w.origin
    case Nobody => w.stored.None?
    case Foreign => w.stored.Some?
    case Saved(c) => w.stored.Some? && w.stored.value.V2? && SealedFor(w.provider, dbName, w.stored.value, Creds(Trimmed(c)))
  }

  lemma {:induction false} RunKeepsInv(dbName: string, p: Provider, run: seq<Step>)
    ensures Inv(dbName, Exec(dbName, Start(p), run))
  {
    hide Aad;
    if run != [] {
      RunKeepsInv(dbName, p, run[..|run| - 1]);
    }
  }

  /** A load is null if and only if nothing is stored, or the stored envelope was sealed, under a key
      the provider has and with the associated data the load recomputes, over a plaintext that is
      not a credential record. */
  lemma NullIff(p: Provider, dbName: string, stored: Option<Envelope>)
    ensures Load(p, dbName, stored) == Ok(None) <==>
            stored.None? || (p.down.None? && SealedFor(p, dbName, stored.value, OtherJson))
  {
    if stored.Some? {
      OpensIff(p, dbName, stored.value, OtherJson);
      hide SealedFor, OpenEnvelope;
    }
  }

  /** The load succeeds, with the record that was saved. */
  predicate Returns(r: Result<Option<Credentials>, Error>, saved: Credentials) {
    r.Ok? && r.value.Some? && Recovers(r.value.value, saved)
  }

  /** Over every run of saves, loads, clears, rotations, outages and foreign writes. After a save, a
      load returns the saved record, key, device and mesh id, where an empty mesh id comes back as
      none, or the provider's failure; and a null means that nothing is stored, if and only if what is
      stored is not a foreign plaintext of another shape sealed under a key of the provider. */
  lemma LoadReturnsLastSave(dbName: string, p: Provider, run: seq<Step>)
    ensures var w := Exec(dbName, Start(p), run); var r := Load(w.provider, dbName, w.stored);
      && (w.origin.Nobody? ==> r == Ok(None))
      && (w.origin.Saved? && w.provider.down.None? ==> Returns(r, w.origin.c))
      && (w.origin.Saved? && w.provider.down.Some? ==>
            r == Err(if w.provider.down.value.Taxonomy? then w.provider.down.value else Unavailable))
      && ((r == Ok(None) ==> w.origin.Nobody?) <==>
            !(w.origin.Foreign? && w.stored.Some? && w.provider.down.None? && SealedFor(w.provider, dbName, w.stored.value, OtherJson)))
  {
    RunKeepsInv(dbName, p, run);
    hide Exec, Aad;
    var w := Exec(dbName, Start(p), run);
    NullIff(w.provider, dbName, w.stored);
    if w.origin.Saved? {
      OpensIff(w.provider, dbName, w.stored.value, Creds(Trimmed(w.origin.c)));
    }
  }

  /** Where nothing else writes the envelope record, null means absent. */
  lemma NullMeansAbsentWithoutForeignWrites(dbName: string, p: Provider, run: seq<Step>)
    requires forall k :: 0 <= k < |run| ==> !run[k].StoreForeign?
    ensures var w := Exec(dbName, Start(p), run); Load(w.provider, dbName, w.stored) == Ok(None) <==> w.stored.None?
  {
    NothingForeign(dbName, p, run);
    LoadReturnsLastSave(dbName, p, run);
    RunKeepsInv(dbName, p, run);
    hide Exec, Load, SealedFor;
  }

  lemma {:induction false} NothingForeign(dbName: string, p: Provider, run: seq<Step>)
    requires forall k :: 0 <= k < |run| ==> !run[k].StoreForeign?
    ensures !Exec(dbName, Start(p), run).origin.Foreign?
  {
    if run != [] { NothingForeign(dbName, p, run[..|run| - 1]); }
  }

  /** What is sealed loads again under the same provider. */
  lemma SealedLoads(p: Provider, dbName: string, c: Credentials, salt: string, iv: string)
    ensures Seal(p, dbName, c, salt, iv).Ok? ==> Returns(Load(p, dbName, Some(Seal(p, dbName, c, salt, iv).value)), c)
  {
    hide Aad;
  }

  /** Each save seals under the id that is current at that time; a save that fails changes nothing. */
  lemma SaveWrapsUnderCurrentId(dbName: string, w: World, c: Credentials, salt: string, iv: string)
    ensures var t := Do(dbName, w, Save(c, salt, iv));
      if w.provider.down.None? && CurrentId(w.provider) in w.provider.material
      then var id := if w.provider.keyId.Some? then w.provider.keyId.value else "custom";
           && t.stored.Some? && t.stored.value.V2? && t.stored.value.keyId == Some(id)
           && t.stored.value.kdf == (if w.provider.deriving then Some(Kdf("HKDF-SHA-256", salt)) else None)
           && t.stored.value.cipher.Sealed? && t.stored.value.cipher.aad == "interocitor.credential.envelope.v2|" + dbName + "|" + id + "|" +
                (if w.provider.deriving then salt else "")
           && Returns(Load(t.provider, dbName, t.stored), c)
      else t == w
  {}

  // ---- Envelopes in general ------------------------------------------------------------------------

  /** The store's promise that null only means absent fails for an authentic foreign plaintext. */
  lemma ForeignPlaintextReadsAsAbsent(dbName: string, iv: string, m: string)
    ensures var p := Provider(None, false, map["custom" := m], None);
            Load(p, dbName, Some(V1(iv, Sealed(Plain(m), iv, "", OtherJson)))) == Ok(None)
  {}

  /** After its key is forgotten or changed, an envelope is an error, not an absence. */
  lemma LoadSucceedsIffKeyKept(p: Provider, q: Provider, dbName: string, c: Credentials, salt: string, iv: string)
    requires Seal(p, dbName, c, salt, iv).Ok? && q.down.None? && q.deriving == p.deriving
    ensures var id := CurrentId(p); var r := Load(q, dbName, Some(Seal(p, dbName, c, salt, iv).value));
      if id in q.material && q.material[id] == p.material[id] then Returns(r, c) else r.Err?
  {
    hide Aad;
  }

  /** A legacy envelope opens exactly under the current key, so a rotation shuts it out. */
  lemma LegacyOpensIffCurrentKey(p: Provider, dbName: string, c: Credentials, iv: string, m: string)
    requires p.down.None? && CurrentId(p) in p.material
    ensures var r := Load(p, dbName, Some(V1(iv, Sealed(Plain(m), iv, "", Creds(c)))));
      if p.material[CurrentId(p)] == m then Returns(r, c) else r == Err(Unreadable)
  {}

  lemma AadInjective(dbName: string, k1: string, s1: string, k2: string, s2: string)
    requires '|' !in s1 && '|' !in s2 && Aad(dbName, k1, s1) == Aad(dbName, k2, s2)
    ensures k1 == k2 && s1 == s2
  {
    var p := "interocitor.credential.envelope.v2|" + dbName + "|";
    assert Aad(dbName, k1, s1) == (p + k1) + "|" + s1 && Aad(dbName, k2, s2) == (p + k2) + "|" + s2;
    hide Aad;
    LastBar(p + k1, s1, p + k2, s2);
    assert k1 == (p + k1)[|p|..] && k2 == (p + k2)[|p|..];
  }

  /** An envelope whose key id or salt was edited is unreadable or unavailable, whatever keys the
      provider has. */
  lemma EditedEnvelopeNeverOpens(p: Provider, q: Provider, dbName: string, c: Credentials, salt: string, iv: string,
                                 keyId: string, kdf: Option<Kdf>)
    requires Seal(p, dbName, c, salt, iv).Ok? && '|' !in salt && (kdf.Some? ==> '|' !in kdf.value.salt)
    requires var e := Seal(p, dbName, c, salt, iv).value;
             keyId != e.keyId.value || (kdf.Some? && e.kdf.Some? && kdf.value.salt != e.kdf.value.salt)
    ensures Load(q, dbName, Some(Seal(p, dbName, c, salt, iv).value.(keyId := Some(keyId), kdf := kdf))).Err?
  {
    var e := Seal(p, dbName, c, salt, iv).value;
    var s1 := if e.kdf.Some? then e.kdf.value.salt else "";
    var s2 := if kdf.Some? then kdf.value.salt else "";
    if Aad(dbName, e.keyId.value, s1) == Aad(dbName, keyId, s2) {
      AadInjective(dbName, e.keyId.value, s1, keyId, s2);
    }
    hide Aad;
  }

  // ---- The class ---------------------------------------------------------------------------------------

  class EnvelopedStore {
    const dbName: string
    var envelope: Option<Envelope>

    constructor (dbName: string)
      ensures this.dbName == dbName && envelope == None
    {
      this.dbName, envelope := dbName, None;
    }

    /** Nothing is written unless the key was obtained. */
    method SaveCredentials(p: Provider, c: Credentials, salt: string, iv: string) returns (error: Option<Error>)
      modifies this
      ensures match Seal(p, dbName, c, salt, iv)
              case Err(e) => error == Some(e) && envelope == old(envelope)
              case Ok(e) => error == None && envelope == Some(e)
      ensures error.None? ==> Returns(Load(p, dbName, envelope), c)
    {
      SealedLoads(p, dbName, c, salt, iv);
      var keyId := if p.keyId.Some? then p.keyId.value else "custom";
      var key := RequireKey(p, dbName, keyId, salt, p.deriving);
      if key.Err? {
        return Some(key.error);
      }
      var saltText := if p.deriving then salt else "";
      var payload := Credentials(c.portableKey, c.deviceId, if c.meshId == Some("") then None else c.meshId);
      var cipher := Sealed(key.value, iv, Aad(dbName, keyId, saltText), Creds(payload));
      envelope := Some(V2(if p.deriving then Some(Kdf(HKDF, saltText)) else None, Some(keyId), iv, cipher));
      return None;
    }

    /** The envelope goes first, so a failing provider leaves no readable ciphertext behind. */
    method ClearCredentials(providerError: Option<Error>) returns (error: Option<Error>)
      modifies this
      ensures error == providerError && forall p :: Load(p, dbName, envelope) == Ok(None)
    {
      envelope := None;
      return providerError;
    }
  }
}
