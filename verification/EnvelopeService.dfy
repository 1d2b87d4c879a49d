/** `EnvelopeCryptoService` of src/app/envelope.py: the operations of EnvelopeStore carried out through
    a bounded, expiring cache of data keys.  Every call of the key provider may fail (`up` is false), and
    `now` is the monotonic clock read by the call. */
module EnvelopeService {
  import opened Prelude
  import opened EnvelopeStore

  /** `_dek_cache_key`: everything a fresh unwrap validates, under an injective digest. */
  datatype DekKey = DekKey(context: string, row: KeyRow)

  datatype Cached = Cached(dek: KeyId, expires: int)

  /** Every cached data key is what a fresh unwrap of the same inputs returns. */
  predicate CacheSound(p: Provider, cache: map<DekKey, Cached>) {
    forall k :: k in cache ==> p.Unwrap(k.row, k.context) == Some(cache[k].dek)
  }

  /** No entry expires before `k` does. */
  predicate Soonest(cache: map<DekKey, Cached>, k: DekKey) {
    k in cache && forall j :: j in cache ==> cache[k].expires <= cache[j].expires
  }

  lemma {:induction false} SoonestExists(cache: map<DekKey, Cached>)
    requires cache != map[]
    ensures exists k :: Soonest(cache, k)
    decreases |cache|
  {
    var k :| k in cache;
    var rest := cache - {k};
    if rest == map[] {
      forall j | j in cache ensures j == k { assert j != k ==> j in rest; }
      assert Soonest(cache, k);
    } else {
      assert cache.Keys == rest.Keys + {k};
      assert |cache.Keys| == |rest.Keys| + 1;
      SoonestExists(rest);
      var m :| Soonest(rest, m);
      assert forall j :: j in cache && j != k ==> j in rest;
      if cache[k].expires <= cache[m].expires { assert Soonest(cache, k); } else { assert Soonest(cache, m); }
    }
  }

  class EnvelopeCryptoService {
    const provider: Provider
    const legacy: LegacyKeys
    const ttl: nat
    const capacity: nat
    var cache: map<DekKey, Cached>
    var db: Db

    predicate Valid()
      reads this`cache
    {
      && provider.Valid() && capacity >= 1
      && CacheSound(provider, cache) && |cache| <= capacity && (ttl == 0 ==> cache == map[])
    }

    constructor (provider: Provider, legacy: LegacyKeys, ttl: nat, capacity: nat, db: Db)
      requires provider.Valid() && capacity >= 1
      ensures Valid() && this.provider == provider && this.legacy == legacy && this.ttl == ttl
      ensures this.capacity == capacity && this.db == db && cache == map[]
    {
      this.provider, this.legacy, this.ttl, this.capacity := provider, legacy, ttl, capacity;
      this.cache, this.db := map[], db;
    }

    /** `_cache_get`. */
    method CacheGet(key: DekKey, now: int) returns (dek: Option<KeyId>)
      requires Valid()
      modifies this`cache
      ensures Valid()
      ensures dek == if key in old(cache) && now < old(cache[key].expires) then Some(old(cache[key].dek)) else None
      ensures cache == if dek.Some? then old(cache) else old(cache) - {key}
    {
      if key !in cache {
        assert cache == cache - {key};
        return None;
      }
      if cache[key].expires <= now {
        assert (cache - {key}).Keys <= cache.Keys;
        cache := cache - {key};
        return None;
      }
      return Some(cache[key].dek);
    }

    /** One entry that expires no later than any other makes room. */
    method EvictSoonest()
      requires Valid() && cache != map[]
      modifies this`cache
      ensures Valid() && exists victim :: Soonest(old(cache), victim) && cache == old(cache) - {victim}
      ensures |cache| + 1 == |old(cache)|
    {
      SoonestExists(cache);
      var victim :| Soonest(cache, victim);
      assert cache.Keys == (cache - {victim}).Keys + {victim};
      cache := cache - {victim};
    }

    /** `_cache_put`: the new entry is there, nothing else appears or changes, and an entry is given up
        only from a full cache and only if none expired sooner. */
    method CachePut(key: DekKey, dek: KeyId, now: int)
      requires Valid() && provider.Unwrap(key.row, key.context) == Some(dek)
      modifies this`cache
      ensures Valid()
      ensures ttl == 0 ==> cache == old(cache)
      ensures ttl > 0 ==> key in cache && cache[key] == Cached(dek, now + ttl)
      ensures forall k :: k in cache && k != key ==> k in old(cache) && cache[k] == old(cache[k])
      ensures forall k :: k in old(cache) && k !in cache ==> |old(cache)| == capacity && Soonest(old(cache), k)
      ensures |cache| + 1 >= |old(cache)|
    {
      if ttl == 0 { return; }
      if |cache| >= capacity { EvictSoonest(); }
      assert cache[key := Cached(dek, now + ttl)].Keys == cache.Keys + {key};
      cache := cache[key := Cached(dek, now + ttl)];
    }

    /** `clear_cache`. */
    method ClearCache()
      requires Valid()
      modifies this`cache
      ensures Valid() && cache == map[]
    {
      cache := map[];
    }

    /** `_session_dek`: with the provider up it returns what a fresh unwrap of the stored row returns,
        whatever happened to the row since the key was cached; in an outage it returns that or nothing. */
    method SessionDek(session: string, epoch: nat, up: bool, now: int) returns (dek: Option<KeyId>)
      requires Valid()
      modifies this`cache
      ensures Valid()
      ensures dek.Some? ==> dek == FreshDek(provider, db, session, epoch)
      ensures up ==> dek == FreshDek(provider, db, session, epoch)
    {
      if session !in db.sessions || (session, epoch) !in db.rows { return None; }
      var row := db.rows[(session, epoch)];
      var key := DekKey(ContextOf(db, session, epoch), row);
      dek := CacheGet(key, now);
      if dek.Some? { return; }
      if !up { return None; }
      dek := provider.Unwrap(row, key.context);
      if dek.Some? { CachePut(key, dek.value, now); }
    }

    /** The part that `ensure_session_key` and `rotate_session_dek` share. */
    method InstallEpoch(session: string, now: int)
      requires Valid() && session in db.sessions
      modifies this
      ensures Valid() && db == NewEpoch(provider, old(db), session)
    {
      var s := db.sessions[session];
      var context := ContextOf(db, session, s.epoch + 1);
      var dek := db.next;
      var row := provider.Wrap(dek, context, db.next);
      ProviderLaw(provider, dek, context, db.next, row);
      db := db.(rows := db.rows[(session, s.epoch + 1) := row],
                sessions := db.sessions[session := s.(epoch := s.epoch + 1, mirror := Some(row))],
                next := db.next + 1);
      CachePut(DekKey(context, row), dek, now);
    }

    /** `ensure_session_key`. */
    method EnsureSessionKey(session: string, up: bool, now: int) returns (ok: bool)
      requires Valid()
      modifies this
      ensures Valid()
      ensures ok ==> Some(db) == EnsureKey(provider, old(db), session)
      ensures !ok ==> db == old(db) && (up ==> EnsureKey(provider, db, session).None?)
    {
      if session !in db.sessions || db.sessions[session].isPrivate { return false; }
      if db.sessions[session].epoch > 0 && (session, db.sessions[session].epoch) in db.rows { return true; }
      if !up { return false; }
      InstallEpoch(session, now);
      return true;
    }

    /** `encrypt_message`: None is a refusal or an outage; a key created on the way stays. */
    method EncryptMessage(m: MessageRow, text: string, upCreate: bool, upUnwrap: bool, now: int)
      returns (sealed: Option<MessageRow>)
      requires Valid()
      modifies this
      ensures Valid()
      ensures sealed.Some? ==>
        EnsureKey(provider, old(db), m.session).Some?
        && SealedRow(provider, EnsureKey(provider, old(db), m.session).value, m, text) == Some((db, sealed.value))
      ensures sealed.None? ==> db == old(db) || Some(db) == EnsureKey(provider, old(db), m.session)
      ensures sealed.None? && upCreate && upUnwrap ==>
        EnsureKey(provider, old(db), m.session).None?
        || SealedRow(provider, EnsureKey(provider, old(db), m.session).value, m, text).None?
    {
      var ok := EnsureSessionKey(m.session, upCreate, now);
      if !ok { return None; }
      var epoch := db.sessions[m.session].epoch;
      var dek := SessionDek(m.session, epoch, upUnwrap, now);
      if dek.None? { return None; }
      var row := m.(epoch := epoch, scheme := Envelope, nonce := db.next, version := epoch);
      sealed := Some(row.(box := Box(dek.value, db.next, AadOf(db, row), text)));
      db := db.(next := db.next + 1);
    }

    /** A new message, encrypted and stored by its caller: one `DoWrite`, or no message at all. */
    method StoreMessage(id: nat, m: MessageRow, text: string, upCreate: bool, upUnwrap: bool, now: int)
      returns (ok: bool)
      requires Valid() && id !in db.messages
      modifies this
      ensures Valid()
      ensures ok ==> Some(db) == WriteMessage(provider, old(db), id, m, text)
      ensures !ok ==> db == old(db) || Some(db) == EnsureKey(provider, old(db), m.session)
      ensures !ok && upCreate && upUnwrap ==> WriteMessage(provider, old(db), id, m, text).None?
    {
      var sealed := EncryptMessage(m, text, upCreate, upUnwrap, now);
      if sealed.None? { return false; }
      db := db.(messages := db.messages[id := sealed.value], plain := db.plain[id := text]);
      return true;
    }

    /** `decrypt_message`: the cache never changes what a message decrypts to. */
    method DecryptMessage(session: string, m: MessageRow, up: bool, now: int) returns (text: Option<string>)
      requires Valid()
      modifies this`cache
      ensures Valid()
      ensures text.Some? || up || m.scheme.Legacy? ==> text == Decrypt(provider, legacy, db, session, m)
    {
      if m.session != session || session !in db.sessions { return None; }
      if m.scheme.Legacy? { return OpenLegacy(legacy, m); }
      if m.box.Junk? { return None; }
      var dek := SessionDek(session, m.epoch, up, now);
      if dek.None? { return None; }
      return Open(dek.value, m.nonce, AadOf(db, m), m.box);
    }

    /** `migrate_legacy_message`. */
    method MigrateLegacyMessage(id: nat, upCreate: bool, upUnwrap: bool, now: int) returns (ok: bool)
      requires Valid()
      modifies this
      ensures Valid()
      ensures ok ==> Some(db) == Migrate(provider, legacy, old(db), id)
      ensures !ok && db != old(db) ==>
        id in old(db).messages && Some(db) == EnsureKey(provider, old(db), old(db).messages[id].session)
      ensures !ok && upCreate && upUnwrap ==> Migrate(provider, legacy, old(db), id).None?
    {
      if id !in db.messages { return false; }
      var m := db.messages[id];
      if m.scheme.Envelope? { return true; }
      var text := OpenLegacy(legacy, m);
      if text.None? { return false; }
      var sealed := EncryptMessage(m, text.value, upCreate, upUnwrap, now);
      if sealed.None? { return false; }
      db := db.(messages := db.messages[id := sealed.value]);
      return true;
    }

    /** `rotate_session_dek`. */
    method RotateSessionDek(session: string, up: bool, now: int) returns (ok: bool)
      requires Valid()
      modifies this
      ensures Valid()
      ensures ok ==> Some(db) == Rotate(provider, old(db), session)
      ensures !ok ==> db == old(db) && (up ==> Rotate(provider, db, session).None?)
    {
      if session !in db.sessions { return false; }
      var s := db.sessions[session];
      if s.epoch > 0 && (session, s.epoch) !in db.rows { return false; }
      if !up { return false; }
      InstallEpoch(session, now);
      return true;
    }

    /** `rewrap_session_keys`, where the provider may fail at the epoch `outage`: the rows already
        rewrapped stay, and the cache is dropped only after the last one. */
    method RewrapSessionKeys(session: string, outage: Option<nat>) returns (ok: bool)
      requires Valid() && session in db.sessions
      modifies this
      ensures Valid() && (ok ==> cache == map[])
      ensures (db, ok) == RewrapFrom(provider, old(db), session, 1, old(db).sessions[session].epoch, outage)
    {
      var last := db.sessions[session].epoch;
      var epoch := 1;
      while epoch <= last
        invariant Valid() && session in db.sessions && 1 <= epoch <= last + 1
        invariant RewrapFrom(provider, old(db), session, 1, last, outage)
               == RewrapFrom(provider, db, session, epoch, last, outage)
      {
        if outage == Some(epoch) { return false; }
        var next := RewrapOne(provider, db, session, epoch);
        if next.None? { return false; }
        db := next.value;
        epoch := epoch + 1;
      }
      ClearCache();
      return true;
    }
  }

  // ---------------------------------------------------------------- whole runs through the cache

  /** One call of the service, with its clock reading and the provider's availability. */
  datatype Call =
    | Store(id: nat, message: MessageRow, text: string, upCreate: bool, upUnwrap: bool, now: int)
    | MigrateRow(id: nat, upCreate: bool, upUnwrap: bool, now: int)
    | Prepare(session: string, up: bool, now: int)
    | RotateKey(session: string, up: bool, now: int)
    | RewrapKeys(session: string, outage: Option<nat>)
    | ReadRow(session: string, message: MessageRow, up: bool, now: int)
    | Forget

  /** One call keeps the cache and the store sound, whatever fails; a message id that is taken is refused. */
  method Serve(service: EnvelopeCryptoService, call: Call)
    requires service.Valid() && Sound(service.provider, service.legacy, service.db)
    modifies service
    ensures service.Valid() && Sound(service.provider, service.legacy, service.db)
    ensures Preserves(service.provider, old(service.db), service.db)
  {
    ghost var p, l, db := service.provider, service.legacy, service.db;
    PreservesSelf(p, db);
    match call
    case Store(id, m, text, upCreate, upUnwrap, now) =>
      if id in service.db.messages || id in service.db.plain { return; }
      var ok := service.StoreMessage(id, m, text, upCreate, upUnwrap, now);
      if ok {
        WritePreserves(p, l, db, id, m, text);
      } else if service.db != db {
        EnsurePreserves(p, l, db, m.session);
      }
    case MigrateRow(id, upCreate, upUnwrap, now) =>
      var ok := service.MigrateLegacyMessage(id, upCreate, upUnwrap, now);
      if ok { MigratePreserves(p, l, db, id); }
      else if service.db != db { EnsurePreserves(p, l, db, db.messages[id].session); }
    case Prepare(session, up, now) =>
      var ok := service.EnsureSessionKey(session, up, now);
      if ok { EnsurePreserves(p, l, db, session); }
    case RotateKey(session, up, now) =>
      var ok := service.RotateSessionDek(session, up, now);
      if ok { NewEpochPreserves(p, l, db, session); }
    case RewrapKeys(session, outage) =>
      if session !in service.db.sessions { return; }
      RewrapPreserves(p, l, db, session, 1, db.sessions[session].epoch, outage);
      var _ := service.RewrapSessionKeys(session, outage);
    case ReadRow(session, m, up, now) =>
      var _ := service.DecryptMessage(session, m, up, now);
    case Forget => service.ClearCache();
  }

  /** Any run of calls, at any times and through any outages. */
  method ServeAll(service: EnvelopeCryptoService, calls: seq<Call>)
    requires service.Valid() && Sound(service.provider, service.legacy, service.db)
    modifies service
    ensures service.Valid() && Sound(service.provider, service.legacy, service.db)
    ensures Preserves(service.provider, old(service.db), service.db)
  {
    PreservesSelf(service.provider, service.db);
    for i := 0 to |calls|
      invariant service.Valid() && Sound(service.provider, service.legacy, service.db)
      invariant Preserves(service.provider, old(service.db), service.db)
    {
      ghost var before := service.db;
      Serve(service, calls[i]);
      PreservesTransitive(service.provider, old(service.db), before, service.db);
    }
  }

  /** A stored message reads back as it was written; in an outage it may be unavailable, never different. */
  method ReadBack(service: EnvelopeCryptoService, id: nat, up: bool, now: int) returns (text: Option<string>)
    requires service.Valid() && Sound(service.provider, service.legacy, service.db) && id in service.db.messages
    modifies service`cache
    ensures service.Valid()
    ensures text.Some? || up ==> id in service.db.plain && text == Some(service.db.plain[id])
  {
    var m := service.db.messages[id];
    text := service.DecryptMessage(m.session, m, up, now);
  }

  /** From an empty store, after any run of calls, every stored message reads back as it was written. */
  method ServeAndReadBack(provider: Provider, legacy: LegacyKeys, ttl: nat, capacity: nat,
                          sessions: map<string, Session>, calls: seq<Call>, id: nat, now: int)
    returns (text: Option<string>, db: Db)
    requires provider.Valid() && capacity >= 1 && forall s :: s in sessions ==> sessions[s].epoch == 0
    ensures Sound(provider, legacy, db)
    ensures id in db.messages ==> id in db.plain && text == Some(db.plain[id])
  {
    EmptyIsSound(provider, legacy, sessions, 0);
    var service := new EnvelopeCryptoService(provider, legacy, ttl, capacity, Db(sessions, map[], map[], map[], 0));
    ServeAll(service, calls);
    db, text := service.db, None;
    if id in db.messages { text := ReadBack(service, id, true, now); }
  }
}
