/** What src/app/envelope.py does to the stored sessions, key epochs and messages, with the
    provider law of src/app/key_management.py.  AES-GCM is an ideal AEAD: a box opens exactly
    with the key, nonce and associated data it was sealed with. */
module EnvelopeStore {
  import opened Prelude
  import opened CanonicalJson

  type KeyId = nat

  datatype Box = Box(key: KeyId, nonce: nat, aad: string, body: string) | Junk(raw: string)

  function Open(key: KeyId, nonce: nat, aad: string, b: Box): Option<string> {
    if b.Box? && b.key == key && b.nonce == nonce && b.aad == aad then Some(b.body) else None
  }

  // ---------------------------------------------------------------- contexts

  /** `canonical_context` of a session key: tenant, owner, session and epoch. */
  function KeyContext(owner: string, session: string, epoch: nat): string {
    Print(Obj(Field("context", Obj(Field("crypto_epoch", Str(PrintInt(epoch)), Field("owner_id", Str(owner),
      Field("session_id", Str(session), Field("tenant_id", Str("default"), NoFields))))),
      Field("format", Str("scap-kms-context-v1"), NoFields))))
  }

  datatype MessageContext = MessageContext(owner: string, session: string, uuid: string, index: int, role: string,
                                           epoch: nat)

  function ContextJson(c: MessageContext): Json {
    Obj(Field("crypto_epoch", Int(c.epoch), Field("format", Str("scap-message-aad-v1"), Field("message_id", Str(c.uuid),
      Field("message_index", Int(c.index), Field("owner_id", Str(c.owner), Field("role", Str(c.role),
      Field("session_id", Str(c.session), Field("tenant_id", Str("default"), NoFields)))))))))
  }

  /** `canonical_message_aad`. */
  function MessageAad(c: MessageContext): string { Print(ContextJson(c)) }

  lemma AadIsInjective(a: MessageContext, b: MessageContext)
    requires MessageAad(a) == MessageAad(b)
    ensures a == b
  {
    PrintIsInjective(ContextJson(a), ContextJson(b));
  }

  // ---------------------------------------------------------------- the key provider

  datatype Wrapped = Wrapped(kek: KeyId, nonce: nat, context: string, dek: KeyId) | Torn(raw: string)

  datatype KeyRow = KeyRow(wrapped: Wrapped, uri: string, version: string)

  /** A keyring fixed after construction, with its active version. */
  datatype Provider = Provider(keys: map<string, KeyId>, active: string, uri: string) {
    predicate Valid() { active in keys }

    function Wrap(dek: KeyId, context: string, nonce: nat): KeyRow
      requires Valid()
    {
      KeyRow(Wrapped.Wrapped(keys[active], nonce, context, dek), uri, active)
    }

    /** `unwrap_dek`: URI, version and authenticated context must all match. */
    function Unwrap(row: KeyRow, context: string): Option<KeyId> {
      if row.uri != uri || row.version !in keys || row.wrapped.Torn? then None
      else if row.wrapped.kek != keys[row.version] || row.wrapped.context != context then None
      else Some(row.wrapped.dek)
    }

    /** `rewrap_dek`. */
    function Rewrap(row: KeyRow, context: string, nonce: nat): Option<KeyRow>
      requires Valid()
    {
      var dek := Unwrap(row, context);
      if dek.None? then None else Some(Wrap(dek.value, context, nonce))
    }
  }

  /** Wrapping and rewrapping keep the data key. */
  lemma ProviderLaw(p: Provider, dek: KeyId, context: string, nonce: nat, row: KeyRow)
    requires p.Valid()
    ensures p.Unwrap(p.Wrap(dek, context, nonce), context) == Some(dek)
    ensures var r := p.Rewrap(row, context, nonce);
      (r.Some? <==> p.Unwrap(row, context).Some?) && (r.Some? ==> p.Unwrap(r.value, context) == p.Unwrap(row, context))
  {
  }

  // ---------------------------------------------------------------- the database

  /** A conversation; `mirror` is the copy of its current key row kept on the session. */
  datatype Session = Session(owner: string, isPrivate: bool, epoch: nat, mirror: Option<KeyRow>)

  datatype Scheme = Envelope | Legacy

  datatype MessageRow = MessageRow(
    session: string, uuid: string, index: int, role: string, scheme: Scheme, box: Box, nonce: nat, epoch: nat,
    version: nat)

  /** `plain` remembers what was originally written; `next` numbers random keys and nonces. */
  datatype Db = Db(
    sessions: map<string, Session>, rows: map<(string, nat), KeyRow>, messages: map<nat, MessageRow>,
    plain: map<nat, string>, next: nat)

  /** The shared legacy keys by version, and their coarse associated data. */
  datatype LegacyKeys = LegacyKeys(keys: map<nat, KeyId>)

  function LegacyAad(session: string, role: string, version: nat): string {
    Print(Arr(Item(Str(session), Item(Str(role), Item(Int(version), NoItems)))))
  }

  function OpenLegacy(l: LegacyKeys, m: MessageRow): Option<string> {
    if m.version !in l.keys then None
    else Open(l.keys[m.version], m.nonce, LegacyAad(m.session, m.role, m.version), m.box)
  }

  function ContextOf(db: Db, session: string, epoch: nat): string
    requires session in db.sessions
  {
    KeyContext(db.sessions[session].owner, session, epoch)
  }

  /** The data key of an epoch, unwrapped afresh. */
  function FreshDek(p: Provider, db: Db, session: string, epoch: nat): Option<KeyId> {
    if session !in db.sessions || (session, epoch) !in db.rows then None
    else p.Unwrap(db.rows[(session, epoch)], ContextOf(db, session, epoch))
  }

  function AadOf(db: Db, m: MessageRow): string
    requires m.session in db.sessions
  {
    MessageAad(MessageContext(db.sessions[m.session].owner, m.session, m.uuid, m.index, m.role, m.epoch))
  }

  /** `decrypt_message`, without a cache. */
  function Decrypt(p: Provider, l: LegacyKeys, db: Db, session: string, m: MessageRow): Option<string> {
    if m.session != session || session !in db.sessions then None
    else if m.scheme.Legacy? then OpenLegacy(l, m)
    else
      var dek := FreshDek(p, db, session, m.epoch);
      if dek.None? then None else Open(dek.value, m.nonce, AadOf(db, m), m.box)
  }

  /** A new epoch row and its mirror on the session. */
  function NewEpoch(p: Provider, db: Db, session: string): Db
    requires p.Valid() && session in db.sessions
  {
    var s := db.sessions[session];
    var row := p.Wrap(db.next, ContextOf(db, session, s.epoch + 1), db.next);
    db.(rows := db.rows[(session, s.epoch + 1) := row],
        sessions := db.sessions[session := s.(epoch := s.epoch + 1, mirror := Some(row))],
        next := db.next + 1)
  }

  /** `ensure_session_key`; None is a refusal. */
  function EnsureKey(p: Provider, db: Db, session: string): Option<Db>
    requires p.Valid()
  {
    if session !in db.sessions || db.sessions[session].isPrivate then None
    else if db.sessions[session].epoch > 0 && (session, db.sessions[session].epoch) in db.rows then Some(db)
    else Some(NewEpoch(p, db, session))
  }

  /** `rotate_session_dek`. */
  function Rotate(p: Provider, db: Db, session: string): Option<Db>
    requires p.Valid()
  {
    if session !in db.sessions then None
    else if db.sessions[session].epoch > 0 && (session, db.sessions[session].epoch) !in db.rows then None
    else Some(NewEpoch(p, db, session))
  }

  /** The database with one epoch row replaced, and its mirror when it is the current one. */
  function SwapRow(db: Db, session: string, epoch: nat, row: KeyRow): Db
    requires session in db.sessions
  {
    var s := db.sessions[session];
    db.(rows := db.rows[(session, epoch) := row],
        sessions := if epoch == s.epoch then db.sessions[session := s.(mirror := Some(row))] else db.sessions,
        next := db.next + 1)
  }

  /** One turn of the loop in `rewrap_session_keys`. */
  function RewrapOne(p: Provider, db: Db, session: string, epoch: nat): Option<Db>
    requires p.Valid() && session in db.sessions
  {
    if (session, epoch) !in db.rows then Some(db)
    else
      var row := p.Rewrap(db.rows[(session, epoch)], ContextOf(db, session, epoch), db.next);
      if row.None? then None else Some(SwapRow(db, session, epoch, row.value))
  }

  /** Epochs `from` up to `to`, in order; a failure (of the provider at `outage`, or of a row) stops
      half way and keeps the rows already rewritten. */
  function RewrapFrom(p: Provider, db: Db, session: string, from: nat, to: nat, outage: Option<nat>): (Db, bool)
    requires p.Valid() && session in db.sessions
    decreases if from <= to then to - from + 1 else 0
  {
    if from > to then (db, true)
    else if outage == Some(from) then (db, false)
    else
      var r := RewrapOne(p, db, session, from);
      if r.None? then (db, false) else RewrapFrom(p, r.value, session, from + 1, to, outage)
  }

  /** The box `encrypt_message` makes for a row, once the key is there. */
  function SealedRow(p: Provider, db: Db, m: MessageRow, text: string): Option<(Db, MessageRow)>
    requires m.session in db.sessions
  {
    var epoch := db.sessions[m.session].epoch;
    var dek := FreshDek(p, db, m.session, epoch);
    if dek.None? then None
    else
      var row := m.(epoch := epoch, scheme := Envelope, nonce := db.next, version := epoch);
      Some((db.(next := db.next + 1), row.(box := Box(dek.value, db.next, AadOf(db, row), text))))
  }

  /** `encrypt_message` for a new message, which is then stored. */
  function WriteMessage(p: Provider, db: Db, id: nat, m: MessageRow, text: string): Option<Db>
    requires p.Valid()
  {
    if id in db.messages then None
    else
      var keyed := EnsureKey(p, db, m.session);
      if keyed.None? then None
      else
        var r := SealedRow(p, keyed.value, m, text);
        if r.None? then None
        else Some(r.value.0.(messages := r.value.0.messages[id := r.value.1], plain := r.value.0.plain[id := text]))
  }

  /** `migrate_legacy_message`: the row is rewritten in place. */
  function Migrate(p: Provider, l: LegacyKeys, db: Db, id: nat): Option<Db>
    requires p.Valid()
  {
    if id !in db.messages then None
    else
      var m := db.messages[id];
      if m.scheme.Envelope? then Some(db)
      else
        var text := OpenLegacy(l, m);
        if text.None? then None
        else
          var keyed := EnsureKey(p, db, m.session);
          if keyed.None? then None
          else
            var r := SealedRow(p, keyed.value, m, text.value);
            if r.None? then None else Some(r.value.0.(messages := r.value.0.messages[id := r.value.1]))
  }

  // ---------------------------------------------------------------- the invariant

  /** Every epoch row belongs to its session, is not ahead of it, and unwraps. */
  predicate RowsUnwrap(p: Provider, db: Db) {
    forall k :: k in db.rows ==>
      && k.0 in db.sessions && 1 <= k.1 <= db.sessions[k.0].epoch
      && FreshDek(p, db, k.0, k.1).Some?
  }

  /** The session mirrors its current epoch row. */
  predicate Mirrored(db: Db) {
    forall s :: s in db.sessions && db.sessions[s].epoch > 0 ==>
      (s, db.sessions[s].epoch) in db.rows && db.sessions[s].mirror == Some(db.rows[(s, db.sessions[s].epoch)])
  }

  /** Every stored message decrypts to what was originally written. */
  predicate Readable(p: Provider, l: LegacyKeys, db: Db) {
    forall id :: id in db.messages ==>
      && id in db.plain && db.messages[id].session in db.sessions
      && Decrypt(p, l, db, db.messages[id].session, db.messages[id]) == Some(db.plain[id])
  }

  predicate Sound(p: Provider, l: LegacyKeys, db: Db) {
    p.Valid() && RowsUnwrap(p, db) && Mirrored(db) && Readable(p, l, db)
  }

  /** The later database still has every session with its owner, every data key and every plaintext. */
  predicate Preserves(p: Provider, a: Db, b: Db) {
    && (forall s :: s in a.sessions ==> s in b.sessions && b.sessions[s].owner == a.sessions[s].owner)
    && (forall k :: k in a.rows ==> k in b.rows && FreshDek(p, b, k.0, k.1) == FreshDek(p, a, k.0, k.1))
    && (forall id :: id in a.plain ==> id in b.plain && b.plain[id] == a.plain[id])
    && (forall id :: id in a.messages ==> id in b.messages)
  }

  lemma PreservesTransitive(p: Provider, a: Db, b: Db, c: Db)
    requires Preserves(p, a, b) && Preserves(p, b, c)
    ensures Preserves(p, a, c)
  {
  }

  /** A message whose row is untouched still decrypts when its session and data keys are preserved. */
  lemma StillDecrypts(p: Provider, l: LegacyKeys, a: Db, b: Db, m: MessageRow, text: string)
    requires Preserves(p, a, b) && m.session in a.sessions && Decrypt(p, l, a, m.session, m) == Some(text)
    ensures Decrypt(p, l, b, m.session, m) == Some(text)
  {
    if m.scheme.Envelope? { assert (m.session, m.epoch) in a.rows; }
  }

  lemma UntouchedStayReadable(p: Provider, l: LegacyKeys, a: Db, b: Db)
    requires Readable(p, l, a) && Preserves(p, a, b) && b.messages == a.messages
    ensures Readable(p, l, b)
  {
    forall id | id in b.messages
      ensures id in b.plain && b.messages[id].session in b.sessions
           && Decrypt(p, l, b, b.messages[id].session, b.messages[id]) == Some(b.plain[id])
    {
      StillDecrypts(p, l, a, b, a.messages[id], a.plain[id]);
    }
  }

  lemma NewEpochKeys(p: Provider, db: Db, session: string, k: (string, nat))
    requires p.Valid() && session in db.sessions && (session, db.sessions[session].epoch + 1) !in db.rows
    requires k in db.rows
    ensures FreshDek(p, NewEpoch(p, db, session), k.0, k.1) == FreshDek(p, db, k.0, k.1)
  {
    var db' := NewEpoch(p, db, session);
    if k.0 in db.sessions { assert ContextOf(db', k.0, k.1) == ContextOf(db, k.0, k.1); }
  }

  lemma NewEpochUnwraps(p: Provider, db: Db, session: string)
    requires p.Valid() && session in db.sessions
    ensures FreshDek(p, NewEpoch(p, db, session), session, db.sessions[session].epoch + 1) == Some(db.next)
  {
    var e := db.sessions[session].epoch + 1;
    assert ContextOf(NewEpoch(p, db, session), session, e) == ContextOf(db, session, e);
  }

  lemma NewEpochRows(p: Provider, db: Db, session: string)
    requires p.Valid() && RowsUnwrap(p, db) && session in db.sessions
    ensures var db' := NewEpoch(p, db, session); RowsUnwrap(p, db') && Preserves(p, db, db')
  {
    var db' := NewEpoch(p, db, session);
    var e := db.sessions[session].epoch + 1;
    assert (session, e) !in db.rows;
    assert db'.rows.Keys == db.rows.Keys + {(session, e)};
    NewEpochUnwraps(p, db, session);
    forall k | k in db.rows ensures FreshDek(p, db', k.0, k.1) == FreshDek(p, db, k.0, k.1) {
      NewEpochKeys(p, db, session, k);
    }
  }

  lemma NewEpochMirrored(p: Provider, db: Db, session: string)
    requires p.Valid() && Mirrored(db) && session in db.sessions
    ensures Mirrored(NewEpoch(p, db, session))
  {
  }

  lemma NewEpochPreserves(p: Provider, l: LegacyKeys, db: Db, session: string)
    requires Sound(p, l, db) && session in db.sessions
    ensures var db' := NewEpoch(p, db, session);
      Sound(p, l, db') && Preserves(p, db, db') && db'.messages == db.messages && db'.plain == db.plain
  {
    NewEpochRows(p, db, session);
    NewEpochMirrored(p, db, session);
    UntouchedStayReadable(p, l, db, NewEpoch(p, db, session));
  }

  /** Replacing a wrapping by another of the same data key changes no data key. */
  lemma SwapKeepsKeys(p: Provider, db: Db, session: string, epoch: nat, row: KeyRow, k: (string, nat))
    requires session in db.sessions && (session, epoch) in db.rows
    requires p.Unwrap(row, ContextOf(db, session, epoch)) == FreshDek(p, db, session, epoch)
    ensures FreshDek(p, SwapRow(db, session, epoch, row), k.0, k.1) == FreshDek(p, db, k.0, k.1)
  {
    var db' := SwapRow(db, session, epoch, row);
    if k.0 in db.sessions { assert ContextOf(db', k.0, k.1) == ContextOf(db, k.0, k.1); }
  }

  lemma SwapMirrored(db: Db, session: string, epoch: nat, row: KeyRow)
    requires Mirrored(db) && session in db.sessions
    ensures Mirrored(SwapRow(db, session, epoch, row))
  {
  }

  lemma SwapRowsUnwrap(p: Provider, db: Db, session: string, epoch: nat, row: KeyRow)
    requires RowsUnwrap(p, db) && session in db.sessions && (session, epoch) in db.rows
    requires p.Unwrap(row, ContextOf(db, session, epoch)) == FreshDek(p, db, session, epoch)
    ensures var db' := SwapRow(db, session, epoch, row); RowsUnwrap(p, db') && Preserves(p, db, db')
  {
    var db' := SwapRow(db, session, epoch, row);
    assert db'.rows.Keys == db.rows.Keys;
    forall k | k in db.rows ensures FreshDek(p, db', k.0, k.1) == FreshDek(p, db, k.0, k.1) {
      SwapKeepsKeys(p, db, session, epoch, row, k);
    }
  }

  lemma SwapPreserves(p: Provider, l: LegacyKeys, db: Db, session: string, epoch: nat, row: KeyRow)
    requires Sound(p, l, db) && session in db.sessions && (session, epoch) in db.rows
    requires p.Unwrap(row, ContextOf(db, session, epoch)) == FreshDek(p, db, session, epoch)
    ensures var db' := SwapRow(db, session, epoch, row); Sound(p, l, db') && Preserves(p, db, db')
  {
    SwapMirrored(db, session, epoch, row);
    SwapRowsUnwrap(p, db, session, epoch, row);
    UntouchedStayReadable(p, l, db, SwapRow(db, session, epoch, row));
  }

  lemma RewrapOnePreserves(p: Provider, l: LegacyKeys, db: Db, session: string, epoch: nat)
    requires Sound(p, l, db) && session in db.sessions
    ensures var r := RewrapOne(p, db, session, epoch);
      && r.Some? && Sound(p, l, r.value) && Preserves(p, db, r.value)
      && r.value.messages == db.messages && r.value.plain == db.plain && session in r.value.sessions
      && r.value.sessions[session].epoch == db.sessions[session].epoch
  {
    if (session, epoch) in db.rows {
      ProviderLaw(p, 0, ContextOf(db, session, epoch), db.next, db.rows[(session, epoch)]);
      SwapPreserves(p, l, db, session, epoch, RewrapOne(p, db, session, epoch).value.rows[(session, epoch)]);
    }
  }

  /** A sound store that keeps every message of an earlier one. */
  ghost predicate Keeps(p: Provider, l: LegacyKeys, db: Db, db': Db) { Sound(p, l, db') && Preserves(p, db, db') }

  lemma KeepsSelf(p: Provider, l: LegacyKeys, db: Db)
    requires Sound(p, l, db)
    ensures Keeps(p, l, db, db)
  {
    PreservesSelf(p, db);
  }

  lemma KeepsTransitive(p: Provider, l: LegacyKeys, a: Db, b: Db, c: Db)
    requires Keeps(p, l, a, b) && Keeps(p, l, b, c)
    ensures Keeps(p, l, a, c)
  {
    PreservesTransitive(p, a, b, c);
  }

  /** Rewrapping, complete or interrupted at any epoch, keeps every message readable. */
  lemma {:induction false} RewrapPreserves(p: Provider, l: LegacyKeys, db: Db, session: string, from: nat, to: nat,
                                           outage: Option<nat>)
    requires Sound(p, l, db) && session in db.sessions
    ensures var r := RewrapFrom(p, db, session, from, to, outage);
      Keeps(p, l, db, r.0) && (r.1 <==> !(outage.Some? && from <= outage.value <= to))
    decreases if from <= to then to - from + 1 else 0
  {
    if from <= to && outage != Some(from) {
      var db' := RewrapStep(p, l, db, session, from, to, outage);
      RewrapPreserves(p, l, db', session, from + 1, to, outage);
      KeepsTransitive(p, l, db, db', RewrapFrom(p, db', session, from + 1, to, outage).0);
    } else {
      RewrapStops(p, db, session, from, to, outage);
      KeepsSelf(p, l, db);
    }
  }

  /** One epoch, and what is left to do. */
  lemma RewrapStep(p: Provider, l: LegacyKeys, db: Db, session: string, from: nat, to: nat, outage: Option<nat>)
    returns (db': Db)
    requires Sound(p, l, db) && session in db.sessions && from <= to && outage != Some(from)
    ensures Keeps(p, l, db, db') && session in db'.sessions
    ensures RewrapFrom(p, db, session, from, to, outage) == RewrapFrom(p, db', session, from + 1, to, outage)
  {
    RewrapOnePreserves(p, l, db, session, from);
    db' := RewrapOne(p, db, session, from).value;
    RewrapUnfolds(p, db, session, from, to, outage);
  }

  lemma RewrapStops(p: Provider, db: Db, session: string, from: nat, to: nat, outage: Option<nat>)
    requires p.Valid() && session in db.sessions && (from > to || outage == Some(from))
    ensures RewrapFrom(p, db, session, from, to, outage) == (db, from > to)
  {
  }

  lemma PreservesSelf(p: Provider, db: Db)
    ensures Preserves(p, db, db)
  {
  }

  lemma RewrapUnfolds(p: Provider, db: Db, session: string, from: nat, to: nat, outage: Option<nat>)
    requires p.Valid() && session in db.sessions && from <= to && outage != Some(from)
    requires var r := RewrapOne(p, db, session, from); r.Some? && session in r.value.sessions
    ensures RewrapFrom(p, db, session, from, to, outage)
         == RewrapFrom(p, RewrapOne(p, db, session, from).value, session, from + 1, to, outage)
  {
  }

  lemma EnsurePreserves(p: Provider, l: LegacyKeys, db: Db, session: string)
    requires Sound(p, l, db) && EnsureKey(p, db, session).Some?
    ensures var db' := EnsureKey(p, db, session).value;
      && Sound(p, l, db') && Preserves(p, db, db') && db'.messages == db.messages && db'.plain == db.plain
      && session in db'.sessions && db'.sessions[session].epoch > 0
      && FreshDek(p, db', session, db'.sessions[session].epoch).Some?
  {
    if EnsureKey(p, db, session).value != db { NewEpochPreserves(p, l, db, session); }
    var db' := EnsureKey(p, db, session).value;
    assert (session, db'.sessions[session].epoch) in db'.rows;
  }

  /** Sealing a row and storing it keeps the rest and makes the row readable. */
  lemma StoredRowReadable(p: Provider, l: LegacyKeys, db: Db, id: nat, m: MessageRow, text: string)
    requires Sound(p, l, db) && m.session in db.sessions && SealedRow(p, db, m, text).Some?
    requires id in db.plain ==> db.plain[id] == text
    ensures var (db1, row) := SealedRow(p, db, m, text).value;
      var db' := db1.(messages := db1.messages[id := row], plain := db1.plain[id := text]);
      Sound(p, l, db') && Preserves(p, db, db')
  {
    var (db1, row) := SealedRow(p, db, m, text).value;
    var db' := db1.(messages := db1.messages[id := row], plain := db1.plain[id := text]);
    forall k | k in db.rows ensures FreshDek(p, db', k.0, k.1) == FreshDek(p, db, k.0, k.1) {}
    assert Preserves(p, db, db');
    assert Decrypt(p, l, db', row.session, row) == Some(text) by {
      assert AadOf(db', row) == AadOf(db, row);
    }
    forall x | x in db'.messages
      ensures x in db'.plain && db'.messages[x].session in db'.sessions
           && Decrypt(p, l, db', db'.messages[x].session, db'.messages[x]) == Some(db'.plain[x])
    {
      if x != id { StillDecrypts(p, l, db, db', db.messages[x], db.plain[x]); }
    }
  }

  // ---------------------------------------------------------------- runs

  datatype Step =
    | DoWrite(id: nat, message: MessageRow, text: string)
    | DoMigrate(id: nat)
    | DoEnsure(session: string)
    | DoRotate(session: string)
    | DoRewrap(session: string, outage: Option<nat>)

  function Perform(p: Provider, l: LegacyKeys, db: Db, step: Step): Db
    requires p.Valid()
  {
    match step
    case DoWrite(id, m, text) => (var r := WriteMessage(p, db, id, m, text); if r.Some? then r.value else db)
    case DoMigrate(id) => (var r := Migrate(p, l, db, id); if r.Some? then r.value else db)
    case DoEnsure(s) => (var r := EnsureKey(p, db, s); if r.Some? then r.value else db)
    case DoRotate(s) => (var r := Rotate(p, db, s); if r.Some? then r.value else db)
    case DoRewrap(s, outage) =>
      if s in db.sessions then RewrapFrom(p, db, s, 1, db.sessions[s].epoch, outage).0 else db
  }

  function PerformAll(p: Provider, l: LegacyKeys, db: Db, steps: seq<Step>): Db
    requires p.Valid()
    decreases |steps|
  {
    if |steps| == 0 then db else PerformAll(p, l, Perform(p, l, db, steps[0]), steps[1..])
  }

  lemma WritePreserves(p: Provider, l: LegacyKeys, db: Db, id: nat, m: MessageRow, text: string)
    requires Sound(p, l, db) && id !in db.plain && WriteMessage(p, db, id, m, text).Some?
    ensures var db' := WriteMessage(p, db, id, m, text).value;
      Sound(p, l, db') && Preserves(p, db, db') && id in db'.plain && db'.plain[id] == text
  {
    EnsurePreserves(p, l, db, m.session);
    var keyed := EnsureKey(p, db, m.session).value;
    StoredRowReadable(p, l, keyed, id, m, text);
    PreservesTransitive(p, db, keyed, WriteMessage(p, db, id, m, text).value);
  }

  lemma MigratePreserves(p: Provider, l: LegacyKeys, db: Db, id: nat)
    requires Sound(p, l, db) && Migrate(p, l, db, id).Some?
    ensures var db' := Migrate(p, l, db, id).value;
      && Sound(p, l, db') && Preserves(p, db, db')
      && id in db'.messages && db'.messages[id].scheme.Envelope?
  {
    var m := db.messages[id];
    if m.scheme.Legacy? {
      var text := OpenLegacy(l, m).value;
      assert db.plain[id] == text;
      EnsurePreserves(p, l, db, m.session);
      var keyed := EnsureKey(p, db, m.session).value;
      StoredRowReadable(p, l, keyed, id, m, text);
      MigrateUnfolds(p, l, db, id);
      PreservesTransitive(p, db, keyed, Migrate(p, l, db, id).value);
    }
  }

  /** Migration stores the sealed row under the text it already had. */
  lemma MigrateUnfolds(p: Provider, l: LegacyKeys, db: Db, id: nat)
    requires p.Valid() && Migrate(p, l, db, id).Some? && db.messages[id].scheme.Legacy?
    requires var text := OpenLegacy(l, db.messages[id]).value;
      var keyed := EnsureKey(p, db, db.messages[id].session).value;
      id in keyed.plain && keyed.plain[id] == text && db.messages[id].session in keyed.sessions
    ensures var m := db.messages[id];
      var (db1, row) := SealedRow(p, EnsureKey(p, db, m.session).value, m, OpenLegacy(l, m).value).value;
      && Migrate(p, l, db, id).value
         == db1.(messages := db1.messages[id := row], plain := db1.plain[id := OpenLegacy(l, m).value])
      && row.scheme.Envelope?
  {
    var m := db.messages[id];
    var keyed := EnsureKey(p, db, m.session).value;
    var (db1, row) := SealedRow(p, keyed, m, OpenLegacy(l, m).value).value;
    assert db1.plain[id := OpenLegacy(l, m).value] == db1.plain;
  }

  lemma PerformPreserves(p: Provider, l: LegacyKeys, db: Db, step: Step)
    requires Sound(p, l, db) && (step.DoWrite? ==> step.id !in db.plain)
    ensures Sound(p, l, Perform(p, l, db, step)) && Preserves(p, db, Perform(p, l, db, step))
  {
    match step
    case DoWrite(id, m, text) => if WriteMessage(p, db, id, m, text).Some? { WritePreserves(p, l, db, id, m, text); }
    case DoMigrate(id) => if Migrate(p, l, db, id).Some? { MigratePreserves(p, l, db, id); }
    case DoEnsure(s) => if EnsureKey(p, db, s).Some? { EnsurePreserves(p, l, db, s); }
    case DoRotate(s) => if Rotate(p, db, s).Some? { NewEpochPreserves(p, l, db, s); }
    case DoRewrap(s, outage) => if s in db.sessions { RewrapPreserves(p, l, db, s, 1, db.sessions[s].epoch, outage); }
  }

  /** Message ids are never reused. */
  predicate FreshWrites(p: Provider, l: LegacyKeys, db: Db, steps: seq<Step>)
    requires p.Valid()
    decreases |steps|
  {
    |steps| > 0 ==>
      && (steps[0].DoWrite? ==> steps[0].id !in db.plain)
      && FreshWrites(p, l, Perform(p, l, db, steps[0]), steps[1..])
  }

  /** After any run of writes, migrations, rotations and (possibly interrupted) rewraps, every message
      stored before or during the run still decrypts to its original text, and every session mirrors
      its current epoch row. */
  lemma {:induction false} EveryRunKeepsMessagesReadable(p: Provider, l: LegacyKeys, db: Db, steps: seq<Step>)
    requires Sound(p, l, db) && FreshWrites(p, l, db, steps)
    ensures Sound(p, l, PerformAll(p, l, db, steps)) && Preserves(p, db, PerformAll(p, l, db, steps))
    decreases |steps|
  {
    if |steps| > 0 {
      PerformPreserves(p, l, db, steps[0]);
      var db' := Perform(p, l, db, steps[0]);
      EveryRunKeepsMessagesReadable(p, l, db', steps[1..]);
      PreservesTransitive(p, db, db', PerformAll(p, l, db', steps[1..]));
    }
  }

  // ---------------------------------------------------------------- private sessions

  /** The session has no server-side data key. */
  predicate Keyless(db: Db, s: string) { forall k :: k in db.rows ==> k.0 != s }

  predicate Private(db: Db, s: string) { s in db.sessions && db.sessions[s].isPrivate }

  /** Sessions other than `s` may gain keys; `s` is as it was. */
  predicate Untouched(a: Db, b: Db, s: string) {
    (Private(a, s) ==> Private(b, s)) && (Keyless(a, s) ==> Keyless(b, s))
  }

  lemma NewEpochElsewhere(p: Provider, db: Db, session: string, s: string)
    requires p.Valid() && session in db.sessions && session != s
    ensures Untouched(db, NewEpoch(p, db, session), s)
  {
  }

  /** `ensure_session_key` refuses a private session. */
  lemma EnsureSparesPrivate(p: Provider, db: Db, session: string, s: string)
    requires p.Valid() && Private(db, s) && EnsureKey(p, db, session).Some?
    ensures Untouched(db, EnsureKey(p, db, session).value, s)
  {
    if EnsureKey(p, db, session).value != db { NewEpochElsewhere(p, db, session, s); }
  }

  lemma {:induction false} RewrapSpares(p: Provider, db: Db, session: string, from: nat, to: nat, outage: Option<nat>,
                                        s: string)
    requires p.Valid() && session in db.sessions
    ensures Untouched(db, RewrapFrom(p, db, session, from, to, outage).0, s)
    decreases if from <= to then to - from + 1 else 0
  {
    if from <= to && outage != Some(from) {
      var r := RewrapOne(p, db, session, from);
      if r.Some? {
        assert r.value.rows.Keys == db.rows.Keys;
        assert session in r.value.sessions;
        RewrapSpares(p, r.value, session, from + 1, to, outage, s);
      }
    }
  }

  /** Every step but a rotation that names it leaves a keyless private session keyless. */
  lemma OtherStepsSpare(p: Provider, l: LegacyKeys, db: Db, step: Step, s: string)
    requires p.Valid() && Private(db, s) && step != DoRotate(s)
    ensures Untouched(db, Perform(p, l, db, step), s)
  {
    match step
    case DoWrite(id, m, text) =>
      if WriteMessage(p, db, id, m, text).Some? { EnsureSparesPrivate(p, db, m.session, s); }
    case DoMigrate(id) =>
      if Migrate(p, l, db, id).Some? && db.messages[id].scheme.Legacy? {
        EnsureSparesPrivate(p, db, db.messages[id].session, s);
      }
    case DoEnsure(x) => if EnsureKey(p, db, x).Some? { EnsureSparesPrivate(p, db, x, s); }
    case DoRotate(x) => if Rotate(p, db, x).Some? { NewEpochElsewhere(p, db, x, s); }
    case DoRewrap(x, outage) =>
      if x in db.sessions { RewrapSpares(p, db, x, 1, db.sessions[x].epoch, outage, s); }
  }

  /** `rotate_session_dek` does not look at the security mode: it gives any keyless session its first key. */
  lemma RotateKeysAnySession(p: Provider, l: LegacyKeys, db: Db, s: string)
    requires Sound(p, l, db) && s in db.sessions && Keyless(db, s)
    ensures (s, 1) in Perform(p, l, db, DoRotate(s)).rows
  {
    assert (s, db.sessions[s].epoch) !in db.rows;
  }

  predicate Rotated(steps: seq<Step>, s: string) { exists i :: 0 <= i < |steps| && steps[i] == DoRotate(s) }

  /** Over every run, a private session without a key row still has none exactly if no rotation named it. */
  lemma {:induction false} PrivateStaysKeylessIff(p: Provider, l: LegacyKeys, db: Db, steps: seq<Step>, s: string)
    requires Sound(p, l, db) && FreshWrites(p, l, db, steps) && Private(db, s) && Keyless(db, s)
    ensures Keyless(PerformAll(p, l, db, steps), s) <==> !Rotated(steps, s)
    decreases |steps|
  {
    if |steps| > 0 {
      var db' := Perform(p, l, db, steps[0]);
      PerformPreserves(p, l, db, steps[0]);
      if steps[0] == DoRotate(s) {
        RotateKeysAnySession(p, l, db, s);
        EveryRunKeepsMessagesReadable(p, l, db', steps[1..]);
        assert (s, 1) in PerformAll(p, l, db', steps[1..]).rows;
      } else {
        OtherStepsSpare(p, l, db, steps[0], s);
        PrivateStaysKeylessIff(p, l, db', steps[1..], s);
        RotatedRest(steps, s);
      }
    }
  }

  lemma RotatedRest(steps: seq<Step>, s: string)
    requires |steps| > 0 && steps[0] != DoRotate(s)
    ensures Rotated(steps, s) <==> Rotated(steps[1..], s)
  {
    if Rotated(steps, s) {
      var i :| 0 <= i < |steps| && steps[i] == DoRotate(s);
      assert steps[1..][i - 1] == DoRotate(s);
    }
    if Rotated(steps[1..], s) {
      var i :| 0 <= i < |steps[1..]| && steps[1..][i] == DoRotate(s);
      assert steps[i + 1] == DoRotate(s);
    }
  }

  /** An empty store is sound, so all of the above holds of every run from one. */
  lemma EmptyIsSound(p: Provider, l: LegacyKeys, sessions: map<string, Session>, next: nat)
    requires p.Valid() && forall s :: s in sessions ==> sessions[s].epoch == 0
    ensures Sound(p, l, Db(sessions, map[], map[], map[], next))
  {
  }

  /** A ciphertext relabelled with another owner, session, message, index, role or epoch does not open,
      whatever key is found for it. */
  lemma MovedCiphertextIsRejected(p: Provider, l: LegacyKeys, db: Db, id: nat, other: Db, m: MessageRow,
                                  session: string)
    requires Sound(p, l, db) && id in db.messages && db.messages[id].scheme.Envelope?
    requires m.scheme.Envelope? && m.box == db.messages[id].box && m.session in other.sessions
    requires var o := db.messages[id];
      MessageContext(other.sessions[m.session].owner, m.session, m.uuid, m.index, m.role, m.epoch)
      != MessageContext(db.sessions[o.session].owner, o.session, o.uuid, o.index, o.role, o.epoch)
    ensures Decrypt(p, l, other, session, m).None?
  {
    var o := db.messages[id];
    assert Decrypt(p, l, db, o.session, o).Some?;
    if AadOf(other, m) == AadOf(db, o) {
      AadIsInjective(MessageContext(other.sessions[m.session].owner, m.session, m.uuid, m.index, m.role, m.epoch),
                     MessageContext(db.sessions[o.session].owner, o.session, o.uuid, o.index, o.role, o.epoch));
    }
  }
}
