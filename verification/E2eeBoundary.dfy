/** The server-side boundary of src/app/e2ee.py: canonical statements, opaque envelopes, replay keys. */
module E2eeBoundary {
  import opened Prelude
  import opened CanonicalJson
  import Base64Url

  // ---------------------------------------------------------------- canonical values

  /** What a caller may hand to `canonical_json_bytes`. */
  datatype Raw =
    | RawNull
    | RawBool(b: bool)
    | RawInt(n: int)
    | RawFloat
    | RawStr(s: string)
    | RawList(items: RawItems)
    | RawDict(fields: RawFields)
    | RawOther

  datatype RawItems = NoRawItems | RawItem(head: Raw, tail: RawItems)

  /** Fields in insertion order; `key` is None when it is not a string. */
  datatype RawFields = NoRawFields | RawField(key: Option<string>, value: Raw, rest: RawFields)

  const MAX_CANONICAL_DEPTH: nat := 16
  const MAX_CANONICAL_ITEMS: nat := 256
  const MIN_JSON_INTEGER: int := -0x8000_0000_0000_0000
  const MAX_JSON_INTEGER: int := 0x7fff_ffff_ffff_ffff

  /** Code-point order on keys. */
  predicate Less(a: string, b: string) {
    if |b| == 0 then false
    else if |a| == 0 then true
    else if a[0] != b[0] then a[0] < b[0]
    else Less(a[1..], b[1..])
  }

  /** Store a field; None when the key is already there. */
  function Store(fs: Fields, key: string, value: Json): Option<Fields> {
    match fs
    case NoFields => Some(Field(key, value, NoFields))
    case Field(k, v, rest) =>
      if key == k then None
      else if Less(key, k) then Some(Field(key, value, fs))
      else
        var r := Store(rest, key, value);
        if r.None? then None else Some(Field(k, v, r.value))
  }

  function ItemCount(items: RawItems): nat {
    if items.NoRawItems? then 0 else 1 + ItemCount(items.tail)
  }

  function FieldCount(fields: RawFields): nat {
    if fields.NoRawFields? then 0 else 1 + FieldCount(fields.rest)
  }

  /** `_canonical_value` with Unicode NFC as a parameter. */
  function Canonical(v: Raw, depth: nat, nfc: string -> string): Option<Json>
    decreases v
  {
    if depth > MAX_CANONICAL_DEPTH then None
    else match v
      case RawNull => Some(Null)
      case RawBool(b) => Some(Bool(b))
      case RawInt(n) => if MIN_JSON_INTEGER <= n <= MAX_JSON_INTEGER then Some(Int(n)) else None
      case RawFloat => None
      case RawStr(s) => Some(Str(nfc(s)))
      case RawList(items) =>
        if ItemCount(items) > MAX_CANONICAL_ITEMS then None
        else
          var r := CanonicalItems(items, depth + 1, nfc);
          if r.None? then None else Some(Arr(r.value))
      case RawDict(fields) =>
        if FieldCount(fields) > MAX_CANONICAL_ITEMS then None
        else
          var r := CanonicalFields(NoFields, fields, depth + 1, nfc);
          if r.None? then None else Some(Obj(r.value))
      case RawOther => None
  }

  function CanonicalItems(items: RawItems, depth: nat, nfc: string -> string): Option<Items>
    decreases items
  {
    match items
    case NoRawItems => Some(NoItems)
    case RawItem(head, tail) =>
      var h, t := Canonical(head, depth, nfc), CanonicalItems(tail, depth, nfc);
      if h.None? || t.None? then None else Some(Item(h.value, t.value))
  }

  /** The loop over `value.items()`: normalise the key, refuse a duplicate, store the value. */
  function CanonicalFields(sofar: Fields, fields: RawFields, depth: nat, nfc: string -> string): Option<Fields>
    decreases fields
  {
    match fields
    case NoRawFields => Some(sofar)
    case RawField(key, value, rest) =>
      if key.None? then None
      else
        var v := Canonical(value, depth, nfc);
        if v.None? then None
        else
          var stored := Store(sofar, nfc(key.value), v.value);
          if stored.None? then None else CanonicalFields(stored.value, rest, depth, nfc)
  }

  predicate Lower(c: char) { 'a' <= c <= 'z' }

  /** `^[a-z][a-z0-9.-]{2,95}$`. */
  predicate ValidSchema(s: string) {
    && 3 <= |s| <= 96 && Lower(s[0])
    && forall i :: 0 < i < |s| ==> Lower(s[i]) || IsDigit(s[i]) || s[i] == '.' || s[i] == '-'
  }

  function Document(payload: Json, schema: string, version: int): Json {
    Obj(Field("payload", payload, Field("schema", Str(schema), Field("version", Int(version), NoFields))))
  }

  /** `canonical_json_bytes`. */
  function CanonicalText(payload: Raw, schema: string, version: int, nfc: string -> string): Option<string> {
    if !payload.RawDict? || !ValidSchema(schema) || !(1 <= version < 0x8000_0000) then None
    else
      var c := Canonical(payload, 0, nfc);
      if c.None? then None else Some(Print(Document(c.value, schema, version)))
  }

  /** Signed statements are unambiguous: the bytes fix schema, version and canonical payload. */
  lemma StatementsAreUnambiguous(p: Raw, q: Raw, schema: string, schema': string, version: int, version': int,
                                 nfc: string -> string)
    requires CanonicalText(p, schema, version, nfc).Some?
    requires CanonicalText(p, schema, version, nfc) == CanonicalText(q, schema', version', nfc)
    ensures schema == schema' && version == version' && Canonical(p, 0, nfc) == Canonical(q, 0, nfc)
  {
    var a, b := Canonical(p, 0, nfc).value, Canonical(q, 0, nfc).value;
    PrintIsInjective(Document(a, schema, version), Document(b, schema', version'));
  }

  /** Keys strictly increase, at this level and in every nested dict. */
  predicate Ordered(v: Json) {
    match v
    case Arr(items) => OrderedItems(items)
    case Obj(fields) => OrderedFields(fields)
    case _ => true
  }

  predicate OrderedItems(items: Items) {
    items.Item? ==> Ordered(items.head) && OrderedItems(items.tail)
  }

  predicate OrderedFields(fields: Fields) {
    fields.Field? ==>
      && Ordered(fields.value) && OrderedFields(fields.rest)
      && (fields.rest.Field? ==> Less(fields.key, fields.rest.key))
  }

  lemma {:induction false} LessTotal(a: string, b: string)
    ensures a == b || Less(a, b) || Less(b, a)
    ensures !(Less(a, b) && Less(b, a)) && !Less(a, a)
  {
    if |a| > 0 && |b| > 0 && a[0] == b[0] {
      LessTotal(a[1..], b[1..]);
      assert a == [a[0]] + a[1..] && b == [b[0]] + b[1..];
      LessIrreflexive(a);
    } else {
      LessIrreflexive(a);
    }
  }

  lemma {:induction false} LessIrreflexive(a: string)
    ensures !Less(a, a)
  {
    if |a| > 0 { LessIrreflexive(a[1..]); }
  }

  lemma {:induction false} LessTransitive(a: string, b: string, c: string)
    requires Less(a, b) && Less(b, c)
    ensures Less(a, c)
  {
    if |a| > 0 && |b| > 0 && |c| > 0 && a[0] == b[0] && b[0] == c[0] {
      LessTransitive(a[1..], b[1..], c[1..]);
    }
  }

  lemma {:induction false} StoreOrdered(fs: Fields, key: string, value: Json)
    requires OrderedFields(fs) && Ordered(value) && Store(fs, key, value).Some?
    ensures OrderedFields(Store(fs, key, value).value)
    ensures fs.Field? ==> var r := Store(fs, key, value).value; r.Field? && (r.key == key || r.key == fs.key)
    decreases fs
  {
    if fs.Field? && key != fs.key && !Less(key, fs.key) {
      LessTotal(key, fs.key);
      StoreOrdered(fs.rest, key, value);
    }
  }

  /** A canonical value has its keys in strict code-point order everywhere. */
  lemma {:induction false} CanonicalIsOrdered(v: Raw, depth: nat, nfc: string -> string)
    requires Canonical(v, depth, nfc).Some?
    ensures Ordered(Canonical(v, depth, nfc).value)
    decreases v
  {
    match v
    case RawList(items) => ItemsOrdered(items, depth + 1, nfc);
    case RawDict(fields) => FieldsOrdered(NoFields, fields, depth + 1, nfc);
    case _ =>
  }

  lemma {:induction false} ItemsOrdered(items: RawItems, depth: nat, nfc: string -> string)
    requires CanonicalItems(items, depth, nfc).Some?
    ensures OrderedItems(CanonicalItems(items, depth, nfc).value)
    decreases items
  {
    if items.RawItem? {
      CanonicalIsOrdered(items.head, depth, nfc);
      ItemsOrdered(items.tail, depth, nfc);
    }
  }

  lemma {:induction false} FieldsOrdered(sofar: Fields, fields: RawFields, depth: nat, nfc: string -> string)
    requires OrderedFields(sofar) && CanonicalFields(sofar, fields, depth, nfc).Some?
    ensures OrderedFields(CanonicalFields(sofar, fields, depth, nfc).value)
    decreases fields
  {
    if fields.RawField? {
      var v := Canonical(fields.value, depth, nfc).value;
      CanonicalIsOrdered(fields.value, depth, nfc);
      StoreOrdered(sofar, nfc(fields.key.value), v);
      FieldsOrdered(Store(sofar, nfc(fields.key.value), v).value, fields.rest, depth, nfc);
    }
  }

  // ---------------------------------------------------------------- one text per meaning

  /** The j-th field in insertion order. */
  function FieldAt(fields: RawFields, j: nat): (Option<string>, Raw)
    requires j < FieldCount(fields)
  {
    if j == 0 then (fields.key, fields.value) else FieldAt(fields.rest, j - 1)
  }

  function WithoutField(fields: RawFields, j: nat): RawFields
    requires j < FieldCount(fields)
  {
    if j == 0 then fields.rest else RawField(fields.key, fields.value, WithoutField(fields.rest, j - 1))
  }

  /** Equal up to Unicode normalisation and, at every depth, up to the insertion order of dict fields. */
  ghost predicate Alike(a: Raw, b: Raw, nfc: string -> string)
    decreases a
  {
    match a
    case RawStr(s) => b.RawStr? && nfc(s) == nfc(b.s)
    case RawList(items) => b.RawList? && AlikeItems(items, b.items, nfc)
    case RawDict(fields) => b.RawDict? && AlikeFields(fields, b.fields, nfc)
    case _ => a == b
  }

  ghost predicate AlikeItems(a: RawItems, b: RawItems, nfc: string -> string)
    decreases a
  {
    if a.NoRawItems? then b.NoRawItems?
    else b.RawItem? && Alike(a.head, b.head, nfc) && AlikeItems(a.tail, b.tail, nfc)
  }

  predicate AlikeKey(a: Option<string>, b: Option<string>, nfc: string -> string) {
    if a.None? then b.None? else b.Some? && nfc(a.value) == nfc(b.value)
  }

  ghost predicate AlikeFields(f: RawFields, g: RawFields, nfc: string -> string)
    decreases f
  {
    if f.NoRawFields? then g.NoRawFields?
    else exists j: nat ::
      && j < FieldCount(g) && AlikeKey(f.key, FieldAt(g, j).0, nfc) && Alike(f.value, FieldAt(g, j).1, nfc)
      && AlikeFields(f.rest, WithoutField(g, j), nfc)
  }

  function StoreBoth(fs: Fields, a: string, x: Json, b: string, y: Json): Option<Fields> {
    var first := Store(fs, a, x);
    if first.None? then None else Store(first.value, b, y)
  }

  /** The order of two stores does not matter. */
  lemma {:induction false} StoreCommutes(fs: Fields, a: string, x: Json, b: string, y: Json)
    ensures StoreBoth(fs, a, x, b, y).None? || a != b
    ensures a != b ==> StoreBoth(fs, a, x, b, y) == StoreBoth(fs, b, y, a, x)
    decreases fs
  {
    LessTotal(a, b);
    if fs.Field? {
      var k := fs.key;
      LessTotal(a, k);
      LessTotal(b, k);
      if Less(a, k) && Less(k, b) { LessTransitive(a, k, b); }
      if Less(b, k) && Less(k, a) { LessTransitive(b, k, a); }
      if Less(k, a) && Less(k, b) { StoreCommutes(fs.rest, a, x, b, y); }
    }
  }

  /** Two neighbouring fields may change places. */
  lemma {:induction false} NeighboursSwap(sofar: Fields, k: Option<string>, v: Raw, l: Option<string>, u: Raw,
                                          rest: RawFields, depth: nat, nfc: string -> string)
    ensures CanonicalFields(sofar, RawField(k, v, RawField(l, u, rest)), depth, nfc)
         == CanonicalFields(sofar, RawField(l, u, RawField(k, v, rest)), depth, nfc)
  {
    var x, y := Canonical(v, depth, nfc), Canonical(u, depth, nfc);
    if k.Some? && l.Some? && x.Some? && y.Some? {
      StoreCommutes(sofar, nfc(k.value), x.value, nfc(l.value), y.value);
      StoreCommutes(sofar, nfc(l.value), y.value, nfc(k.value), x.value);
    }
  }

  /** Any field may come first. */
  lemma {:induction false} FieldToFront(sofar: Fields, g: RawFields, j: nat, depth: nat, nfc: string -> string)
    requires j < FieldCount(g)
    ensures CanonicalFields(sofar, g, depth, nfc)
         == CanonicalFields(sofar, RawField(FieldAt(g, j).0, FieldAt(g, j).1, WithoutField(g, j)), depth, nfc)
    ensures FieldCount(WithoutField(g, j)) == FieldCount(g) - 1
    decreases g
  {
    if j > 0 {
      var at, others := FieldAt(g.rest, j - 1), WithoutField(g.rest, j - 1);
      FieldToFront(sofar, g.rest, j - 1, depth, nfc);
      if g.key.Some? && Canonical(g.value, depth, nfc).Some? {
        var stored := Store(sofar, nfc(g.key.value), Canonical(g.value, depth, nfc).value);
        if stored.Some? { FieldToFront(stored.value, g.rest, j - 1, depth, nfc); }
      }
      NeighboursSwap(sofar, g.key, g.value, at.0, at.1, others, depth, nfc);
    }
  }

  /** Alike values are canonicalised alike, and refused alike. */
  lemma {:induction false} AlikeAgree(a: Raw, b: Raw, depth: nat, nfc: string -> string)
    requires Alike(a, b, nfc)
    ensures Canonical(a, depth, nfc) == Canonical(b, depth, nfc)
    decreases a
  {
    match a
    case RawList(items) => AlikeItemsAgree(items, b.items, depth + 1, nfc);
    case RawDict(fields) => AlikeFieldsAgree(NoFields, fields, b.fields, depth + 1, nfc);
    case _ =>
  }

  lemma {:induction false} AlikeItemsAgree(a: RawItems, b: RawItems, depth: nat, nfc: string -> string)
    requires AlikeItems(a, b, nfc)
    ensures ItemCount(a) == ItemCount(b) && CanonicalItems(a, depth, nfc) == CanonicalItems(b, depth, nfc)
    decreases a
  {
    if a.RawItem? {
      AlikeAgree(a.head, b.head, depth, nfc);
      AlikeItemsAgree(a.tail, b.tail, depth, nfc);
    }
  }

  lemma {:induction false} AlikeFieldsAgree(sofar: Fields, f: RawFields, g: RawFields, depth: nat,
                                            nfc: string -> string)
    requires AlikeFields(f, g, nfc)
    ensures FieldCount(f) == FieldCount(g)
    ensures CanonicalFields(sofar, f, depth, nfc) == CanonicalFields(sofar, g, depth, nfc)
    decreases f
  {
    if f.RawField? {
      var j: nat :| j < FieldCount(g) && AlikeKey(f.key, FieldAt(g, j).0, nfc)
        && Alike(f.value, FieldAt(g, j).1, nfc) && AlikeFields(f.rest, WithoutField(g, j), nfc);
      FieldToFront(sofar, g, j, depth, nfc);
      AlikeAgree(f.value, FieldAt(g, j).1, depth, nfc);
      AlikeFieldsAgree(sofar, f.rest, WithoutField(g, j), depth, nfc);
      var v := Canonical(f.value, depth, nfc);
      if f.key.Some? && v.Some? {
        var stored := Store(sofar, nfc(f.key.value), v.value);
        if stored.Some? { AlikeFieldsAgree(stored.value, f.rest, WithoutField(g, j), depth, nfc); }
      }
    }
  }

  predicate Has(fs: Fields, key: string, value: Json) {
    fs.Field? && ((fs.key == key && fs.value == value) || Has(fs.rest, key, value))
  }

  lemma {:induction false} StoreAdds(fs: Fields, key: string, value: Json, k: string, v: Json)
    requires Store(fs, key, value).Some?
    ensures Has(Store(fs, key, value).value, k, v) <==> Has(fs, k, v) || (k == key && v == value)
    decreases fs
  {
    if fs.Field? && key != fs.key && !Less(key, fs.key) { StoreAdds(fs.rest, key, value, k, v); }
  }

  /** A key below the first one of ordered fields is not among them. */
  lemma {:induction false} BelowIsAbsent(fs: Fields, key: string, value: Json)
    requires OrderedFields(fs) && (fs.Field? ==> Less(key, fs.key))
    ensures !Has(fs, key, value)
    decreases fs
  {
    if fs.Field? {
      LessIrreflexive(key);
      if fs.rest.Field? { LessTransitive(key, fs.key, fs.rest.key); }
      BelowIsAbsent(fs.rest, key, value);
    }
  }

  /** A key can be stored only where it is new. */
  lemma {:induction false} StoredIsNew(fs: Fields, key: string, value: Json, other: Json)
    requires OrderedFields(fs) && Store(fs, key, value).Some?
    ensures !Has(fs, key, other)
    decreases fs
  {
    if fs.Field? {
      if Less(key, fs.key) {
        BelowIsAbsent(fs, key, other);
      } else {
        StoredIsNew(fs.rest, key, value, other);
      }
    }
  }

  /** Fields once stored stay. */
  lemma {:induction false} StoredStays(sofar: Fields, f: RawFields, depth: nat, nfc: string -> string, k: string,
                                       v: Json)
    requires CanonicalFields(sofar, f, depth, nfc).Some? && Has(sofar, k, v)
    ensures Has(CanonicalFields(sofar, f, depth, nfc).value, k, v)
    decreases f
  {
    if f.RawField? {
      var key, value := nfc(f.key.value), Canonical(f.value, depth, nfc).value;
      StoreAdds(sofar, key, value, k, v);
      StoredStays(Store(sofar, key, value).value, f.rest, depth, nfc, k, v);
    }
  }

  /** A field of the result that was not there before comes from a raw field. */
  lemma {:induction false} FieldHasOrigin(sofar: Fields, g: RawFields, depth: nat, nfc: string -> string, k: string,
                                          v: Json)
    returns (j: nat)
    requires CanonicalFields(sofar, g, depth, nfc).Some?
    requires Has(CanonicalFields(sofar, g, depth, nfc).value, k, v) && !Has(sofar, k, v)
    ensures j < FieldCount(g) && FieldAt(g, j).0.Some? && nfc(FieldAt(g, j).0.value) == k
    ensures Canonical(FieldAt(g, j).1, depth, nfc) == Some(v)
    decreases g
  {
    var key, value := nfc(g.key.value), Canonical(g.value, depth, nfc).value;
    if key == k && value == v { return 0; }
    StoreAdds(sofar, key, value, k, v);
    var i := FieldHasOrigin(Store(sofar, key, value).value, g.rest, depth, nfc, k, v);
    return i + 1;
  }

  /** Equal canonical values come from alike raw ones. */
  lemma {:induction false} AgreeAlike(a: Raw, b: Raw, depth: nat, nfc: string -> string)
    requires Canonical(a, depth, nfc).Some? && Canonical(a, depth, nfc) == Canonical(b, depth, nfc)
    ensures Alike(a, b, nfc)
    decreases a
  {
    match a
    case RawList(items) => AgreeAlikeItems(items, b.items, depth + 1, nfc);
    case RawDict(fields) => AgreeAlikeFields(NoFields, fields, b.fields, depth + 1, nfc);
    case _ =>
  }

  lemma {:induction false} AgreeAlikeItems(a: RawItems, b: RawItems, depth: nat, nfc: string -> string)
    requires CanonicalItems(a, depth, nfc).Some? && CanonicalItems(a, depth, nfc) == CanonicalItems(b, depth, nfc)
    ensures AlikeItems(a, b, nfc)
    decreases a
  {
    if a.RawItem? {
      AgreeAlike(a.head, b.head, depth, nfc);
      AgreeAlikeItems(a.tail, b.tail, depth, nfc);
    }
  }

  lemma {:induction false} AgreeAlikeFields(sofar: Fields, f: RawFields, g: RawFields, depth: nat,
                                            nfc: string -> string)
    requires OrderedFields(sofar) && CanonicalFields(sofar, f, depth, nfc).Some?
    requires CanonicalFields(sofar, f, depth, nfc) == CanonicalFields(sofar, g, depth, nfc)
    ensures AlikeFields(f, g, nfc)
    decreases f
  {
    if f.NoRawFields? {
      if g.RawField? { NothingAdded(sofar, g, depth, nfc); }
    } else {
      var k, v := nfc(f.key.value), Canonical(f.value, depth, nfc).value;
      var next := Store(sofar, k, v).value;
      StoreAdds(sofar, k, v, k, v);
      StoredStays(next, f.rest, depth, nfc, k, v);
      StoredIsNew(sofar, k, v, v);
      var j := FieldHasOrigin(sofar, g, depth, nfc, k, v);
      FieldToFront(sofar, g, j, depth, nfc);
      AgreeAlike(f.value, FieldAt(g, j).1, depth, nfc);
      CanonicalIsOrdered(f.value, depth, nfc);
      StoreOrdered(sofar, k, v);
      AgreeAlikeFields(next, f.rest, WithoutField(g, j), depth, nfc);
    }
  }

  /** A field that is read always leaves something new. */
  lemma {:induction false} NothingAdded(sofar: Fields, g: RawFields, depth: nat, nfc: string -> string)
    requires OrderedFields(sofar) && g.RawField?
    ensures CanonicalFields(sofar, g, depth, nfc) != Some(sofar)
  {
    if CanonicalFields(sofar, g, depth, nfc).Some? {
      var k, v := nfc(g.key.value), Canonical(g.value, depth, nfc).value;
      StoreAdds(sofar, k, v, k, v);
      StoredStays(Store(sofar, k, v).value, g.rest, depth, nfc, k, v);
      StoredIsNew(sofar, k, v, v);
    }
  }

  /** One text per meaning: two accepted statements have the same bytes exactly when schema and version agree and the
      payloads differ only in normalisation and in the order of dict fields. */
  lemma {:induction false} OneTextPerMeaning(p: Raw, q: Raw, schema: string, schema': string, version: int,
                                             version': int, nfc: string -> string)
    requires CanonicalText(p, schema, version, nfc).Some?
    ensures CanonicalText(p, schema, version, nfc) == CanonicalText(q, schema', version', nfc)
       <==> schema == schema' && version == version' && Alike(p, q, nfc)
  {
    if CanonicalText(p, schema, version, nfc) == CanonicalText(q, schema', version', nfc) {
      StatementsAreUnambiguous(p, q, schema, schema', version, version', nfc);
      AgreeAlike(p, q, 0, nfc);
    }
    if schema == schema' && version == version' && Alike(p, q, nfc) {
      AlikeAgree(p, q, 0, nfc);
    }
  }

  // ---------------------------------------------------------------- replay keys

  predicate IdentifierHead(c: char) { 'A' <= c <= 'Z' || Lower(c) || IsDigit(c) }

  predicate IdentifierTail(c: char) { IdentifierHead(c) || c == '.' || c == '_' || c == ':' || c == '@' || c == '-' }

  /** `_identifier`. */
  predicate IsIdentifier(s: string) {
    1 <= |s| <= 128 && IdentifierHead(s[0]) && forall i :: 0 < i < |s| ==> IdentifierTail(s[i])
  }

  /** The text hashed by `make_replay_key`: addressee, message id and, if known, the sender. */
  function ReplayText(recipient: string, messageId: string, sender: Option<string>, nfc: string -> string)
    : Option<string>
  {
    if !IsIdentifier(recipient) || !IsIdentifier(messageId) || (sender.Some? && !IsIdentifier(sender.value)) then None
    else CanonicalText(RawDict(ReplayFields(recipient, messageId, sender)), "scap.e2ee.replay-key", 1, nfc)
  }

  function ReplayFields(recipient: string, messageId: string, sender: Option<string>): RawFields {
    RawField(Some("client_message_id"), RawStr(messageId), RawField(Some("recipient"), RawStr(recipient),
      if sender.None? then NoRawFields else RawField(Some("sender_device_id"), RawStr(sender.value), NoRawFields)))
  }

  /** NFC leaves ASCII identifiers and the field names alone. */
  ghost predicate KeepsNames(nfc: string -> string) {
    && (forall s :: IsIdentifier(s) ==> nfc(s) == s)
    && nfc("client_message_id") == "client_message_id"
    && nfc("recipient") == "recipient"
    && nfc("sender_device_id") == "sender_device_id"
  }

  function ReplayPayload(recipient: string, messageId: string, sender: Option<string>): Json {
    Obj(Field("client_message_id", Str(messageId), Field("recipient", Str(recipient),
      if sender.None? then NoFields else Field("sender_device_id", Str(sender.value), NoFields))))
  }

  /** The keys start with strictly increasing letters, so each is stored behind the previous ones. */
  predicate Rising(a: string, b: string) { |a| > 0 && |b| > 0 && a[0] < b[0] }

  lemma StoreSecond(a: string, x: Json, b: string, y: Json)
    requires Rising(a, b)
    ensures Store(Field(a, x, NoFields), b, y) == Some(Field(a, x, Field(b, y, NoFields)))
  {
    assert !Less(b, a);
  }

  lemma StoreThird(a: string, x: Json, b: string, y: Json, c: string, z: Json)
    requires Rising(a, b) && Rising(b, c)
    ensures Store(Field(a, x, Field(b, y, NoFields)), c, z) == Some(Field(a, x, Field(b, y, Field(c, z, NoFields))))
  {
    StoreSecond(b, y, c, z);
    assert !Less(c, a);
  }

  /** Two string fields, and a third, in rising key order. */
  lemma TwoFields(a: string, s: string, b: string, t: string, rest: RawFields, nfc: string -> string)
    requires Rising(a, b) && nfc(a) == a && nfc(b) == b && nfc(s) == s && nfc(t) == t
    ensures CanonicalFields(NoFields, RawField(Some(a), RawStr(s), RawField(Some(b), RawStr(t), rest)), 1, nfc)
         == CanonicalFields(Field(a, Str(s), Field(b, Str(t), NoFields)), rest, 1, nfc)
  {
    StoreSecond(a, Str(s), b, Str(t));
    assert Canonical(RawStr(s), 1, nfc) == Some(Str(s)) && Canonical(RawStr(t), 1, nfc) == Some(Str(t));
    assert CanonicalFields(Field(a, Str(s), NoFields), RawField(Some(b), RawStr(t), rest), 1, nfc)
        == CanonicalFields(Field(a, Str(s), Field(b, Str(t), NoFields)), rest, 1, nfc);
  }

  lemma ThirdField(a: string, s: string, b: string, t: string, c: string, u: string, nfc: string -> string)
    requires Rising(a, b) && Rising(b, c) && nfc(c) == c && nfc(u) == u
    ensures CanonicalFields(Field(a, Str(s), Field(b, Str(t), NoFields)),
                            RawField(Some(c), RawStr(u), NoRawFields), 1, nfc)
         == Some(Field(a, Str(s), Field(b, Str(t), Field(c, Str(u), NoFields))))
  {
    StoreThird(a, Str(s), b, Str(t), c, Str(u));
    assert Canonical(RawStr(u), 1, nfc) == Some(Str(u));
  }

  lemma ReplayFieldsAre(recipient: string, messageId: string, sender: Option<string>, nfc: string -> string)
    requires KeepsNames(nfc) && IsIdentifier(recipient) && IsIdentifier(messageId)
    requires sender.Some? ==> IsIdentifier(sender.value)
    ensures CanonicalFields(NoFields, ReplayFields(recipient, messageId, sender), 1, nfc)
         == Some(ReplayPayload(recipient, messageId, sender).fields)
  {
    var last := if sender.None? then NoRawFields
                else RawField(Some("sender_device_id"), RawStr(sender.value), NoRawFields);
    TwoFields("client_message_id", messageId, "recipient", recipient, last, nfc);
    if sender.Some? {
      ThirdField("client_message_id", messageId, "recipient", recipient, "sender_device_id", sender.value, nfc);
    }
  }

  lemma ReplayPayloadIs(recipient: string, messageId: string, sender: Option<string>, nfc: string -> string)
    requires KeepsNames(nfc) && ReplayText(recipient, messageId, sender, nfc).Some?
    ensures ReplayText(recipient, messageId, sender, nfc)
         == Some(Print(Document(ReplayPayload(recipient, messageId, sender), "scap.e2ee.replay-key", 1)))
  {
    ReplayFieldsAre(recipient, messageId, sender, nfc);
  }

  /** Two requests share a replay text exactly when sender, addressee and message id agree. */
  lemma ReplayTextIsExact(r: string, m: string, s: Option<string>, r': string, m': string, s': Option<string>,
                          nfc: string -> string)
    requires KeepsNames(nfc)
    requires ReplayText(r, m, s, nfc).Some? && ReplayText(r', m', s', nfc).Some?
    ensures ReplayText(r, m, s, nfc) == ReplayText(r', m', s', nfc) <==> r == r' && m == m' && s == s'
  {
    ReplayPayloadIs(r, m, s, nfc);
    ReplayPayloadIs(r', m', s', nfc);
    if ReplayText(r, m, s, nfc) == ReplayText(r', m', s', nfc) {
      PrintIsInjective(Document(ReplayPayload(r, m, s), "scap.e2ee.replay-key", 1),
                       Document(ReplayPayload(r', m', s'), "scap.e2ee.replay-key", 1));
    }
  }

  // ---------------------------------------------------------------- opaque envelopes

  datatype Scalar = ScalarNull | ScalarBool(b: bool) | ScalarInt(n: int) | ScalarStr(s: string) | ScalarOther

  datatype OpaqueEnvelope = OpaqueEnvelope(
    version: int, protocol: string, recipient: string, epoch: int, messageId: string,
    header: string, ciphertext: string, headerSize: nat, ciphertextSize: nat, sender: Option<string>)

  const MAX_HEADER_BYTES: nat := 16 * 1024
  const MAX_CIPHERTEXT_BYTES: nat := 1024 * 1024
  const MIN_CIPHERTEXT_BYTES: nat := 16

  /** Field names of an envelope, with their aliases; `Unknown` is anything else. */
  datatype Name =
    | Version | Protocol | Recipient | RecipientId | Epoch | ClientMessageId
    | Header | HeaderB64 | Ciphertext | CiphertextB64 | SenderDeviceId
    | Unknown(name: string)

  type Mapping = map<Name, Scalar>

  function Get(m: Mapping, key: Name): Scalar { if key in m then m[key] else ScalarNull }

  /** `_one_alias`: exactly one of the two spellings. */
  function OneAlias(m: Mapping, name: Name, alias: Name): Option<Scalar> {
    if name in m && alias !in m then Some(m[name])
    else if name !in m && alias in m then Some(m[alias])
    else None
  }

  function Text(x: Option<Scalar>): Option<string> {
    if x.Some? && x.value.ScalarStr? then Some(x.value.s) else None
  }

  function Identifier(x: Option<Scalar>): Option<string> {
    var t := Text(x);
    if t.Some? && IsIdentifier(t.value) then t else None
  }

  predicate SupportedProtocol(s: string) { s == "double-ratchet" || s == "mls-rfc9420" }

  /** An opaque field once decoded: its canonical text and its size in bytes. */
  datatype Opaque = Opaque(text: string, size: nat)

  /** How an opaque field is decoded within size limits and encoded again. */
  type Recoder = (string, nat, nat) -> Option<Opaque>

  /** Strict base64url in, canonical padded base64url out. */
  function Recode(text: string, min: nat, max: nat): Option<Opaque> {
    var bs := Base64Url.DecodeStrict(text, Base64Url.Limits(min, Some(max), None));
    if bs.None? then None else Some(Opaque(Base64Url.Encode(bs.value), |bs.value|))
  }

  /** Canonical text is accepted again, unchanged. */
  ghost predicate Stable(recode: Recoder) {
    forall text, min, max {:trigger recode(text, min, max)} ::
      var r := recode(text, min, max); r.Some? ==> recode(r.value.text, min, max) == r
  }

  lemma RecodeIsStable()
    ensures Stable(Recode)
  {
    forall text, min: nat, max: nat
      ensures var r := Recode(text, min, max); r.Some? ==> Recode(r.value.text, min, max) == r
    {
      var l := Base64Url.Limits(min, Some(max), None);
      if Base64Url.DecodeStrict(text, l).Some? {
        Base64Url.AcceptedIsCanonical(text, l);
        Base64Url.CanonicalIsAccepted(Base64Url.DecodeStrict(text, l).value, l);
      }
    }
  }

  function RecodeField(recode: Recoder, x: Option<Scalar>, min: nat, max: nat): Option<Opaque> {
    var t := Text(x);
    if t.None? then None else recode(t.value, min, max)
  }

  datatype Routing = Routing(protocol: string, recipient: string, epoch: int, messageId: string, sender: Option<string>)

  datatype Bodies = Bodies(header: Opaque, ciphertext: Opaque)

  /** The routing half of the checks. */
  function CheckRouting(m: Mapping, expected: Option<string>): Option<Routing> {
    var protocol := Text(Some(Get(m, Protocol)));
    var recipient := Identifier(OneAlias(m, Recipient, RecipientId));
    var epoch := Get(m, Epoch);
    var messageId := Identifier(Some(Get(m, ClientMessageId)));
    var raw := Get(m, SenderDeviceId);
    var sender := if raw.ScalarNull? then None else Identifier(Some(raw));
    if protocol.None? || !SupportedProtocol(protocol.value) || recipient.None? then None
    else if expected.Some? && (!IsIdentifier(expected.value) || recipient.value != expected.value) then None
    else if !epoch.ScalarInt? || !(0 <= epoch.n <= MAX_JSON_INTEGER) || messageId.None? then None
    else if !raw.ScalarNull? && sender.None? then None
    else Some(Routing(protocol.value, recipient.value, epoch.n, messageId.value, sender))
  }

  /** The opaque half: strict base64url within the size limits. */
  function CheckBodies(recode: Recoder, m: Mapping, maxHeader: nat, maxCiphertext: nat): Option<Bodies> {
    var header := RecodeField(recode, OneAlias(m, Header, HeaderB64), 1, maxHeader);
    var ciphertext := RecodeField(recode, OneAlias(m, Ciphertext, CiphertextB64), MIN_CIPHERTEXT_BYTES, maxCiphertext);
    if header.None? || ciphertext.None? then None else Some(Bodies(header.value, ciphertext.value))
  }

  predicate LimitsAccepted(maxHeader: nat, maxCiphertext: nat) {
    1 <= maxHeader <= MAX_HEADER_BYTES && MIN_CIPHERTEXT_BYTES <= maxCiphertext <= MAX_CIPHERTEXT_BYTES
  }

  /** `validate_opaque_envelope`; None is a refusal. */
  function Validate(m: Mapping, expected: Option<string>, maxHeader: nat, maxCiphertext: nat): Option<OpaqueEnvelope> {
    ValidateWith(Recode, m, expected, maxHeader, maxCiphertext)
  }

  function ValidateWith(recode: Recoder, m: Mapping, expected: Option<string>, maxHeader: nat, maxCiphertext: nat)
    : Option<OpaqueEnvelope>
  {
    if !LimitsAccepted(maxHeader, maxCiphertext) || (exists k :: k in m && k.Unknown?) then None
    else if Get(m, Version) != ScalarInt(1) then None
    else
      var r, b := CheckRouting(m, expected), CheckBodies(recode, m, maxHeader, maxCiphertext);
      if r.None? || b.None? then None else Some(Seal(r.value, b.value))
  }

  function Seal(r: Routing, b: Bodies): OpaqueEnvelope {
    OpaqueEnvelope(1, r.protocol, r.recipient, r.epoch, r.messageId, b.header.text, b.ciphertext.text,
                   b.header.size, b.ciphertext.size, r.sender)
  }

  /** `as_dict`. */
  function AsDict(e: OpaqueEnvelope): Mapping {
    var m := map[Version := ScalarInt(e.version), Protocol := ScalarStr(e.protocol),
                 Recipient := ScalarStr(e.recipient), Epoch := ScalarInt(e.epoch),
                 ClientMessageId := ScalarStr(e.messageId),
                 Header := ScalarStr(e.header), Ciphertext := ScalarStr(e.ciphertext)];
    if e.sender.None? then m else m[SenderDeviceId := ScalarStr(e.sender.value)]
  }

  lemma RoutingOfDict(m: Mapping, expected: Option<string>, b: Bodies)
    requires CheckRouting(m, expected).Some?
    ensures CheckRouting(AsDict(Seal(CheckRouting(m, expected).value, b)), expected) == CheckRouting(m, expected)
  {
    var r := CheckRouting(m, expected).value;
    var d := AsDict(Seal(r, b));
    assert OneAlias(d, Recipient, RecipientId) == Some(ScalarStr(r.recipient));
  }

  lemma BodiesOfDict(recode: Recoder, m: Mapping, r: Routing, maxHeader: nat, maxCiphertext: nat)
    requires Stable(recode) && CheckBodies(recode, m, maxHeader, maxCiphertext).Some?
    ensures var b := CheckBodies(recode, m, maxHeader, maxCiphertext).value;
      CheckBodies(recode, AsDict(Seal(r, b)), maxHeader, maxCiphertext) == Some(b)
  {
    var b := CheckBodies(recode, m, maxHeader, maxCiphertext).value;
    var d := AsDict(Seal(r, b));
    assert OneAlias(d, Header, HeaderB64) == Some(ScalarStr(b.header.text));
    assert OneAlias(d, Ciphertext, CiphertextB64) == Some(ScalarStr(b.ciphertext.text));
  }

  lemma RevalidationWith(recode: Recoder, m: Mapping, expected: Option<string>, maxHeader: nat, maxCiphertext: nat)
    requires Stable(recode) && ValidateWith(recode, m, expected, maxHeader, maxCiphertext).Some?
    ensures var e := ValidateWith(recode, m, expected, maxHeader, maxCiphertext).value;
      ValidateWith(recode, AsDict(e), expected, maxHeader, maxCiphertext) == Some(e)
  {
    var r, b := CheckRouting(m, expected).value, CheckBodies(recode, m, maxHeader, maxCiphertext).value;
    RoutingOfDict(m, expected, b);
    BodiesOfDict(recode, m, r, maxHeader, maxCiphertext);
    DictIsPlain(Seal(r, b));
  }

  lemma DictIsPlain(e: OpaqueEnvelope)
    ensures !(exists k :: k in AsDict(e) && k.Unknown?) && Get(AsDict(e), Version) == ScalarInt(e.version)
  {
  }

  /** Validating a validated envelope again returns the same envelope. */
  lemma RevalidationIsIdentity(m: Mapping, expected: Option<string>, maxHeader: nat, maxCiphertext: nat)
    requires Validate(m, expected, maxHeader, maxCiphertext).Some?
    ensures var e := Validate(m, expected, maxHeader, maxCiphertext).value;
      Validate(AsDict(e), expected, maxHeader, maxCiphertext) == Some(e)
  {
    RecodeIsStable();
    RevalidationWith(Recode, m, expected, maxHeader, maxCiphertext);
  }
}
