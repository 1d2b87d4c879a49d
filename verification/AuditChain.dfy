/** The tamper-evident log of src/app/audit_chain.py.  HMAC-SHA256 under the audit key is the
    parameter `mac`; it maps a message to a 64-digit lower-case hex string. */
module AuditChain {
  import opened Prelude
  import opened CanonicalJson

  /** The fields covered by an entry hash. */
  datatype Entry = Entry(
    actorId: Option<string>, eventType: string, targetType: Option<string>, targetId: Option<string>,
    outcome: string, ipAddress: Option<string>, userAgent: Option<string>, requestId: Option<string>,
    details: string, createdAt: string)

  datatype Event = Event(id: nat, entry: Entry, prev: Option<string>, hash: Option<string>)

  type Mac = string -> string

  /** The canonical text of a time; a missing time has the empty text. */
  type Time = s: string | |s| > 0 witness "-"

  /** The entry once it has a time: its own, or the clock's. */
  function Stamped(e: Entry, now: Time): Entry { if e.createdAt == "" then e.(createdAt := now) else e }

  function Zeros(n: nat): (s: string)
    ensures |s| == n && forall i :: 0 <= i < n ==> s[i] == '0'
  {
    seq(n, _ => '0')
  }

  const GENESIS: string := Zeros(64)

  predicate ValidDigest(s: string) {
    |s| == 64 && forall i :: 0 <= i < |s| ==> IsDigit(s[i]) || 'a' <= s[i] <= 'f'
  }

  ghost predicate HexDigests(mac: Mac) { forall m :: ValidDigest(mac(m)) }

  function Nullable(s: Option<string>): Json { if s.None? then Null else Str(s.value) }

  /** `canonical_entry`: sorted keys, fixed separators. */
  function EntryJson(e: Entry): Json {
    Obj(Field("actor_id", Nullable(e.actorId), Field("created_at", Str(e.createdAt),
      Field("details_json", Str(e.details),
      Field("event_type", Str(e.eventType), Field("ip_address", Nullable(e.ipAddress), Field("outcome", Str(e.outcome),
      Field("request_id", Nullable(e.requestId), Field("target_id", Nullable(e.targetId),
      Field("target_type", Nullable(e.targetType), Field("user_agent", Nullable(e.userAgent), NoFields)))))))))))
  }

  /** What `compute_hash` feeds to the MAC. */
  function Message(prev: string, e: Entry): string { prev + "|" + Print(EntryJson(e)) }

  lemma JsonFixesEntry(a: Entry, b: Entry)
    requires EntryJson(a) == EntryJson(b)
    ensures a == b
  {
  }

  /** A message fixes the previous digest and every field of the entry. */
  lemma MessageIsInjective(p: string, a: Entry, q: string, b: Entry)
    requires |p| == |q| && Message(p, a) == Message(q, b)
    ensures p == q && a == b
  {
    var s, t := Print(EntryJson(a)), Print(EntryJson(b));
    assert Message(p, a)[..|p|] == p && Message(q, b)[..|q|] == q;
    assert Message(p, a)[|p| + 1..] == s && Message(q, b)[|q| + 1..] == t;
    PrintIsInjective(EntryJson(a), EntryJson(b));
    JsonFixesEntry(a, b);
  }

  /** The digest row `i` must point at: the previous row's, or genesis at the start and after a gap. */
  function Expected(log: seq<Event>, i: nat): string
    requires i <= |log|
  {
    if i == 0 || log[i - 1].hash.None? then GENESIS else log[i - 1].hash.value
  }

  predicate Sealed(log: seq<Event>, i: nat)
    requires i < |log|
  {
    log[i].hash.Some?
  }

  /** A sealed row that points at its predecessor and carries the right digest. */
  predicate Linked(mac: Mac, log: seq<Event>, i: nat)
    requires i < |log|
  {
    && log[i].hash.Some? && log[i].prev == Some(Expected(log, i))
    && ValidDigest(log[i].hash.value)
    && log[i].hash.value == mac(Message(Expected(log, i), log[i].entry))
  }

  predicate Broken(mac: Mac, log: seq<Event>, i: nat)
    requires i < |log|
  {
    Sealed(log, i) && !Linked(mac, log, i)
  }

  predicate Unbroken(mac: Mac, log: seq<Event>, n: nat)
    requires n <= |log|
  {
    forall i :: 0 <= i < n ==> !Broken(mac, log, i)
  }

  predicate StrictlyIntact(mac: Mac, log: seq<Event>) { forall i :: 0 <= i < |log| ==> Linked(mac, log, i) }

  // ---------------------------------------------------------------- verification

  function CountSealed(log: seq<Event>, n: nat): nat
    requires n <= |log|
  {
    if n == 0 then 0 else CountSealed(log, n - 1) + (if Sealed(log, n - 1) then 1 else 0)
  }

  /** One more segment for every gap that ends a run of sealed rows. */
  function CountBreaks(log: seq<Event>, n: nat): nat
    requires n <= |log|
  {
    if n == 0 then 0
    else CountBreaks(log, n - 1) + (if !Sealed(log, n - 1) && Expected(log, n - 1) != GENESIS then 1 else 0)
  }

  function FirstUnsealed(log: seq<Event>, n: nat): Option<nat>
    requires n <= |log|
  {
    if n == 0 then None
    else if FirstUnsealed(log, n - 1).Some? then FirstUnsealed(log, n - 1)
    else if Sealed(log, n - 1) then None else Some(log[n - 1].id)
  }

  function LastSealed(log: seq<Event>, n: nat): Option<nat>
    requires n <= |log|
  {
    if n == 0 then None else if Sealed(log, n - 1) then Some(n - 1) else LastSealed(log, n - 1)
  }

  datatype Reason = PrevHashMismatch | EntryHashMismatch | UnsealedEvents

  datatype ChainVerification = ChainVerification(
    total: nat, verified: nat, intact: bool, firstBroken: Option<nat>, reason: Option<Reason>,
    unsealed: nat, firstUnsealed: Option<nat>, segments: nat, through: Option<(nat, string)>)

  function ThroughOf(log: seq<Event>, n: nat): Option<(nat, string)>
    requires n <= |log|
  {
    var k := LastSealed(log, n);
    if k.Some? && k.value < |log| && log[k.value].hash.Some?
    then Some((log[k.value].id, log[k.value].hash.value))
    else None
  }

  /** `verify_chain`: walks the rows once with a running digest.  It stops at the first broken row,
      and a strict verdict is intact exactly when every row is sealed and linked. */
  method VerifyChain(mac: Mac, log: seq<Event>, strict: bool) returns (r: ChainVerification)
    ensures r.firstBroken.None? <==> Unbroken(mac, log, |log|)
    ensures r.firstBroken.Some? ==>
      && 0 < r.total <= |log| && r.firstBroken == Some(log[r.total - 1].id)
      && Broken(mac, log, r.total - 1) && Unbroken(mac, log, r.total - 1) && !r.intact
      && r.reason == Some(if log[r.total - 1].prev != Some(Expected(log, r.total - 1)) then PrevHashMismatch
                          else EntryHashMismatch)
    ensures r.firstBroken.None? ==>
      && r.total == |log| && (r.intact <==> (strict ==> StrictlyIntact(mac, log)))
      && r.reason == (if r.intact then None else Some(UnsealedEvents))
    ensures var n := if r.firstBroken.Some? then r.total - 1 else r.total;
      && r.verified == CountSealed(log, n) && r.unsealed == n - CountSealed(log, n)
      && r.firstUnsealed == FirstUnsealed(log, n) && r.segments == 1 + CountBreaks(log, n)
      && r.through == ThroughOf(log, n)
  {
    var prev, total, verified, unsealed, segments := GENESIS, 0, 0, 0, 1;
    var first: Option<nat> := None;
    var through: Option<(nat, string)> := None;
    while total < |log|
      invariant 0 <= total <= |log|
      invariant prev == Expected(log, total)
      invariant Unbroken(mac, log, total)
      invariant verified == CountSealed(log, total) && verified + unsealed == total
      invariant first == FirstUnsealed(log, total) && segments == 1 + CountBreaks(log, total)
      invariant through == ThroughOf(log, total)
      invariant verified == total <==> forall i :: 0 <= i < total ==> Sealed(log, i)
      invariant unsealed >= 0
    {
      var event := log[total];
      if event.hash.None? {
        unsealed := unsealed + 1;
        if first.None? { first := Some(event.id); }
        if prev != GENESIS { segments := segments + 1; }
        prev := GENESIS;
      } else {
        if event.prev != Some(prev) {
          assert Broken(mac, log, total);
          return ChainVerification(total + 1, verified, false, Some(event.id), Some(PrevHashMismatch), unsealed, first,
                                   segments, through);
        }
        var expected := mac(Message(prev, event.entry));
        if !ValidDigest(event.hash.value) || expected != event.hash.value {
          assert Broken(mac, log, total);
          return ChainVerification(total + 1, verified, false, Some(event.id), Some(EntryHashMismatch), unsealed, first,
                                   segments, through);
        }
        verified, prev, through := verified + 1, event.hash.value, Some((event.id, event.hash.value));
      }
      total := total + 1;
    }
    var intact := strict ==> verified == total;
    AllSealedAndUnbroken(mac, log);
    return ChainVerification(total, verified, intact, None, if intact then None else Some(UnsealedEvents), unsealed,
                             first, segments, through);
  }

  lemma AllSealedAndUnbroken(mac: Mac, log: seq<Event>)
    ensures StrictlyIntact(mac, log) <==> Unbroken(mac, log, |log|) && forall i :: 0 <= i < |log| ==> Sealed(log, i)
  {
    if StrictlyIntact(mac, log) {
      forall i | 0 <= i < |log| ensures !Broken(mac, log, i) && Sealed(log, i) { assert Linked(mac, log, i); }
    }
    if Unbroken(mac, log, |log|) && forall i :: 0 <= i < |log| ==> Sealed(log, i) {
      forall i | 0 <= i < |log| ensures Linked(mac, log, i) { assert !Broken(mac, log, i); }
    }
  }

  // ---------------------------------------------------------------- commitment

  /** No two different messages of these logs share a digest, and none has the genesis digest. */
  predicate CollisionFree(a: seq<Event>, b: seq<Event>) {
    && (forall i :: 0 <= i < |a| ==> a[i].hash != Some(GENESIS))
    && (forall j :: 0 <= j < |b| ==> b[j].hash != Some(GENESIS))
    && (forall i, j :: 0 <= i < |a| && 0 <= j < |b| && a[i].hash == b[j].hash ==>
          Message(Expected(a, i), a[i].entry) == Message(Expected(b, j), b[j].entry))
  }

  function Entries(log: seq<Event>): (es: seq<Entry>)
    ensures |es| == |log| && forall i :: 0 <= i < |log| ==> es[i] == log[i].entry
  {
    seq(|log|, i requires 0 <= i < |log| => log[i].entry)
  }

  lemma ExpectedLength(mac: Mac, log: seq<Event>, i: nat)
    requires StrictlyIntact(mac, log) && i <= |log|
    ensures |Expected(log, i)| == 64
  {
    if i > 0 { assert Linked(mac, log, i - 1); }
  }

  /** Any front part of an intact log is intact. */
  lemma PrefixIsIntact(mac: Mac, log: seq<Event>, n: nat)
    requires StrictlyIntact(mac, log) && n <= |log|
    ensures StrictlyIntact(mac, log[..n])
  {
    forall i | 0 <= i < n ensures Linked(mac, log[..n], i) { assert Linked(mac, log, i); }
  }

  lemma PrefixIsCollisionFree(a: seq<Event>, b: seq<Event>, n: nat, m: nat)
    requires CollisionFree(a, b) && n <= |a| && m <= |b|
    ensures CollisionFree(a[..n], b[..m])
  {
  }

  /** The last digest of an intact log commits to the whole history of entries. */
  lemma {:induction false} HistoryCommitment(mac: Mac, a: seq<Event>, b: seq<Event>)
    requires StrictlyIntact(mac, a) && StrictlyIntact(mac, b) && CollisionFree(a, b)
    requires |a| > 0 && |b| > 0 && a[|a| - 1].hash == b[|b| - 1].hash
    ensures Entries(a) == Entries(b)
    decreases |a|
  {
    var n, m := |a|, |b|;
    LastRowsAgree(mac, a, b);
    if n == 1 {
      assert Entries(a) == [a[0].entry] && Entries(b) == [b[0].entry];
    } else {
      PrefixIsIntact(mac, a, n - 1);
      PrefixIsIntact(mac, b, m - 1);
      PrefixIsCollisionFree(a, b, n - 1, m - 1);
      HistoryCommitment(mac, a[..n - 1], b[..m - 1]);
      assert Entries(a) == Entries(a[..n - 1]) + [a[n - 1].entry];
      assert Entries(b) == Entries(b[..m - 1]) + [b[m - 1].entry];
    }
  }

  /** Only the first row points at genesis. */
  lemma GenesisIsFirst(mac: Mac, log: seq<Event>, i: nat)
    requires StrictlyIntact(mac, log) && i < |log| && forall j :: 0 <= j < |log| ==> log[j].hash != Some(GENESIS)
    ensures Expected(log, i) == GENESIS <==> i == 0
    ensures i > 0 ==> log[i - 1].hash == Some(Expected(log, i))
  {
    if i > 0 {
      assert Linked(mac, log, i - 1);
      assert log[i - 1].hash != Some(GENESIS);
    }
  }

  /** Rows with the same digest carry the same entry and follow rows with the same digest. */
  lemma LastRowsAgree(mac: Mac, a: seq<Event>, b: seq<Event>)
    requires StrictlyIntact(mac, a) && StrictlyIntact(mac, b) && CollisionFree(a, b)
    requires |a| > 0 && |b| > 0 && a[|a| - 1].hash == b[|b| - 1].hash
    ensures a[|a| - 1].entry == b[|b| - 1].entry && (|a| == 1 <==> |b| == 1)
    ensures |a| > 1 && |b| > 1 ==> a[|a| - 2].hash == b[|b| - 2].hash
  {
    var n, m := |a| - 1, |b| - 1;
    ExpectedLength(mac, a, n);
    ExpectedLength(mac, b, m);
    MessageIsInjective(Expected(a, n), a[n].entry, Expected(b, m), b[m].entry);
    GenesisIsFirst(mac, a, n);
    GenesisIsFirst(mac, b, m);
  }

  // ---------------------------------------------------------------- appending

  /** `_last_hash`. */
  function LastHash(log: seq<Event>): string {
    if |log| == 0 || log[|log| - 1].hash.None? || log[|log| - 1].hash.value == "" then GENESIS
    else log[|log| - 1].hash.value
  }

  /** What happens to the table: a sealed append, or an insert by code that skipped `seal_event`.  The first is dated
      by `seal_event`, the second by the default of the column, which is not nullable. */
  datatype Write = SealedAppend(id: nat, entry: Entry, now: Time) | UnsealedInsert(id: nat, entry: Entry, now: Time)

  function Apply(mac: Mac, log: seq<Event>, w: Write): seq<Event> {
    match w
    case SealedAppend(id, e, now) =>
      var dated := Stamped(e, now);
      log + [Event(id, dated, Some(LastHash(log)), Some(mac(Message(LastHash(log), dated))))]
    case UnsealedInsert(id, e, now) => log + [Event(id, Stamped(e, now), None, None)]
  }

  function ApplyAll(mac: Mac, ws: seq<Write>): seq<Event> {
    if |ws| == 0 then [] else Apply(mac, ApplyAll(mac, ws[..|ws| - 1]), ws[|ws| - 1])
  }

  lemma AppendKeepsRows(mac: Mac, log: seq<Event>, e: Event, i: nat)
    requires i < |log|
    ensures Linked(mac, log + [e], i) == Linked(mac, log, i)
    ensures Sealed(log + [e], i) == Sealed(log, i)
  {
  }

  lemma AppendLinks(mac: Mac, log: seq<Event>, w: Write)
    requires HexDigests(mac) && Unbroken(mac, log, |log|)
    ensures var log' := Apply(mac, log, w);
      Unbroken(mac, log', |log'|) && (Sealed(log', |log|) <==> w.SealedAppend?)
  {
    var log' := Apply(mac, log, w);
    var n := |log|;
    assert log' == log + [log'[n]];
    forall i | 0 <= i < n ensures !Broken(mac, log', i) {
      AppendKeepsRows(mac, log, log'[n], i);
      assert !Broken(mac, log, i);
    }
    if n > 0 { assert !Broken(mac, log, n - 1); }
    assert w.SealedAppend? ==> LastHash(log) == Expected(log', n);
  }

  /** For any mix of sealed appends and unsealed inserts there is no broken link, and the log is
      strictly intact exactly when nothing was inserted unsealed. */
  lemma {:induction false} EveryRunVerifies(mac: Mac, ws: seq<Write>)
    requires HexDigests(mac)
    ensures var log := ApplyAll(mac, ws);
      && |log| == |ws| && Unbroken(mac, log, |log|)
      && (forall i :: 0 <= i < |ws| ==> (Sealed(log, i) <==> ws[i].SealedAppend?))
      && (StrictlyIntact(mac, log) <==> forall i :: 0 <= i < |ws| ==> ws[i].SealedAppend?)
  {
    if |ws| > 0 {
      var front := ws[..|ws| - 1];
      EveryRunVerifies(mac, front);
      var log := ApplyAll(mac, front);
      AppendLinks(mac, log, ws[|ws| - 1]);
      var log' := ApplyAll(mac, ws);
      forall i | 0 <= i < |ws| ensures Sealed(log', i) <==> ws[i].SealedAppend? {
        if i < |log| { AppendKeepsRows(mac, log, log'[|log|], i); assert front[i] == ws[i]; }
      }
      AllSealedAndUnbroken(mac, log');
    } else {
      AllSealedAndUnbroken(mac, ApplyAll(mac, ws));
    }
  }

  // ---------------------------------------------------------------- repair

  /** Unsealed rows are followed by unsealed rows only. */
  predicate GapIsTail(log: seq<Event>) {
    forall i, j :: 0 <= i < j < |log| && !Sealed(log, i) ==> !Sealed(log, j)
  }

  /** What the clock reads when the repair loop is at a row. */
  type Clock = nat -> Time

  /** `fixed` differs from `log` only in that unsealed rows were dated if need be, sealed and linked. */
  predicate Repaired(mac: Mac, clock: Clock, log: seq<Event>, fixed: seq<Event>) {
    |fixed| == |log| && forall i :: 0 <= i < |log| ==> RowRepaired(mac, clock, log, fixed, i)
  }

  /** The row as the repair loop leaves it. */
  function ResealedRow(mac: Mac, prev: string, row: Event, now: Time): Event {
    if row.hash.Some? then row
    else
      var dated := Stamped(row.entry, now);
      row.(entry := dated, prev := Some(prev), hash := Some(mac(Message(prev, dated))))
  }

  /** The repair loop has dealt with the first `i` rows. */
  predicate RepairedUpTo(mac: Mac, clock: Clock, before: seq<Event>, rows: seq<Event>, i: nat) {
    && i <= |rows| == |before|
    && (forall k :: i <= k < |rows| ==> rows[k] == before[k])
    && (forall k :: 0 <= k < i ==> RowRepaired(mac, clock, before, rows, k))
  }

  predicate RowRepaired(mac: Mac, clock: Clock, before: seq<Event>, rows: seq<Event>, k: nat)
    requires k < |rows| == |before|
  {
    if Sealed(before, k) then rows[k] == before[k]
    else rows[k].id == before[k].id && rows[k].entry == Stamped(before[k].entry, clock(k)) && Linked(mac, rows, k)
  }

  lemma RepairTurn(mac: Mac, clock: Clock, before: seq<Event>, rows: seq<Event>, i: nat)
    requires HexDigests(mac) && RepairedUpTo(mac, clock, before, rows, i) && i < |rows|
    ensures RepairedUpTo(mac, clock, before, rows[i := ResealedRow(mac, Expected(rows, i), rows[i], clock(i))], i + 1)
  {
    var rows' := rows[i := ResealedRow(mac, Expected(rows, i), rows[i], clock(i))];
    assert Expected(rows', i) == Expected(rows, i);
    forall k | 0 <= k < i ensures RowRepaired(mac, clock, before, rows', k) {
      assert RowRepaired(mac, clock, before, rows, k);
      assert Expected(rows', k) == Expected(rows, k);
    }
  }

  // ---------------------------------------------------------------- every row carries its time

  predicate AllDated(log: seq<Event>) { forall i :: 0 <= i < |log| ==> log[i].entry.createdAt != "" }

  /** However it is written, a row has its time from the start. */
  lemma {:induction false} RowsAreDated(mac: Mac, ws: seq<Write>)
    ensures AllDated(ApplyAll(mac, ws))
  {
    if |ws| > 0 { RowsAreDated(mac, ws[..|ws| - 1]); }
  }

  /** Repair dates every row it seals, and has nothing to date in rows that were written as above. */
  lemma RepairKeepsDates(mac: Mac, clock: Clock, log: seq<Event>, fixed: seq<Event>)
    requires Repaired(mac, clock, log, fixed)
    ensures forall i :: 0 <= i < |log| && !Sealed(log, i) ==> fixed[i].entry.createdAt != ""
    ensures AllDated(log) ==> AllDated(fixed) && Entries(fixed) == Entries(log)
  {
    forall i | 0 <= i < |log|
      ensures !Sealed(log, i) ==> fixed[i].entry.createdAt != ""
      ensures log[i].entry.createdAt != "" ==> fixed[i].entry == log[i].entry
    {
      assert RowRepaired(mac, clock, log, fixed, i);
    }
  }

  /** The audit table with the operations that change it. */
  class AuditLog {
    var rows: seq<Event>

    /** `seal_event` and the insert that follows it. */
    method Append(mac: Mac, id: nat, entry: Entry, now: Time)
      modifies this
      ensures rows == Apply(mac, old(rows), SealedAppend(id, entry, now))
    {
      var dated := entry;
      if dated.createdAt == "" { dated := dated.(createdAt := now); }
      var prev := GENESIS;
      if |rows| > 0 && rows[|rows| - 1].hash.Some? && rows[|rows| - 1].hash.value != "" {
        prev := rows[|rows| - 1].hash.value;
      }
      rows := rows + [Event(id, dated, Some(prev), Some(mac(Message(prev, dated))))];
    }

    method Insert(id: nat, entry: Entry, now: Time)
      modifies this
      ensures forall mac: Mac :: rows == Apply(mac, old(rows), UnsealedInsert(id, entry, now))
    {
      rows := rows + [Event(id, Stamped(entry, now), None, None)];
    }

    /** `reseal_unsealed`: refuses when a sealed row follows a gap, otherwise seals the tail. */
    method Reseal(mac: Mac, clock: Clock) returns (count: Option<nat>)
      requires HexDigests(mac)
      modifies this
      ensures count.Some? <==> GapIsTail(old(rows))
      ensures count.None? ==> rows == old(rows)
      ensures count.Some? ==>
        Repaired(mac, clock, old(rows), rows) && count.value == |rows| - CountSealed(old(rows), |rows|)
    {
      var tail := CheckGap();
      if !tail { return None; }
      var prev, i, repaired := GENESIS, 0, 0;
      ghost var before := rows;
      while i < |rows|
        invariant 0 <= i <= |rows| == |before| && RepairedUpTo(mac, clock, before, rows, i)
        invariant prev == Expected(rows, i)
        invariant repaired + CountSealed(before, i) == i && repaired >= 0
      {
        RepairTurn(mac, clock, before, rows, i);
        if rows[i].hash.None? {
          var dated := rows[i].entry;
          if dated.createdAt == "" { dated := dated.(createdAt := clock(i)); }
          var hash := mac(Message(prev, dated));
          rows := rows[i := rows[i].(entry := dated, prev := Some(prev), hash := Some(hash))];
          repaired := repaired + 1;
        } else {
          assert rows[i := rows[i]] == rows;
        }
        prev := rows[i].hash.value;
        i := i + 1;
      }
      return Some(repaired);
    }

    /** The first loop of `reseal_unsealed`. */
    method CheckGap() returns (tail: bool)
      ensures tail == GapIsTail(rows)
    {
      var seenGap, i := false, 0;
      while i < |rows|
        invariant 0 <= i <= |rows|
        invariant seenGap == exists k :: 0 <= k < i && !Sealed(rows, k)
        invariant forall k, l :: 0 <= k < l < i && !Sealed(rows, k) ==> !Sealed(rows, l)
      {
        if rows[i].hash.None? {
          seenGap := true;
          assert !Sealed(rows, i);
        } else if seenGap {
          assert Sealed(rows, i);
          return false;
        }
        i := i + 1;
      }
      return true;
    }
  }

  /** Repairing seals everything, and the result is strictly intact exactly when the sealed rows
      it was not allowed to touch were. */
  lemma RepairMakesIntact(mac: Mac, clock: Clock, log: seq<Event>, fixed: seq<Event>)
    requires GapIsTail(log) && Repaired(mac, clock, log, fixed)
    ensures StrictlyIntact(mac, fixed) <==> Unbroken(mac, log, |log|)
  {
    forall i | 0 <= i < |log|
      ensures if Sealed(log, i) then Linked(mac, fixed, i) <==> Linked(mac, log, i) else Linked(mac, fixed, i)
    {
      assert RowRepaired(mac, clock, log, fixed, i);
      if i > 0 && Sealed(log, i) { assert Sealed(log, i - 1) && RowRepaired(mac, clock, log, fixed, i - 1); }
    }
    if StrictlyIntact(mac, fixed) {
      forall i | 0 <= i < |log| ensures !Broken(mac, log, i) { assert Linked(mac, fixed, i); }
    }
    if Unbroken(mac, log, |log|) {
      forall i | 0 <= i < |log| ensures Linked(mac, fixed, i) { assert !Broken(mac, log, i); }
    }
  }

  /** After any run, a tail gap can be repaired into a strictly intact log with the same entries. */
  lemma RunsCanBeRepaired(mac: Mac, clock: Clock, ws: seq<Write>, fixed: seq<Event>)
    requires HexDigests(mac) && GapIsTail(ApplyAll(mac, ws)) && Repaired(mac, clock, ApplyAll(mac, ws), fixed)
    ensures StrictlyIntact(mac, fixed) && Entries(fixed) == Entries(ApplyAll(mac, ws))
  {
    EveryRunVerifies(mac, ws);
    RowsAreDated(mac, ws);
    RepairKeepsDates(mac, clock, ApplyAll(mac, ws), fixed);
    RepairMakesIntact(mac, clock, ApplyAll(mac, ws), fixed);
  }
}
