/** `PersistentIntrusionState` of src/app/ids.py: one database row per source, pruned at the start of every
    writing transaction and read without any cleanup. */
module IdsPersistent {
  import opened Prelude
  import opened IdsWindow

  datatype Row = Row(scores: seq<real>, lastSeen: real, until: Option<real>)

  type Rows = map<Ip, Row>

  predicate TracksRow(cfg: Config, rows: Rows, l: Ledger, last: real, ip: Ip) {
    if ip !in rows then Tracks(cfg, None, [], At(l, ip), last)
    else
      && Tracks(cfg, rows[ip].until, rows[ip].scores, At(l, ip), last)
      && At(l, ip).until == rows[ip].until
      && Sorted(rows[ip].scores) && NoneAfter(rows[ip].scores, last) && |rows[ip].scores| <= cfg.threshold
      && |At(l, ip).hits| > 0 && rows[ip].lastSeen == LastHit(l, ip)
  }

  ghost predicate Stored(cfg: Config, rows: Rows, l: Ledger, last: real) {
    && cfg.Valid() && |rows.Keys| <= cfg.capacity
    && forall ip: Ip :: TracksRow(cfg, rows, l, last, ip)
  }

  /** What the DELETE of `_prune_sources` spares. */
  predicate Kept(cfg: Config, row: Row, now: real) {
    if row.until.Some? then row.until.value > now else row.lastSeen > Cutoff(cfg, now)
  }

  function Pruned(cfg: Config, rows: Rows, now: real): Rows {
    map ip | ip in rows && Kept(cfg, rows[ip], now) :: rows[ip]
  }

  lemma LastHitDecides(hits: seq<real>, c: real)
    requires Sorted(hits) && |hits| > 0
    ensures hits[|hits| - 1] > c <==> WeightAfter(hits, c) > 0
  {
    if hits[|hits| - 1] <= c {
      PrefixBefore(hits, c, |hits|);
      WeightOfOld(hits, c);
    }
  }

  /** A row is spared exactly when its source is live, and a deleted one stands for nothing. */
  lemma KeptMeansLive(cfg: Config, rows: Rows, l: Ledger, last: real, now: real, ip: Ip)
    requires cfg.Valid() && TracksRow(cfg, rows, l, last, ip) && last <= now
    ensures ip in Pruned(cfg, rows, now) <==> Live(cfg, At(l, ip), now)
    ensures TracksRow(cfg, Pruned(cfg, rows, now), l, now, ip)
  {
    var s := At(l, ip);
    if ip !in rows {
      TickTracks(cfg, None, [], s, last, now);
      if Live(cfg, s, now) { LiveIsTracked(cfg, None, [], s, last, now); }
    } else if rows[ip].until.Some? {
      TickTracks(cfg, rows[ip].until, rows[ip].scores, s, last, now);
    } else {
      LastHitDecides(s.hits, Cutoff(cfg, now));
      TickTracks(cfg, None, rows[ip].scores, s, last, now);
      if rows[ip].lastSeen <= Cutoff(cfg, now) { PrefixBefore(s.hits, Cutoff(cfg, now), |s.hits|); }
    }
  }

  lemma PruneStored(cfg: Config, rows: Rows, l: Ledger, last: real, now: real)
    requires Stored(cfg, rows, l, last) && last <= now
    ensures Stored(cfg, Pruned(cfg, rows, now), l, now)
    ensures Pruned(cfg, rows, now).Keys == LiveSet(cfg, l, now)
  {
    var rows' := Pruned(cfg, rows, now);
    forall ip: Ip ensures TracksRow(cfg, rows', l, now, ip) && (ip in rows' <==> Live(cfg, At(l, ip), now)) {
      KeptMeansLive(cfg, rows, l, last, now, ip);
    }
    SubsetSize(rows'.Keys, rows.Keys);
    forall ip ensures ip in rows'.Keys <==> ip in LiveSet(cfg, l, now) {
      assert TracksRow(cfg, rows', l, now, ip);
    }
  }

  // ---------------------------------------------------------------- choosing a victim

  predicate Before(rows: Rows, a: Ip, b: Ip)
    requires a in rows && b in rows
  {
    rows[a].lastSeen < rows[b].lastSeen || (rows[a].lastSeen == rows[b].lastSeen && a <= b)
  }

  /** First in (last_seen_at, source_ip) order among the given rows. */
  predicate First(rows: Rows, among: set<Ip>, v: Ip)
    requires among <= rows.Keys
  {
    v in among && forall u :: u in among ==> Before(rows, v, u)
  }

  function Free(rows: Rows): set<Ip> { set ip | ip in rows && rows[ip].until.None? }

  lemma {:induction false} FirstExists(rows: Rows, among: set<Ip>)
    requires among <= rows.Keys && among != {}
    ensures exists v :: First(rows, among, v)
    decreases |among|
  {
    var a :| a in among;
    var rest := among - {a};
    assert forall u :: u in among ==> u in rest || u == a;
    if rest == {} {
      assert First(rows, among, a);
    } else {
      FirstExists(rows, rest);
      var m :| First(rows, rest, m);
      if Before(rows, a, m) { assert First(rows, among, a); } else { assert First(rows, among, m); }
    }
  }

  /** The row that SQL query finds is the oldest live unbanned source. */
  lemma FirstRowIsOldest(cfg: Config, rows: Rows, l: Ledger, now: real, v: Ip)
    requires Stored(cfg, rows, l, now) && rows.Keys == LiveSet(cfg, l, now) && First(rows, Free(rows), v)
    ensures Oldest(cfg, l, v, now)
  {
    assert TracksRow(cfg, rows, l, now, v);
    forall u | u in LiveSet(cfg, l, now) && !Banned(At(l, u), now) ensures LastHit(l, v) <= LastHit(l, u) {
      assert TracksRow(cfg, rows, l, now, u);
      FreeWhenLive(cfg, rows, l, now, u);
    }
  }

  lemma FreeWhenLive(cfg: Config, rows: Rows, l: Ledger, now: real, u: Ip)
    requires TracksRow(cfg, rows, l, now, u) && u in rows && Live(cfg, At(l, u), now)
    ensures Banned(At(l, u), now) <==> u !in Free(rows)
  {
  }

  lemma ForgetStored(cfg: Config, rows: Rows, l: Ledger, now: real, v: Ip)
    requires Stored(cfg, rows, l, now)
    ensures Stored(cfg, rows - {v}, l[v := Idle], now)
  {
    var rows', l' := rows - {v}, l[v := Idle];
    UntouchedTracks(cfg, now);
    forall ip: Ip ensures TracksRow(cfg, rows', l', now, ip) { assert TracksRow(cfg, rows, l, now, ip); }
    SubsetSize(rows'.Keys, rows.Keys);
  }

  lemma LiveAfterReset(cfg: Config, l: Ledger, v: Ip, now: real)
    ensures LiveSet(cfg, l[v := Idle], now) == LiveSet(cfg, l, now) - {v}
  {
    var l' := l[v := Idle];
    forall ip ensures ip in LiveSet(cfg, l', now) <==> ip in LiveSet(cfg, l, now) - {v} {
      if ip != v { assert At(l', ip) == At(l, ip); }
    }
  }

  // ---------------------------------------------------------------- scoring

  /** `scores` after a detection: filter, extend, slice. */
  function NewScores(cfg: Config, scores: seq<real>, now: real, weight: nat): seq<real> {
    LastOf(Filter(scores, Cutoff(cfg, now)) + Repeat(now, weight), cfg.threshold)
  }

  /** The list the database holds is the deque the in-memory machine would hold. */
  lemma ScoresAreBucket(cfg: Config, scores: seq<real>, now: real, weight: nat)
    requires cfg.Valid() && Sorted(scores) && |scores| <= cfg.threshold
    ensures NewScores(cfg, scores, now, weight) == Scored(cfg, scores, now, weight)
  {
    PruneIsFilter(scores, Cutoff(cfg, now));
    PushIsSlice(Prune(scores, Cutoff(cfg, now)), now, weight, cfg.threshold);
  }

  lemma ScoresSorted(cfg: Config, scores: seq<real>, now: real, weight: nat)
    requires cfg.Valid() && Sorted(scores) && NoneAfter(scores, now)
    ensures var r := NewScores(cfg, scores, now, weight); Sorted(r) && NoneAfter(r, now) && |r| <= cfg.threshold
  {
    PruneIsFilter(scores, Cutoff(cfg, now));
    AppendKeepsOrder(Prune(scores, Cutoff(cfg, now)), now, weight);
  }

  function RowScores(rows: Rows, ip: Ip): seq<real> { if ip in rows then rows[ip].scores else [] }
  function RowBan(rows: Rows, ip: Ip): Option<real> { if ip in rows then rows[ip].until else None }

  /** The row written for a detection. */
  function NewRow(cfg: Config, rows: Rows, ip: Ip, now: real, weight: nat): Row {
    var scores := NewScores(cfg, RowScores(rows, ip), now, weight);
    Row(scores, now,
        if |scores| >= cfg.threshold && RowBan(rows, ip).None? then Some(now + cfg.period) else RowBan(rows, ip))
  }

  lemma NewRowTracks(cfg: Config, rows: Rows, l: Ledger, now: real, ip: Ip, weight: nat)
    requires cfg.Valid() && TracksRow(cfg, rows, l, now, ip) && weight >= 1
    requires RowBan(rows, ip).Some? ==> RowBan(rows, ip).value > now
    requires ip !in rows ==> Refresh(At(l, ip), now).until.None?
    ensures var r := Record(cfg, At(l, ip), now, weight);
      var row := NewRow(cfg, rows, ip, now, weight);
      && TracksRow(cfg, rows[ip := row], l[ip := r.source], now, ip)
      && r.newly == (|row.scores| >= cfg.threshold && RowBan(rows, ip).None?)
  {
    var scores := RowScores(rows, ip);
    ScoresSorted(cfg, scores, now, weight);
    ScoresAreBucket(cfg, scores, now, weight);
    RecordTracks(cfg, RowBan(rows, ip), scores, At(l, ip), now, now, weight);
    RecordHits(cfg, At(l, ip), now, weight);
  }

  lemma EnterStored(cfg: Config, rows: Rows, l: Ledger, now: real, ip: Ip, row: Row, s: Source)
    requires Stored(cfg, rows, l, now) && (ip in rows || |rows.Keys| < cfg.capacity)
    requires TracksRow(cfg, rows[ip := row], l[ip := s], now, ip)
    ensures Stored(cfg, rows[ip := row], l[ip := s], now)
  {
    var rows', l' := rows[ip := row], l[ip := s];
    forall x: Ip ensures TracksRow(cfg, rows', l', now, x) { if x != ip { assert TracksRow(cfg, rows, l, now, x); } }
    assert rows'.Keys == rows.Keys + {ip};
  }

  /** A source that was just hit is live. */
  lemma LiveAfterHit(cfg: Config, l: Ledger, ip: Ip, now: real, weight: nat)
    requires cfg.Valid() && weight >= 1
    ensures var s := Record(cfg, At(l, ip), now, weight).source;
      LiveSet(cfg, l[ip := s], now) == LiveSet(cfg, l, now) + {ip}
  {
    var s := Record(cfg, At(l, ip), now, weight).source;
    var l' := l[ip := s];
    RecordHits(cfg, At(l, ip), now, weight);
    assert Live(cfg, s, now);
    forall x ensures x in LiveSet(cfg, l', now) <==> x in LiveSet(cfg, l, now) + {ip} {
      if x != ip { assert At(l', x) == At(l, x); }
    }
  }

  /** Writing the new row keeps the invariant and every running ban. */
  lemma WriteStored(cfg: Config, rows: Rows, l: Ledger, now: real, ip: Ip, weight: nat)
    requires Stored(cfg, rows, l, now) && rows.Keys == LiveSet(cfg, l, now) && weight >= 1
    requires ip in rows || |rows.Keys| < cfg.capacity
    ensures var row, r := NewRow(cfg, rows, ip, now, weight), Record(cfg, At(l, ip), now, weight);
      && Stored(cfg, rows[ip := row], l[ip := r.source], now)
      && rows[ip := row].Keys == LiveSet(cfg, l[ip := r.source], now)
      && r.newly == (row.until != RowBan(rows, ip))
      && RunningRowsKept(rows, rows[ip := row], now)
  {
    var row, r := NewRow(cfg, rows, ip, now, weight), Record(cfg, At(l, ip), now, weight);
    assert TracksRow(cfg, rows, l, now, ip);
    if ip in rows { assert ip in LiveSet(cfg, l, now); }
    RunningWhenLive(cfg, rows, l, now, ip);
    NewRowTracks(cfg, rows, l, now, ip, weight);
    EnterStored(cfg, rows, l, now, ip, row, r.source);
    LiveAfterHit(cfg, l, ip, now, weight);
    assert rows[ip := row].Keys == rows.Keys + {ip};
    NewRowBan(cfg, rows, ip, now, weight);
  }

  /** A stored ban of a live source is running; an untracked source has none. */
  lemma RunningWhenLive(cfg: Config, rows: Rows, l: Ledger, now: real, ip: Ip)
    requires TracksRow(cfg, rows, l, now, ip) && (ip in rows ==> Live(cfg, At(l, ip), now))
    ensures RowBan(rows, ip).Some? ==> RowBan(rows, ip).value > now
    ensures ip !in rows ==> Refresh(At(l, ip), now).until.None?
  {
  }

  /** The new row has a different ban exactly when one starts, and a running ban stays. */
  lemma NewRowBan(cfg: Config, rows: Rows, ip: Ip, now: real, weight: nat)
    ensures var row := NewRow(cfg, rows, ip, now, weight);
      && (row.until != RowBan(rows, ip) <==> |row.scores| >= cfg.threshold && RowBan(rows, ip).None?)
      && RunningRowsKept(rows, rows[ip := row], now)
  {
  }

  // ---------------------------------------------------------------- batches

  datatype Detection = Detection(ip: Ip, severity: Severity)

  /** The reference after the detections of one request, all at `now`. */
  function AfterAll(cfg: Config, l: Ledger, ds: seq<Detection>, now: real): Ledger
    decreases |ds|
  {
    if |ds| == 0 then l else AfterAll(cfg, After(cfg, l, Hit(ds[0].ip, ds[0].severity, now)), ds[1..], now)
  }

  /** Some detection of the request starts a ban. */
  predicate AnyNew(cfg: Config, l: Ledger, ds: seq<Detection>, now: real)
    decreases |ds|
  {
    |ds| > 0 && (Answer(cfg, l, Hit(ds[0].ip, ds[0].severity, now)) == NewBan(true)
                 || AnyNew(cfg, After(cfg, l, Hit(ds[0].ip, ds[0].severity, now)), ds[1..], now))
  }

  predicate RoomForAll(cfg: Config, l: Ledger, ds: seq<Detection>, now: real)
    decreases |ds|
  {
    |ds| > 0 ==>
      && Room(cfg, l, ds[0].ip, now)
      && RoomForAll(cfg, After(cfg, l, Hit(ds[0].ip, ds[0].severity, now)), ds[1..], now)
  }

  predicate RunningRowsKept(before: Rows, after: Rows, now: real) {
    forall ip :: ip in before && before[ip].until.Some? && before[ip].until.value > now ==>
      ip in after && after[ip].until == before[ip].until
  }

  class PersistentIntrusionState {
    const cfg: Config
    var rows: Rows
    ghost var ledger: Ledger
    ghost var last: real

    ghost predicate Valid()
      reads this
    {
      Stored(cfg, rows, ledger, last)
    }

    /** Inside a writing transaction at `last` exactly the live sources have rows. */
    ghost predicate Swept()
      reads this
    {
      rows.Keys == LiveSet(cfg, ledger, last)
    }

    constructor (cfg: Config, ghost start: real)
      requires cfg.Valid()
      ensures Valid() && this.cfg == cfg && ledger == map[] && last == start
    {
      this.cfg := cfg;
      rows, ledger, last := map[], map[], start;
      new;
      forall ip: Ip ensures TracksRow(cfg, rows, ledger, last, ip) { UntouchedTracks(cfg, start); }
    }

    /** `_prune_sources`. */
    method PruneSources(now: real)
      requires Valid() && last <= now
      modifies this`rows, this`last
      ensures Valid() && last == now && Swept() && RunningRowsKept(old(rows), rows, now)
    {
      PruneStored(cfg, rows, ledger, last, now);
      rows := Pruned(cfg, rows, now);
      last := now;
    }

    /** The capacity rule of `_record_locked`. */
    method MakeRoom(ip: Ip, now: real) returns (ok: bool)
      requires Valid() && last == now && Swept()
      modifies this`rows, this`ledger
      ensures Valid() && Swept() && RunningRowsKept(old(rows), rows, now)
      ensures ok ==> ip in rows || |rows.Keys| < cfg.capacity
      ensures Admitted(cfg, old(ledger), ledger, ip, now, ok)
    {
      assert ip in ledger ==> (ip in rows <==> Live(cfg, At(ledger, ip), now));
      if ip in rows || |rows.Keys| < cfg.capacity { return true; }
      var free := Free(rows);
      if free == {} {
        forall u | u in LiveSet(cfg, ledger, now) ensures Banned(At(ledger, u), now) {
          assert TracksRow(cfg, rows, ledger, now, u);
          FreeWhenLive(cfg, rows, ledger, now, u);
        }
        return false;
      }
      FirstExists(rows, free);
      var v :| First(rows, free, v);
      FirstRowIsOldest(cfg, rows, ledger, now, v);
      ForgetStored(cfg, rows, ledger, now, v);
      LiveAfterReset(cfg, ledger, v, now);
      assert (rows - {v}).Keys == rows.Keys - {v};
      rows := rows - {v};
      ledger := ledger[v := Idle];
      return true;
    }

    /** `_record_locked`. */
    method RecordLocked(d: Detection, now: real) returns (newly: bool)
      requires Valid() && last == now && Swept()
      modifies this`rows, this`ledger
      ensures Valid() && Swept() && RunningRowsKept(old(rows), rows, now)
      ensures Outcome(cfg, old(ledger), ledger, d.ip, d.severity, now, newly)
    {
      var ok := MakeRoom(d.ip, now);
      ghost var l1 := ledger;
      if !ok {
        assert Scores(cfg, l1, ledger, d.ip, d.severity, now, ok, false);
        return false;
      }
      newly := Write(d.ip, Weight(d.severity), now);
      assert Scores(cfg, l1, ledger, d.ip, d.severity, now, ok, newly);
    }

    method Write(ip: Ip, weight: nat, now: real) returns (newly: bool)
      requires Valid() && last == now && Swept() && weight >= 1
      requires ip in rows || |rows.Keys| < cfg.capacity
      modifies this`rows, this`ledger
      ensures Valid() && Swept() && RunningRowsKept(old(rows), rows, now)
      ensures newly == IdsWindow.Record(cfg, At(old(ledger), ip), now, weight).newly
      ensures ledger == old(ledger)[ip := IdsWindow.Record(cfg, At(old(ledger), ip), now, weight).source]
    {
      WriteStored(cfg, rows, ledger, now, ip, weight);
      var row := NewRow(cfg, rows, ip, now, weight);
      newly := row.until != RowBan(rows, ip);
      ledger := ledger[ip := IdsWindow.Record(cfg, At(ledger, ip), now, weight).source];
      rows := rows[ip := row];
    }

    /** `record`. */
    method Record(ip: Ip, severity: Severity, now: real) returns (newly: bool)
      requires Valid() && last <= now
      modifies this
      ensures Valid() && last == now && RunningRowsKept(old(rows), rows, now)
      ensures Outcome(cfg, old(ledger), ledger, ip, severity, now, newly)
    {
      PruneSources(now);
      newly := RecordLocked(Detection(ip, severity), now);
    }

    /** `record_many`: within capacity, the detections of one request count one after another. */
    method RecordMany(ds: seq<Detection>, now: real) returns (newly: bool)
      requires Valid() && last <= now
      modifies this
      ensures Valid() && RunningRowsKept(old(rows), rows, now)
      ensures RoomForAll(cfg, old(ledger), ds, now) ==>
        ledger == AfterAll(cfg, old(ledger), ds, now) && newly == AnyNew(cfg, old(ledger), ds, now)
    {
      newly := false;
      if |ds| == 0 { return; }
      PruneSources(now);
      ghost var room := RoomForAll(cfg, ledger, ds, now);
      for i := 0 to |ds|
        invariant Valid() && last == now && Swept() && RunningRowsKept(old(rows), rows, now)
        invariant room ==> RoomForAll(cfg, ledger, ds[i..], now)
        invariant room ==> AfterAll(cfg, ledger, ds[i..], now) == AfterAll(cfg, old(ledger), ds, now)
        invariant room ==> (newly || AnyNew(cfg, ledger, ds[i..], now)) == AnyNew(cfg, old(ledger), ds, now)
      {
        assert ds[i..][0] == ds[i] && ds[i..][1..] == ds[i + 1..];
        var one := RecordLocked(ds[i], now);
        newly := one || newly;
      }
    }

    /** `is_blocked`: nothing is written. */
    method IsBlocked(ip: Ip, now: real) returns (v: Verdict)
      requires Valid() && last <= now
      ensures v == StatusOf(At(ledger, ip).until, now)
    {
      assert TracksRow(cfg, rows, ledger, last, ip);
      if ip !in rows || rows[ip].until.None? { return Status(false, 0); }
      return StatusOf(rows[ip].until, now);
    }

    /** `unblock` reads the clock, and so is always right about the ban. */
    method Unblock(ip: Ip, now: real) returns (active: bool)
      requires Valid() && last <= now
      modifies this
      ensures Valid() && last == now && ledger == old(ledger)[ip := Idle]
      ensures active == Banned(At(old(ledger), ip), now)
    {
      forall x: Ip ensures TracksRow(cfg, rows, ledger, now, x) { TickRow(cfg, rows, ledger, last, now, x); }
      last := now;
      assert TracksRow(cfg, rows, ledger, now, ip);
      active := ip in rows && rows[ip].until.Some? && rows[ip].until.value > now;
      ForgetStored(cfg, rows, ledger, now, ip);
      rows := rows - {ip};
      ledger := ledger[ip := Idle];
    }
  }

  lemma TickRow(cfg: Config, rows: Rows, l: Ledger, last: real, now: real, ip: Ip)
    requires TracksRow(cfg, rows, l, last, ip) && last <= now
    ensures TracksRow(cfg, rows, l, now, ip)
  {
    TickTracks(cfg, RowBan(rows, ip), RowScores(rows, ip), At(l, ip), last, now);
  }
}
