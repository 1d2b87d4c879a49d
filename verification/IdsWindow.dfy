/** The scoring rule of src/app/ids.py, first over an unbounded history and then over the buckets of
    bounded size that both state machines keep.  Times are real seconds of one shared clock. */
module IdsWindow {
  import opened Prelude

  /** Source addresses, as numbers. */
  type Ip = nat

  datatype Config = Config(threshold: nat, period: real, capacity: nat) {
    predicate Valid() { threshold > 0 && period > 0.0 && capacity > 0 }
  }

  datatype Severity = High | Medium | Low | Unlisted

  function Weight(s: Severity): (w: nat)
    ensures w >= 1
  {
    match s
    case High => 3
    case Medium => 2
    case Low => 1
    case Unlisted => 1
  }

  // ---------------------------------------------------------------- the unbounded reference

  /** Every hit since the last reset, one entry per unit of weight, and the ban, if any. */
  datatype Source = Source(hits: seq<real>, until: Option<real>)

  const Idle := Source([], None)

  /** Hits at or before this time no longer count at `now`. */
  function Cutoff(cfg: Config, now: real): real { now - cfg.period }

  /** The weight of the hits later than `cutoff`. */
  function WeightAfter(hits: seq<real>, cutoff: real): nat {
    if |hits| == 0 then 0
    else WeightAfter(hits[..|hits| - 1], cutoff) + if hits[|hits| - 1] > cutoff then 1 else 0
  }

  predicate Banned(s: Source, now: real) { s.until.Some? && s.until.value > now }

  /** A served ban starts a fresh observation window. */
  function Refresh(s: Source, now: real): Source {
    if s.until.Some? && s.until.value <= now then Idle else s
  }

  datatype Recorded = Recorded(source: Source, newly: bool)

  /** One detection: a ban starts exactly when the weight inside the window reaches the threshold. */
  function Record(cfg: Config, s: Source, now: real, weight: nat): Recorded {
    var since := Refresh(s, now);
    var hits := since.hits + Repeat(now, weight);
    if since.until.None? && WeightAfter(hits, Cutoff(cfg, now)) >= cfg.threshold
    then Recorded(Source(hits, Some(now + cfg.period)), true)
    else Recorded(Source(hits, since.until), false)
  }

  /** The source is banned, or has hits inside the window. */
  predicate Live(cfg: Config, s: Source, now: real) {
    var f := Refresh(s, now);
    f.until.Some? || WeightAfter(f.hits, Cutoff(cfg, now)) > 0
  }

  type Ledger = map<Ip, Source>

  function At(l: Ledger, ip: Ip): Source { if ip in l then l[ip] else Idle }

  function LiveSet(cfg: Config, l: Ledger, now: real): set<Ip> { set ip | ip in l && Live(cfg, l[ip], now) }

  // ---------------------------------------------------------------- windows

  predicate Sorted(s: seq<real>) { forall i, j :: 0 <= i < j < |s| ==> s[i] <= s[j] }

  predicate AllAfter(s: seq<real>, c: real) { forall i :: 0 <= i < |s| ==> s[i] > c }
  predicate NoneAfter(s: seq<real>, c: real) { forall i :: 0 <= i < |s| ==> s[i] <= c }

  lemma {:induction false} WeightOfOld(s: seq<real>, c: real)
    requires NoneAfter(s, c)
    ensures WeightAfter(s, c) == 0
  {
    if |s| > 0 { WeightOfOld(s[..|s| - 1], c); }
  }

  lemma {:induction false} WeightSplits(a: seq<real>, b: seq<real>, c: real)
    ensures WeightAfter(a + b, c) == WeightAfter(a, c) + WeightAfter(b, c)
  {
    if |b| == 0 {
      assert a + b == a;
    } else {
      WeightSplits(a, b[..|b| - 1], c);
      assert (a + b)[..|a + b| - 1] == a + b[..|b| - 1];
    }
  }

  lemma {:induction false} WeightOfRecent(s: seq<real>, c: real)
    requires AllAfter(s, c)
    ensures WeightAfter(s, c) == |s|
  {
    if |s| > 0 { WeightOfRecent(s[..|s| - 1], c); }
  }

  lemma SuffixOfSuffix(s: seq<real>, k: nat, n: nat)
    requires k + n <= |s|
    ensures s[k..][n..] == s[k + n..]
  {
  }

  lemma SuffixAfter(s: seq<real>, c: real, n: nat)
    requires Sorted(s) && n <= |s| && (n < |s| ==> s[n] > c)
    ensures AllAfter(s[n..], c)
  {
    forall i | 0 <= i < |s[n..]| ensures s[n..][i] > c { assert i > 0 ==> s[n] <= s[n + i]; }
  }

  lemma PrefixBefore(s: seq<real>, c: real, n: nat)
    requires Sorted(s) && n <= |s| && (n > 0 ==> s[n - 1] <= c)
    ensures forall i :: 0 <= i < n ==> s[i] <= c
  {
    forall i | 0 <= i < n ensures s[i] <= c { assert i < n - 1 ==> s[i] <= s[n - 1]; }
  }

  /** Where the hits later than `c` begin, looking from index `i` on. */
  function Lapsed(b: seq<real>, c: real, i: nat): (n: nat)
    requires i <= |b|
    ensures i <= n <= |b| && (forall k :: i <= k < n ==> b[k] <= c) && (n < |b| ==> b[n] > c)
    decreases |b| - i
  {
    if i < |b| && b[i] <= c then Lapsed(b, c, i + 1) else i
  }

  /** `while bucket and bucket[0] <= cutoff: bucket.popleft()`. */
  function Prune(b: seq<real>, c: real): seq<real> { b[Lapsed(b, c, 0)..] }

  /** The lapsed hits are a front part determined by what it must satisfy. */
  lemma PruneIs(b: seq<real>, c: real, n: nat)
    requires n <= |b| && (forall k :: 0 <= k < n ==> b[k] <= c) && (n < |b| ==> b[n] > c)
    ensures Prune(b, c) == b[n..]
  {
  }

  /** `[stamp for stamp in scores if stamp > cutoff]`. */
  function Filter(b: seq<real>, c: real): seq<real> {
    if |b| == 0 then []
    else Filter(b[..|b| - 1], c) + if b[|b| - 1] > c then [b[|b| - 1]] else []
  }

  lemma {:induction false} FilterOfRecent(b: seq<real>, c: real)
    requires AllAfter(b, c)
    ensures Filter(b, c) == b
  {
    if |b| > 0 { FilterOfRecent(b[..|b| - 1], c); }
  }

  lemma {:induction false} FilterOfOld(b: seq<real>, c: real)
    requires NoneAfter(b, c)
    ensures Filter(b, c) == []
  {
    if |b| > 0 { FilterOfOld(b[..|b| - 1], c); }
  }

  lemma {:induction false} FilterSplits(a: seq<real>, b: seq<real>, c: real)
    ensures Filter(a + b, c) == Filter(a, c) + Filter(b, c)
  {
    if |b| == 0 {
      assert a + b == a;
    } else {
      FilterSplits(a, b[..|b| - 1], c);
      assert (a + b)[..|a + b| - 1] == a + b[..|b| - 1];
    }
  }

  /** On an ordered bucket dropping from the front is the same as filtering. */
  lemma PruneIsFilter(b: seq<real>, c: real)
    requires Sorted(b)
    ensures Filter(b, c) == Prune(b, c)
  {
    var n := Lapsed(b, c, 0);
    assert b == b[..n] + b[n..];
    FilterSplits(b[..n], b[n..], c);
    FilterOfOld(b[..n], c);
    SuffixAfter(b, c, n);
    FilterOfRecent(b[n..], c);
  }

  /** One append to a deque of bounded length. */
  function Push(b: seq<real>, t: real, cap: nat): seq<real>
    requires cap > 0
  {
    (if |b| >= cap then b[1..] else b) + [t]
  }

  function PushMany(b: seq<real>, t: real, n: nat, cap: nat): seq<real>
    requires cap > 0
  {
    if n == 0 then b else Push(PushMany(b, t, n - 1, cap), t, cap)
  }

  /** `scores[-threshold:]`. */
  function LastOf(b: seq<real>, cap: nat): seq<real> {
    if |b| > cap then b[|b| - cap..] else b
  }

  /** Appending to the bounded deque one by one is extending the list and slicing it. */
  lemma {:induction false} PushIsSlice(b: seq<real>, t: real, n: nat, cap: nat)
    requires cap > 0 && |b| <= cap
    ensures PushMany(b, t, n, cap) == LastOf(b + Repeat(t, n), cap)
  {
    if n == 0 {
      assert b + Repeat(t, n) == b;
    } else {
      PushIsSlice(b, t, n - 1, cap);
      assert b + Repeat(t, n) == b + Repeat(t, n - 1) + [t];
    }
  }

  // ---------------------------------------------------------------- bounded buckets

  /** The bucket is the end of the history; what it dropped is either outside the window or
      more than the threshold ago. */
  predicate Capped(b: seq<real>, hits: seq<real>, cap: nat, c: real) {
    && |b| <= cap && |b| <= |hits|
    && b == hits[|hits| - |b|..]
    && (|b| == cap || forall i :: 0 <= i < |hits| - |b| ==> hits[i] <= c)
  }

  lemma CappedPrune(b: seq<real>, hits: seq<real>, cap: nat, c: real, c': real)
    requires Capped(b, hits, cap, c) && Sorted(hits) && c <= c'
    ensures Capped(Prune(b, c'), hits, cap, c') && AllAfter(Prune(b, c'), c')
  {
    var n, k := Lapsed(b, c', 0), |hits| - |b|;
    SuffixOfSuffix(hits, k, n);
    if n < |b| { assert b[n] == hits[k + n]; }
    SuffixAfter(hits, c', k + n);
    if n > 0 {
      assert b[n - 1] == hits[k + n - 1];
      PrefixBefore(hits, c', k + n);
    }
  }

  lemma CappedPush(b: seq<real>, hits: seq<real>, cap: nat, c: real, t: real)
    requires Capped(b, hits, cap, c) && cap > 0
    ensures Capped(Push(b, t, cap), hits + [t], cap, c)
  {
    var r, h := Push(b, t, cap), hits + [t];
    assert r == h[|h| - |r|..];
  }

  lemma {:induction false} CappedPushMany(b: seq<real>, hits: seq<real>, cap: nat, c: real, t: real, n: nat)
    requires Capped(b, hits, cap, c) && cap > 0
    ensures Capped(PushMany(b, t, n, cap), hits + Repeat(t, n), cap, c)
  {
    if n == 0 {
      assert hits + Repeat(t, n) == hits;
    } else {
      CappedPushMany(b, hits, cap, c, t, n - 1);
      CappedPush(PushMany(b, t, n - 1, cap), hits + Repeat(t, n - 1), cap, c, t);
      assert hits + Repeat(t, n) == hits + Repeat(t, n - 1) + [t];
    }
  }

  lemma {:induction false} PushedAfter(b: seq<real>, cap: nat, c: real, t: real, n: nat)
    requires AllAfter(b, c) && t > c && cap > 0
    ensures AllAfter(PushMany(b, t, n, cap), c)
  {
    if n > 0 { PushedAfter(b, cap, c, t, n - 1); }
  }

  /** A pruned bucket is full exactly when the whole history weighs enough inside the window. */
  lemma FullMeansThreshold(b: seq<real>, hits: seq<real>, cap: nat, c: real)
    requires Capped(b, hits, cap, c) && AllAfter(b, c)
    ensures |b| >= cap <==> WeightAfter(hits, c) >= cap
    ensures |b| > 0 || cap == 0 <==> WeightAfter(hits, c) > 0 || cap == 0
  {
    var dropped := hits[..|hits| - |b|];
    assert hits == dropped + b;
    WeightSplits(dropped, b, c);
    WeightOfRecent(b, c);
    if |b| < cap { WeightOfOld(dropped, c); }
  }

  // ---------------------------------------------------------------- one tracked source

  /** A ban and a bucket stand for a source of the reference, as of time `last`. */
  predicate Tracks(cfg: Config, ban: Option<real>, bucket: seq<real>, s: Source, last: real) {
    && Sorted(s.hits) && NoneAfter(s.hits, last)
    && (if ban.Some? then s.until == ban
        else if s.until.None? then Capped(bucket, s.hits, cfg.threshold, Cutoff(cfg, last))
        else s.until.value <= last && bucket == [])
  }

  lemma UntouchedTracks(cfg: Config, last: real)
    requires cfg.Valid()
    ensures Tracks(cfg, None, [], Idle, last)
  {
  }

  lemma TickTracks(cfg: Config, ban: Option<real>, bucket: seq<real>, s: Source, last: real, now: real)
    requires Tracks(cfg, ban, bucket, s, last) && last <= now
    ensures Tracks(cfg, ban, bucket, s, now)
  {
  }

  lemma ExpiryTracks(cfg: Config, ban: Option<real>, bucket: seq<real>, s: Source, last: real, now: real)
    requires Tracks(cfg, ban, bucket, s, last) && last <= now && ban.Some? && ban.value <= now && cfg.Valid()
    ensures Tracks(cfg, None, [], s, now) && !Live(cfg, s, now)
  {
  }

  lemma PruneTracks(cfg: Config, bucket: seq<real>, s: Source, last: real, now: real)
    requires Tracks(cfg, None, bucket, s, last) && last <= now && cfg.Valid()
    ensures var b := Prune(bucket, Cutoff(cfg, now));
      && Tracks(cfg, None, b, s, now) && AllAfter(b, Cutoff(cfg, now))
      && (|b| > 0 <==> Live(cfg, s, now))
  {
    if s.until.None? {
      PrunedBucket(cfg.threshold, bucket, s.hits, Cutoff(cfg, last), Cutoff(cfg, now));
    } else {
      assert Prune(bucket, Cutoff(cfg, now)) == [];
    }
  }

  lemma PrunedBucket(cap: nat, bucket: seq<real>, h: seq<real>, c: real, c': real)
    requires Capped(bucket, h, cap, c) && Sorted(h) && c <= c' && cap > 0
    ensures var b := Prune(bucket, c');
      Capped(b, h, cap, c') && AllAfter(b, c') && (|b| > 0 <==> WeightAfter(h, c') > 0)
  {
    CappedPrune(bucket, h, cap, c, c');
    FullMeansThreshold(Prune(bucket, c'), h, cap, c');
  }

  /** The bucket after a detection. */
  function Scored(cfg: Config, bucket: seq<real>, now: real, weight: nat): seq<real>
    requires cfg.Valid()
  {
    PushMany(Prune(bucket, Cutoff(cfg, now)), now, weight, cfg.threshold)
  }

  lemma AppendKeepsOrder(hits: seq<real>, now: real, n: nat)
    requires Sorted(hits) && NoneAfter(hits, now)
    ensures Sorted(hits + Repeat(now, n)) && NoneAfter(hits + Repeat(now, n), now)
  {
  }

  /** The recorded hits end at the present. */
  lemma RecordHits(cfg: Config, s: Source, now: real, weight: nat)
    requires weight >= 1
    ensures var h := Record(cfg, s, now, weight).source.hits; |h| > 0 && h[|h| - 1] == now
  {
  }

  /** The bounded bucket starts a ban exactly when the unbounded window does. */
  lemma RecordTracks(cfg: Config, ban: Option<real>, bucket: seq<real>, s: Source, last: real, now: real, weight: nat)
    requires cfg.Valid() && Tracks(cfg, ban, bucket, s, last) && last <= now && (ban.Some? ==> ban.value > now)
    ensures var b := Scored(cfg, bucket, now, weight);
      var newly := |b| >= cfg.threshold && ban.None?;
      && newly == Record(cfg, s, now, weight).newly
      && Tracks(cfg, if newly then Some(now + cfg.period) else ban, b, Record(cfg, s, now, weight).source, now)
  {
    var r := Record(cfg, s, now, weight);
    AppendKeepsOrder(Refresh(s, now).hits, now, weight);
    if ban.None? {
      var c := Cutoff(cfg, now);
      PruneTracks(cfg, bucket, s, last, now);
      var h := Refresh(s, now).hits;
      CappedPushMany(Prune(bucket, c), h, cfg.threshold, c, now, weight);
      PushedAfter(Prune(bucket, c), cfg.threshold, c, now, weight);
      FullMeansThreshold(Scored(cfg, bucket, now, weight), h + Repeat(now, weight), cfg.threshold, c);
    }
  }

  /** Whatever is live is tracked. */
  lemma LiveIsTracked(cfg: Config, ban: Option<real>, bucket: seq<real>, s: Source, last: real, now: real)
    requires cfg.Valid() && Tracks(cfg, ban, bucket, s, last) && last <= now && Live(cfg, s, now)
    ensures ban.Some? || |bucket| > 0
  {
    if ban.None? { PruneTracks(cfg, bucket, s, last, now); }
  }

  // ---------------------------------------------------------------- whole traces

  datatype Op = Hit(ip: Ip, severity: Severity, now: real) | Query(ip: Ip, now: real) | Clear(ip: Ip, now: real)

  datatype Verdict = NewBan(newly: bool) | Status(blocked: bool, seconds: nat) | Cleared

  /** `(True, max(1, int(expiry - now)))` or `(False, 0)`. */
  function StatusOf(until: Option<real>, now: real): Verdict {
    if until.None? || until.value <= now then Status(false, 0)
    else
      var left: int := (until.value - now).Floor;
      Status(true, if left < 1 then 1 else left)
  }

  function Answer(cfg: Config, l: Ledger, op: Op): Verdict {
    match op
    case Hit(ip, severity, now) => NewBan(Record(cfg, At(l, ip), now, Weight(severity)).newly)
    case Query(ip, now) => StatusOf(At(l, ip).until, now)
    case Clear(_, _) => Cleared
  }

  function After(cfg: Config, l: Ledger, op: Op): Ledger {
    match op
    case Hit(ip, severity, now) => l[ip := Record(cfg, At(l, ip), now, Weight(severity)).source]
    case Query(_, _) => l
    case Clear(ip, _) => l[ip := Idle]
  }

  function Answers(cfg: Config, l: Ledger, ops: seq<Op>): seq<Verdict>
    decreases |ops|
  {
    if |ops| == 0 then [] else [Answer(cfg, l, ops[0])] + Answers(cfg, After(cfg, l, ops[0]), ops[1..])
  }

  predicate Room(cfg: Config, l: Ledger, ip: Ip, now: real) {
    Live(cfg, At(l, ip), now) || |LiveSet(cfg, l, now)| < cfg.capacity
  }

  /** No detection finds the table full of other live sources. */
  predicate WithinCapacity(cfg: Config, l: Ledger, ops: seq<Op>)
    decreases |ops|
  {
    |ops| > 0 ==>
      && (ops[0].Hit? ==> Room(cfg, l, ops[0].ip, ops[0].now))
      && WithinCapacity(cfg, After(cfg, l, ops[0]), ops[1..])
  }

  predicate Monotone(ops: seq<Op>, start: real) {
    && (forall i :: 0 <= i < |ops| ==> start <= ops[i].now)
    && (forall i, j :: 0 <= i < j < |ops| ==> ops[i].now <= ops[j].now)
  }

  // ---------------------------------------------------------------- capacity

  /** Time of the latest hit since the last reset. */
  function LastHit(l: Ledger, ip: Ip): real {
    var h := At(l, ip).hits;
    if |h| > 0 then h[|h| - 1] else 0.0
  }

  /** The capacity rule.  With room nothing is lost; without, the oldest live unbanned source is forgotten, or,
      when every live source is banned, the newcomer is not admitted. */
  ghost predicate Admitted(cfg: Config, l: Ledger, l': Ledger, ip: Ip, now: real, ok: bool) {
    if Room(cfg, l, ip, now) then ok && l' == l
    else if ok then exists v :: Oldest(cfg, l, v, now) && l' == l[v := Idle]
    else l' == l && forall u :: u in LiveSet(cfg, l, now) ==> Banned(At(l, u), now)
  }

  /** What `record` answers and does to the reference. */
  ghost predicate Outcome(cfg: Config, l: Ledger, l': Ledger, ip: Ip, severity: Severity, now: real, newly: bool) {
    exists l1, ok :: Admitted(cfg, l, l1, ip, now, ok) && Scores(cfg, l1, l', ip, severity, now, ok, newly)
  }

  ghost predicate Scores(cfg: Config, l: Ledger, l': Ledger, ip: Ip, severity: Severity, now: real, ok: bool,
                         newly: bool)
  {
    if ok then NewBan(newly) == Answer(cfg, l, Hit(ip, severity, now)) && l' == After(cfg, l, Hit(ip, severity, now))
    else !newly && l' == l
  }

  /** A live unbanned source that was hit no later than any other. */
  ghost predicate Oldest(cfg: Config, l: Ledger, v: Ip, now: real) {
    && v in LiveSet(cfg, l, now) && !Banned(At(l, v), now)
    && (forall u :: u in LiveSet(cfg, l, now) && !Banned(At(l, u), now) ==> LastHit(l, v) <= LastHit(l, u))
  }
}
