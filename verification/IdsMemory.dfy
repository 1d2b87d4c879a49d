/** `IntrusionState` of src/app/ids.py: buckets in an ordered dictionary, bans in another, and a periodic
    cleanup.  The ghost ledger is the unbounded reference the object stands for; losing a source to
    the capacity limit resets it there too. */
module IdsMemory {
  import opened Prelude
  import opened IdsWindow

  function Ban(blocked: map<Ip, real>, ip: Ip): Option<real> { if ip in blocked then Some(blocked[ip]) else None }

  function Bucket(scores: map<Ip, seq<real>>, ip: Ip): seq<real> { if ip in scores then scores[ip] else [] }

  /** Every source, tracked or not, stands for its ledger entry. */
  ghost predicate Mirrors(cfg: Config, scores: map<Ip, seq<real>>, blocked: map<Ip, real>, l: Ledger, last: real) {
    forall ip: Ip :: TracksAt(cfg, scores, blocked, l, last, ip)
  }

  predicate TracksAt(cfg: Config, scores: map<Ip, seq<real>>, blocked: map<Ip, real>, l: Ledger, last: real, ip: Ip) {
    Tracks(cfg, Ban(blocked, ip), Bucket(scores, ip), At(l, ip), last)
  }

  predicate Listed(order: seq<Ip>, keys: set<Ip>, l: Ledger, ip: Ip) {
    (ip in order <==> ip in keys) && (ip in keys ==> |At(l, ip).hits| > 0)
  }

  predicate OldestFirst(order: seq<Ip>, l: Ledger, i: int, j: int) {
    0 <= i < j < |order| ==> order[i] != order[j] && LastHit(l, order[i]) <= LastHit(l, order[j])
  }

  /** The dictionary order lists each tracked source once, least recently hit first. */
  ghost predicate Listing(order: seq<Ip>, keys: set<Ip>, l: Ledger) {
    (forall ip: Ip :: Listed(order, keys, l, ip)) && (forall i: int, j: int :: OldestFirst(order, l, i, j))
  }

  function IndexOf(order: seq<Ip>, ip: Ip): (k: nat)
    requires ip in order
    ensures k < |order| && order[k] == ip
  {
    if order[|order| - 1] == ip then |order| - 1 else IndexOf(order[..|order| - 1], ip)
  }

  function Without(order: seq<Ip>, ip: Ip): seq<Ip> {
    if ip in order then order[..IndexOf(order, ip)] + order[IndexOf(order, ip) + 1..] else order
  }

  lemma WithoutMembers(order: seq<Ip>, ip: Ip, x: Ip)
    requires ip in order && forall j :: 0 <= j < |order| && j != IndexOf(order, ip) ==> order[j] != ip
    ensures x in Without(order, ip) <==> x in order && x != ip
  {
    var k := IndexOf(order, ip);
    assert order == order[..k] + [ip] + order[k + 1..];
    assert x in order <==> x in order[..k] || x == ip || x in order[k + 1..];
    assert ip !in order[..k] && ip !in order[k + 1..];
  }

  lemma WithoutListing(order: seq<Ip>, keys: set<Ip>, l: Ledger, ip: Ip)
    requires Listing(order, keys, l)
    ensures Listing(Without(order, ip), keys - {ip}, l)
  {
    assert Listed(order, keys, l, ip);
    if ip in order {
      var k, r := IndexOf(order, ip), Without(order, ip);
      forall j | 0 <= j < |order| && j != k ensures order[j] != ip {
        assert OldestFirst(order, l, if j < k then j else k, if j < k then k else j);
      }
      forall x: Ip ensures Listed(r, keys - {ip}, l, x) {
        assert Listed(order, keys, l, x);
        WithoutMembers(order, ip, x);
      }
      forall i: int, j: int ensures OldestFirst(r, l, i, j) {
        assert OldestFirst(order, l, if i < k then i else i + 1, if j < k then j else j + 1);
      }
    } else {
      assert keys - {ip} == keys;
    }
  }

  lemma AppendListing(order: seq<Ip>, keys: set<Ip>, l: Ledger, ip: Ip, s: Source, now: real)
    requires Listing(order, keys, l) && ip !in keys && |s.hits| > 0 && s.hits[|s.hits| - 1] == now
    requires forall x :: x in keys ==> LastHit(l, x) <= now
    ensures Listing(order + [ip], keys + {ip}, l[ip := s])
  {
    var o, l' := order + [ip], l[ip := s];
    forall x: Ip ensures Listed(o, keys + {ip}, l', x) {
      assert Listed(order, keys, l, x);
      assert x in o <==> x in order || x == ip;
    }
    forall i: int, j: int ensures OldestFirst(o, l', i, j) {
      assert OldestFirst(order, l, i, j);
      if 0 <= i < j < |o| {
        assert o[i] == order[i] && Listed(order, keys, l, order[i]);
        if j < |order| { assert o[j] == order[j] && Listed(order, keys, l, order[j]); }
      }
    }
  }

  lemma ResetListing(order: seq<Ip>, keys: set<Ip>, l: Ledger, ip: Ip)
    requires Listing(order, keys, l) && ip !in keys
    ensures Listing(order, keys, l[ip := Idle])
  {
    var l' := l[ip := Idle];
    forall x: Ip ensures Listed(order, keys, l', x) { assert Listed(order, keys, l, x); }
    forall i: int, j: int ensures OldestFirst(order, l', i, j) {
      assert OldestFirst(order, l, i, j);
      if 0 <= i < j < |order| { assert Listed(order, keys, l, order[i]) && Listed(order, keys, l, order[j]); }
    }
  }

  lemma MirrorsTick(cfg: Config, scores: map<Ip, seq<real>>, blocked: map<Ip, real>, l: Ledger, last: real, now: real)
    requires Mirrors(cfg, scores, blocked, l, last) && last <= now
    ensures Mirrors(cfg, scores, blocked, l, now)
  {
    forall ip: Ip ensures TracksAt(cfg, scores, blocked, l, now, ip) {
      assert TracksAt(cfg, scores, blocked, l, last, ip);
      TickTracks(cfg, Ban(blocked, ip), Bucket(scores, ip), At(l, ip), last, now);
    }
  }

  /** A source that stands for nothing may be dropped from both tables. */
  lemma MirrorsDrop(cfg: Config, scores: map<Ip, seq<real>>, blocked: map<Ip, real>, l: Ledger, last: real, ip: Ip)
    requires Mirrors(cfg, scores, blocked, l, last) && Tracks(cfg, None, [], At(l, ip), last)
    ensures Mirrors(cfg, scores - {ip}, blocked - {ip}, l, last)
  {
    forall x: Ip ensures TracksAt(cfg, scores - {ip}, blocked - {ip}, l, last, x) {
      assert TracksAt(cfg, scores, blocked, l, last, x);
    }
  }

  /** One source changes together with its ledger entry. */
  lemma MirrorsSet(cfg: Config, scores: map<Ip, seq<real>>, blocked: map<Ip, real>, l: Ledger, last: real, ip: Ip,
                   bucket: seq<real>, blocked': map<Ip, real>, s: Source)
    requires Mirrors(cfg, scores, blocked, l, last)
    requires forall x :: x != ip ==> Ban(blocked', x) == Ban(blocked, x)
    requires Tracks(cfg, Ban(blocked', ip), bucket, s, last)
    ensures Mirrors(cfg, scores[ip := bucket], blocked', l[ip := s], last)
  {
    var scores', l' := scores[ip := bucket], l[ip := s];
    forall x: Ip ensures TracksAt(cfg, scores', blocked', l', last, x) {
      assert TracksAt(cfg, scores, blocked, l, last, x);
    }
  }

  /** A source starts over. */
  lemma MirrorsForget(cfg: Config, scores: map<Ip, seq<real>>, blocked: map<Ip, real>, l: Ledger, last: real, v: Ip)
    requires cfg.Valid() && Mirrors(cfg, scores, blocked, l, last)
    ensures Mirrors(cfg, scores - {v}, blocked - {v}, l[v := Idle], last)
  {
    var scores', blocked', l' := scores - {v}, blocked - {v}, l[v := Idle];
    UntouchedTracks(cfg, last);
    forall x: Ip ensures TracksAt(cfg, scores', blocked', l', last, x) {
      assert TracksAt(cfg, scores, blocked, l, last, x);
    }
  }

  /** Live sources are always in the table. */
  lemma LiveAreTracked(cfg: Config, scores: map<Ip, seq<real>>, blocked: map<Ip, real>, l: Ledger, now: real)
    requires cfg.Valid() && Mirrors(cfg, scores, blocked, l, now) && blocked.Keys <= scores.Keys
    ensures LiveSet(cfg, l, now) <= scores.Keys
  {
    forall ip | ip in LiveSet(cfg, l, now) ensures ip in scores {
      assert TracksAt(cfg, scores, blocked, l, now, ip);
      LiveIsTracked(cfg, Ban(blocked, ip), Bucket(scores, ip), At(l, ip), now, now);
    }
  }

  lemma LastHitBefore(cfg: Config, ban: Option<real>, bucket: seq<real>, l: Ledger, ip: Ip, now: real)
    requires Tracks(cfg, ban, bucket, At(l, ip), now) && |At(l, ip).hits| > 0
    ensures LastHit(l, ip) <= now
  {
  }

  /** The whole invariant: the bans are among the tracked sources, which fit the capacity. */
  ghost predicate Table(cfg: Config, order: seq<Ip>, scores: map<Ip, seq<real>>, blocked: map<Ip, real>, l: Ledger,
                        last: real)
  {
    && cfg.Valid()
    && Listing(order, scores.Keys, l)
    && blocked.Keys <= scores.Keys && |scores.Keys| <= cfg.capacity
    && Mirrors(cfg, scores, blocked, l, last)
  }

  lemma TableDrop(cfg: Config, order: seq<Ip>, scores: map<Ip, seq<real>>, blocked: map<Ip, real>, l: Ledger,
                  last: real, ip: Ip, order': seq<Ip>)
    requires Table(cfg, order, scores, blocked, l, last) && Tracks(cfg, None, [], At(l, ip), last)
    requires Listing(order', scores.Keys - {ip}, l)
    ensures Table(cfg, order', scores - {ip}, blocked - {ip}, l, last)
  {
    MirrorsDrop(cfg, scores, blocked, l, last, ip);
    assert (scores - {ip}).Keys == scores.Keys - {ip};
    SubsetSize(scores.Keys - {ip}, scores.Keys);
  }

  /** No ban still running at `now` was lost, none was changed, none appeared. */
  predicate BansKept(before: map<Ip, real>, after: map<Ip, real>, now: real) {
    && (forall ip :: ip in after ==> ip in before && after[ip] == before[ip])
    && (forall ip :: ip in before && before[ip] > now ==> ip in after)
  }

  predicate RunningBansKept(before: map<Ip, real>, after: map<Ip, real>, now: real) {
    forall ip :: ip in before && before[ip] > now ==> ip in after && after[ip] == before[ip]
  }

  lemma BansKeptTransitive(a: map<Ip, real>, b: map<Ip, real>, c: map<Ip, real>, now: real)
    requires BansKept(a, b, now) && BansKept(b, c, now)
    ensures BansKept(a, c, now)
  {
  }

  lemma TableForget(cfg: Config, order: seq<Ip>, scores: map<Ip, seq<real>>, blocked: map<Ip, real>, l: Ledger,
                    last: real, v: Ip, order': seq<Ip>)
    requires Table(cfg, order, scores, blocked, l, last)
    requires Listing(order', scores.Keys - {v}, l)
    ensures Table(cfg, order', scores - {v}, blocked - {v}, l[v := Idle], last)
  {
    var scores' := scores - {v};
    assert scores'.Keys == scores.Keys - {v};
    SubsetSize(scores'.Keys, scores.Keys);
    ResetListing(order', scores'.Keys, l, v);
    MirrorsForget(cfg, scores, blocked, l, last, v);
  }

  /** Nobody else is banned or released. */
  ghost predicate BansBut(blocked': map<Ip, real>, blocked: map<Ip, real>, ip: Ip) {
    blocked'.Keys <= blocked.Keys + {ip} && forall x: Ip :: x != ip ==> Ban(blocked', x) == Ban(blocked, x)
  }

  lemma NewBanIsOwn(blocked: map<Ip, real>, ip: Ip, until: real, newly: bool)
    ensures BansBut(if newly then blocked[ip := until] else blocked, blocked, ip)
  {
  }

  /** A scored source goes to the end of the order. */
  lemma TableEnter(cfg: Config, order: seq<Ip>, scores: map<Ip, seq<real>>, blocked: map<Ip, real>, l: Ledger,
                   now: real, ip: Ip, order': seq<Ip>, bucket: seq<real>, blocked': map<Ip, real>, s: Source)
    requires Table(cfg, order, scores, blocked, l, now) && (ip in scores || |scores.Keys| < cfg.capacity)
    requires Listing(order', scores.Keys - {ip}, l)
    requires BansBut(blocked', blocked, ip)
    requires Tracks(cfg, Ban(blocked', ip), bucket, s, now) && |s.hits| > 0 && s.hits[|s.hits| - 1] == now
    ensures Table(cfg, order' + [ip], scores[ip := bucket], blocked', l[ip := s], now)
  {
    MirrorsSet(cfg, scores, blocked, l, now, ip, bucket, blocked', s);
    forall x | x in scores.Keys - {ip} ensures LastHit(l, x) <= now {
      assert TracksAt(cfg, scores, blocked, l, now, x);
      assert Listed(order, scores.Keys, l, x);
      LastHitBefore(cfg, Ban(blocked, x), Bucket(scores, x), l, x, now);
    }
    AppendListing(order', scores.Keys - {ip}, l, ip, s, now);
    EnteredKeys(scores, ip, bucket, cfg.capacity);
  }

  lemma EnteredKeys(scores: map<Ip, seq<real>>, ip: Ip, bucket: seq<real>, capacity: nat)
    requires |scores.Keys| <= capacity && (ip in scores || |scores.Keys| < capacity)
    ensures var scores' := scores[ip := bucket];
      scores'.Keys == scores.Keys - {ip} + {ip} && scores.Keys + {ip} <= scores'.Keys && |scores'.Keys| <= capacity
  {
    var scores' := scores[ip := bucket];
    assert scores'.Keys == scores.Keys + {ip};
    if ip in scores { assert scores'.Keys == scores.Keys; }
  }

  /** With only live sources tracked, the first unbanned one in the order is the oldest. */
  lemma FirstIsOldest(cfg: Config, order: seq<Ip>, scores: map<Ip, seq<real>>, blocked: map<Ip, real>, l: Ledger,
                      now: real, k: nat)
    requires Table(cfg, order, scores, blocked, l, now) && scores.Keys == LiveSet(cfg, l, now)
    requires k <= |order| && (forall i :: 0 <= i < k ==> order[i] in blocked) && (k < |order| ==> order[k] !in blocked)
    ensures k < |order| ==> Oldest(cfg, l, order[k], now)
    ensures k == |order| ==> forall u :: u in LiveSet(cfg, l, now) ==> Banned(At(l, u), now)
  {
    if k < |order| { assert Listed(order, scores.Keys, l, order[k]); }
    forall u | u in LiveSet(cfg, l, now) ensures Banned(At(l, u), now) <==> u in blocked {
      assert TracksAt(cfg, scores, blocked, l, now, u);
    }
    forall u | u in LiveSet(cfg, l, now) && u !in blocked ensures k < |order| && LastHit(l, order[k]) <= LastHit(l, u) {
      assert Listed(order, scores.Keys, l, u);
      var j :| 0 <= j < |order| && order[j] == u;
      assert OldestFirst(order, l, k, j);
    }
  }

  /** A table that holds the source, or is not full, leaves room for it. */
  lemma TableHasRoom(cfg: Config, order: seq<Ip>, scores: map<Ip, seq<real>>, blocked: map<Ip, real>, l: Ledger,
                     now: real, ip: Ip)
    requires Table(cfg, order, scores, blocked, l, now) && (ip in scores || |scores.Keys| < cfg.capacity)
    ensures Room(cfg, l, ip, now)
  {
    LiveAreTracked(cfg, scores, blocked, l, now);
    if !Live(cfg, At(l, ip), now) {
      assert ip !in LiveSet(cfg, l, now);
      SubsetSize(LiveSet(cfg, l, now), scores.Keys - {ip});
      if ip in scores { assert scores.Keys == scores.Keys - {ip} + {ip}; }
    }
  }

  /** Removal from the dictionary order. */
  method Unlist(order: seq<Ip>, ip: Ip, ghost keys: set<Ip>, ghost l: Ledger) returns (rest: seq<Ip>)
    requires Listing(order, keys, l)
    ensures Listing(rest, keys - {ip}, l)
  {
    WithoutListing(order, keys, l, ip);
    return Without(order, ip);
  }

  /** `while bucket and bucket[0] <= cutoff: bucket.popleft()`. */
  method PopLapsed(bucket: seq<real>, cutoff: real) returns (rest: seq<real>)
    ensures rest == Prune(bucket, cutoff)
  {
    rest := bucket;
    ghost var n := 0;
    while |rest| > 0 && rest[0] <= cutoff
      invariant 0 <= n <= |bucket| && rest == bucket[n..]
      invariant forall k :: 0 <= k < n ==> bucket[k] <= cutoff
      decreases |rest|
    {
      rest, n := rest[1..], n + 1;
    }
    PruneIs(bucket, cutoff, n);
  }

  /** `for _ in range(weight): bucket.append(now)` on a deque of bounded length. */
  method AppendHits(bucket: seq<real>, now: real, weight: nat, cap: nat) returns (filled: seq<real>)
    requires cap > 0
    ensures filled == PushMany(bucket, now, weight, cap)
  {
    filled := bucket;
    for i := 0 to weight
      invariant filled == PushMany(bucket, now, i, cap)
    {
      filled := Push(filled, now, cap);
    }
  }

  class IntrusionState {
    const cfg: Config
    var order: seq<Ip>
    var scores: map<Ip, seq<real>>
    var blocked: map<Ip, real>
    var nextCleanup: real
    ghost var ledger: Ledger
    ghost var last: real

    ghost predicate Valid()
      reads this
    {
      Table(cfg, order, scores, blocked, ledger, last)
    }

    constructor (cfg: Config, ghost start: real)
      requires cfg.Valid()
      ensures Valid() && this.cfg == cfg && ledger == map[] && last == start
    {
      this.cfg := cfg;
      order, scores, blocked, nextCleanup, ledger, last := [], map[], map[], 0.0, map[], start;
    }

    ghost method Tick(now: real)
      requires Valid() && last <= now
      modifies this`last
      ensures Valid() && last == now
    {
      MirrorsTick(cfg, scores, blocked, ledger, last, now);
      last := now;
    }

    /** Forget a source that stands for nothing. */
    method Drop(ip: Ip)
      requires Valid() && Tracks(cfg, None, [], At(ledger, ip), last)
      modifies this`order, this`scores, this`blocked
      ensures Valid() && scores == old(scores) - {ip} && blocked == old(blocked) - {ip}
    {
      var rest := Unlist(order, ip, scores.Keys, ledger);
      TableDrop(cfg, order, scores, blocked, ledger, last, ip, rest);
      order := rest;
      scores := scores - {ip};
      blocked := blocked - {ip};
      assert Mirrors(cfg, scores, blocked, ledger, last);
    }

    /** Replace the bucket of a tracked source. */
    method SetBucket(ip: Ip, bucket: seq<real>)
      requires Valid() && ip in scores && Tracks(cfg, Ban(blocked, ip), bucket, At(ledger, ip), last)
      modifies this`scores
      ensures Valid() && scores == old(scores)[ip := bucket]
    {
      MirrorsSet(cfg, scores, blocked, ledger, last, ip, bucket, blocked, At(ledger, ip));
      assert Listed(order, scores.Keys, ledger, ip);
      assert ledger[ip := At(ledger, ip)] == ledger;
      assert scores[ip := bucket].Keys == scores.Keys;
      scores := scores[ip := bucket];
      assert Mirrors(cfg, scores, blocked, ledger, last);
    }

    /** `_expire_source`. */
    method ExpireSource(ip: Ip, now: real)
      requires Valid() && last == now
      modifies this`order, this`scores, this`blocked
      ensures Valid() && BansKept(old(blocked), blocked, now)
      ensures ip in blocked ==> blocked[ip] > now
      ensures scores.Keys <= old(scores).Keys
    {
      if ip in blocked && blocked[ip] <= now {
        assert TracksAt(cfg, scores, blocked, ledger, now, ip);
        ExpiryTracks(cfg, Ban(blocked, ip), Bucket(scores, ip), At(ledger, ip), now, now);
        Drop(ip);
      }
    }

    /** One source of `_cleanup`. */
    method Sweep(ip: Ip, now: real)
      requires Valid() && last == now
      modifies this`order, this`scores, this`blocked
      ensures Valid() && BansKept(old(blocked), blocked, now)
      ensures scores.Keys <= old(scores).Keys
      ensures ip in scores ==> Live(cfg, At(ledger, ip), now)
    {
      ExpireSource(ip, now);
      if ip !in scores { return; }
      if ip in blocked {
        assert TracksAt(cfg, scores, blocked, ledger, now, ip);
        return;
      }
      PruneBucket(ip, now);
    }

    /** An unbanned source keeps only its hits inside the window, or goes. */
    method PruneBucket(ip: Ip, now: real)
      requires Valid() && last == now && ip in scores && ip !in blocked
      modifies this`order, this`scores, this`blocked
      ensures Valid() && BansKept(old(blocked), blocked, now) && scores.Keys <= old(scores).Keys
      ensures ip in scores ==> Live(cfg, At(ledger, ip), now)
    {
      var bucket := InsideWindow(ip, now);
      SetBucket(ip, bucket);
      if |bucket| == 0 { Drop(ip); }
    }

    /** The hits of an unbanned source inside the window. */
    method InsideWindow(ip: Ip, now: real) returns (bucket: seq<real>)
      requires Valid() && last == now && ip in scores && ip !in blocked
      ensures Tracks(cfg, Ban(blocked, ip), bucket, At(ledger, ip), now)
      ensures if |bucket| == 0 then Tracks(cfg, None, [], At(ledger, ip), now) else Live(cfg, At(ledger, ip), now)
    {
      assert TracksAt(cfg, scores, blocked, ledger, now, ip);
      PruneTracks(cfg, scores[ip], At(ledger, ip), now, now);
      bucket := PopLapsed(scores[ip], Cutoff(cfg, now));
      assert |bucket| == 0 ==> bucket == [];
    }

    /** `_cleanup`: when it runs, exactly the live sources stay. */
    method Cleanup(now: real, force: bool)
      requires Valid() && last == now
      modifies this`order, this`scores, this`blocked, this`nextCleanup
      ensures Valid() && BansKept(old(blocked), blocked, now)
      ensures scores.Keys <= old(scores).Keys
      ensures force ==> scores.Keys == LiveSet(cfg, ledger, now)
    {
      if !force && now < nextCleanup { return; }
      var ips := order;
      for i := 0 to |ips|
        invariant Valid() && BansKept(old(blocked), blocked, now) && scores.Keys <= old(scores).Keys
        invariant forall k :: 0 <= k < i && ips[k] in scores ==> Live(cfg, At(ledger, ips[k]), now)
      {
        ghost var was := blocked;
        Sweep(ips[i], now);
        BansKeptTransitive(old(blocked), was, blocked, now);
      }
      forall ip | ip in scores ensures ip in LiveSet(cfg, ledger, now) {
        assert Listed(old(order), old(scores).Keys, ledger, ip);
      }
      LiveAreTracked(cfg, scores, blocked, ledger, now);
      nextCleanup := now + if cfg.period < 60.0 then cfg.period else 60.0;
    }

    /** The first source in the order that is not banned. */
    method FirstFree() returns (k: nat)
      ensures k <= |order| && (forall i :: 0 <= i < k ==> order[i] in blocked)
      ensures k < |order| ==> order[k] !in blocked
    {
      k := 0;
      while k < |order| && order[k] in blocked
        invariant k <= |order| && forall i :: 0 <= i < k ==> order[i] in blocked
      {
        k := k + 1;
      }
    }

    /** Forget an unbanned source to make room. */
    method Evict(v: Ip)
      requires Valid() && v in scores && v !in blocked
      modifies this`order, this`scores, this`ledger
      ensures Valid() && scores == old(scores) - {v} && ledger == old(ledger)[v := Idle]
    {
      var rest := Unlist(order, v, scores.Keys, ledger);
      TableForget(cfg, order, scores, blocked, ledger, last, v, rest);
      assert blocked - {v} == blocked;
      order := rest;
      scores := scores - {v};
      ledger := ledger[v := Idle];
      assert Mirrors(cfg, scores, blocked, ledger, last);
    }

    /** The capacity rule of `record`: within capacity nothing is lost; beyond it the oldest unbanned source
        goes, and when every live source is banned the detection is not scored. */
    method MakeRoom(ip: Ip, now: real) returns (ok: bool)
      requires Valid() && last == now
      modifies this`order, this`scores, this`blocked, this`nextCleanup, this`ledger
      ensures Valid() && BansKept(old(blocked), blocked, now)
      ensures ok ==> ip in scores || |scores.Keys| < cfg.capacity
      ensures Admitted(cfg, old(ledger), ledger, ip, now, ok)
    {
      if ip in scores || |scores.Keys| < cfg.capacity {
        TableHasRoom(cfg, order, scores, blocked, ledger, now, ip);
        return true;
      }
      Cleanup(now, true);
      if |scores.Keys| < cfg.capacity {
        return true;
      }
      var k := FirstFree();
      FirstIsOldest(cfg, order, scores, blocked, ledger, now, k);
      if k == |order| { return false; }
      Evict(order[k]);
      return true;
    }

    /** The scoring part of `record`, once the source may be tracked. */
    method Score(ip: Ip, weight: nat, now: real) returns (newly: bool)
      requires Valid() && last == now && weight >= 1
      requires ip in scores || |scores.Keys| < cfg.capacity
      requires ip in blocked ==> blocked[ip] > now
      modifies this`order, this`scores, this`blocked, this`ledger
      ensures Valid()
      ensures newly == IdsWindow.Record(cfg, At(old(ledger), ip), now, weight).newly
      ensures ledger == old(ledger)[ip := IdsWindow.Record(cfg, At(old(ledger), ip), now, weight).source]
      ensures newly ==> ip !in old(blocked)
      ensures blocked == if newly then old(blocked)[ip := now + cfg.period] else old(blocked)
    {
      assert TracksAt(cfg, scores, blocked, ledger, now, ip);
      var bucket := if ip in scores then scores[ip] else [];
      RecordTracks(cfg, Ban(blocked, ip), bucket, At(ledger, ip), now, now, weight);
      ghost var source := IdsWindow.Record(cfg, At(ledger, ip), now, weight).source;
      bucket := PopLapsed(bucket, Cutoff(cfg, now));
      bucket := AppendHits(bucket, now, weight, cfg.threshold);
      newly := |bucket| >= cfg.threshold && ip !in blocked;
      var bans := if newly then blocked[ip := now + cfg.period] else blocked;
      RecordHits(cfg, At(ledger, ip), now, weight);
      NewBanIsOwn(blocked, ip, now + cfg.period, newly);
      Enter(ip, bucket, bans, source);
    }

    /** Write back what scoring computed; the source becomes the most recent one. */
    method Enter(ip: Ip, bucket: seq<real>, bans: map<Ip, real>, ghost source: Source)
      requires Valid() && (ip in scores || |scores.Keys| < cfg.capacity)
      requires BansBut(bans, blocked, ip)
      requires Tracks(cfg, Ban(bans, ip), bucket, source, last)
      requires |source.hits| > 0 && source.hits[|source.hits| - 1] == last
      modifies this`order, this`scores, this`blocked, this`ledger
      ensures Valid() && blocked == bans && ledger == old(ledger)[ip := source]
    {
      var rest := Unlist(order, ip, scores.Keys, ledger);
      TableEnter(cfg, order, scores, blocked, ledger, last, ip, rest, bucket, bans, source);
      var order' := rest + [ip];
      var scores' := scores[ip := bucket];
      order, scores, blocked, ledger := order', scores', bans, ledger[ip := source];
      assert Mirrors(cfg, scores, blocked, ledger, last);
    }

    /** What `record` and `is_blocked` begin with. */
    method Refresh(ip: Ip, now: real)
      requires Valid() && last <= now
      modifies this`order, this`scores, this`blocked, this`nextCleanup, this`last
      ensures Valid() && last == now && BansKept(old(blocked), blocked, now)
      ensures ip in blocked ==> blocked[ip] > now
    {
      Tick(now);
      Cleanup(now, false);
      ghost var swept := blocked;
      ExpireSource(ip, now);
      BansKeptTransitive(old(blocked), swept, blocked, now);
    }

    /** `record`: no running ban is ever lost, and within capacity the verdict is the reference's. */
    method Record(ip: Ip, severity: Severity, now: real) returns (newly: bool)
      requires Valid() && last <= now
      modifies this
      ensures Valid() && last == now
      ensures RunningBansKept(old(blocked), blocked, now)
      ensures Outcome(cfg, old(ledger), ledger, ip, severity, now, newly)
    {
      Refresh(ip, now);
      ghost var bans := blocked;
      var ok := MakeRoom(ip, now);
      BansKeptTransitive(old(blocked), bans, blocked, now);
      ghost var l1 := ledger;
      newly := false;
      if ok { newly := Score(ip, Weight(severity), now); }
      assert Scores(cfg, l1, ledger, ip, severity, now, ok, newly);
    }

    /** `is_blocked`. */
    method IsBlocked(ip: Ip, now: real) returns (v: Verdict)
      requires Valid() && last <= now
      modifies this
      ensures Valid() && last == now && ledger == old(ledger)
      ensures BansKept(old(blocked), blocked, now)
      ensures v == StatusOf(At(ledger, ip).until, now)
    {
      Refresh(ip, now);
      assert TracksAt(cfg, scores, blocked, ledger, now, ip);
      if ip !in blocked { return Status(false, 0); }
      return StatusOf(Some(blocked[ip]), now);
    }

    /** `unblock`.  It does not read the clock: it reports a ban that has run out but was not swept yet as
        lifted, and is right about the ban exactly when there is no such leftover. */
    method Unblock(ip: Ip, ghost now: real) returns (was: bool)
      requires Valid() && last <= now
      modifies this
      ensures Valid() && last == now && ledger == old(ledger)[ip := Idle]
      ensures was == Banned(At(old(ledger), ip), now) <==> !(ip in old(blocked) && old(blocked[ip]) <= now)
    {
      Tick(now);
      assert TracksAt(cfg, scores, blocked, ledger, now, ip);
      was := ip in blocked;
      var rest := Unlist(order, ip, scores.Keys, ledger);
      TableForget(cfg, order, scores, blocked, ledger, now, ip, rest);
      order := rest;
      scores := scores - {ip};
      blocked := blocked - {ip};
      ledger := ledger[ip := Idle];
      assert Mirrors(cfg, scores, blocked, ledger, last);
    }
  }
}
