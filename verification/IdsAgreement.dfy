/** Both detection state machines of src/app/ids.py run against the unbounded reference, and so against
    each other. */
module IdsAgreement {
  import opened Prelude
  import opened IdsWindow
  import opened IdsMemory
  import opened IdsPersistent

  /** Within capacity the outcome of a detection is the reference's. */
  lemma OutcomeWithRoom(cfg: Config, l: Ledger, l': Ledger, ip: Ip, severity: Severity, now: real, newly: bool)
    requires Outcome(cfg, l, l', ip, severity, now, newly) && Room(cfg, l, ip, now)
    ensures NewBan(newly) == Answer(cfg, l, Hit(ip, severity, now)) && l' == After(cfg, l, Hit(ip, severity, now))
  {
  }

  lemma MonotoneRest(ops: seq<Op>, i: nat, start: real)
    requires Monotone(ops, start) && i < |ops|
    ensures start <= ops[i].now && forall k :: i < k < |ops| ==> ops[i].now <= ops[k].now
  {
  }

  /** The answers so far and the answers still due make up the reference's. */
  ghost predicate OnTrack(cfg: Config, ops: seq<Op>, i: nat, l: Ledger, vs: seq<Verdict>)
    requires i <= |ops|
  {
    WithinCapacity(cfg, map[], ops) ==>
      WithinCapacity(cfg, l, ops[i..]) && vs + Answers(cfg, l, ops[i..]) == Answers(cfg, map[], ops)
  }

  lemma OnTrackStep(cfg: Config, ops: seq<Op>, i: nat, l: Ledger, l': Ledger, vs: seq<Verdict>, v: Verdict)
    requires i < |ops| && OnTrack(cfg, ops, i, l, vs)
    requires (ops[i].Hit? ==> Room(cfg, l, ops[i].ip, ops[i].now)) ==>
      v == Answer(cfg, l, ops[i]) && l' == After(cfg, l, ops[i])
    ensures OnTrack(cfg, ops, i + 1, l', vs + [v])
  {
    assert ops[i..][0] == ops[i] && ops[i..][1..] == ops[i + 1..];
    Associative(vs, [v], Answers(cfg, l', ops[i + 1..]));
  }

  lemma OnTrackEnds(cfg: Config, ops: seq<Op>, l: Ledger, vs: seq<Verdict>)
    requires OnTrack(cfg, ops, |ops|, l, vs)
    ensures WithinCapacity(cfg, map[], ops) ==> vs == Answers(cfg, map[], ops)
  {
    assert vs + [] == vs;
  }

  /** The in-memory machine answers every trace within capacity as the unbounded reference does. */
  method ReplayMemory(cfg: Config, ops: seq<Op>, start: real) returns (vs: seq<Verdict>)
    requires cfg.Valid() && Monotone(ops, start)
    ensures WithinCapacity(cfg, map[], ops) ==> vs == Answers(cfg, map[], ops)
  {
    var m := new IntrusionState(cfg, start);
    vs := [];
    assert ops[0..] == ops;
    for i := 0 to |ops|
      invariant m.Valid() && m.cfg == cfg && fresh(m) && OnTrack(cfg, ops, i, m.ledger, vs)
      invariant forall k :: i <= k < |ops| ==> m.last <= ops[k].now
    {
      ghost var l := m.ledger;
      var v := PlayMemory(m, ops[i]);
      OnTrackStep(cfg, ops, i, l, m.ledger, vs, v);
      MonotoneRest(ops, i, start);
      vs := vs + [v];
    }
    OnTrackEnds(cfg, ops, m.ledger, vs);
  }

  method PlayMemory(m: IntrusionState, op: Op) returns (v: Verdict)
    requires m.Valid() && m.last <= op.now
    modifies m
    ensures m.Valid() && m.last == op.now
    ensures (op.Hit? ==> Room(m.cfg, old(m.ledger), op.ip, op.now)) ==>
      v == Answer(m.cfg, old(m.ledger), op) && m.ledger == After(m.cfg, old(m.ledger), op)
  {
    match op
    case Hit(ip, severity, now) =>
      ghost var l := m.ledger;
      var newly := m.Record(ip, severity, now);
      if Room(m.cfg, l, ip, now) { OutcomeWithRoom(m.cfg, l, m.ledger, ip, severity, now, newly); }
      return NewBan(newly);
    case Query(ip, now) =>
      v := m.IsBlocked(ip, now);
    case Clear(ip, now) =>
      var _ := m.Unblock(ip, now);
      return Cleared;
  }

  /** So does the database-backed machine. */
  method ReplayPersistent(cfg: Config, ops: seq<Op>, start: real) returns (vs: seq<Verdict>)
    requires cfg.Valid() && Monotone(ops, start)
    ensures WithinCapacity(cfg, map[], ops) ==> vs == Answers(cfg, map[], ops)
  {
    var m := new PersistentIntrusionState(cfg, start);
    vs := [];
    assert ops[0..] == ops;
    for i := 0 to |ops|
      invariant m.Valid() && m.cfg == cfg && fresh(m) && OnTrack(cfg, ops, i, m.ledger, vs)
      invariant forall k :: i <= k < |ops| ==> m.last <= ops[k].now
    {
      ghost var l := m.ledger;
      var v := PlayPersistent(m, ops[i]);
      OnTrackStep(cfg, ops, i, l, m.ledger, vs, v);
      MonotoneRest(ops, i, start);
      vs := vs + [v];
    }
    OnTrackEnds(cfg, ops, m.ledger, vs);
  }

  method PlayPersistent(m: PersistentIntrusionState, op: Op) returns (v: Verdict)
    requires m.Valid() && m.last <= op.now
    modifies m
    ensures m.Valid() && m.last <= op.now
    ensures (op.Hit? ==> Room(m.cfg, old(m.ledger), op.ip, op.now)) ==>
      v == Answer(m.cfg, old(m.ledger), op) && m.ledger == After(m.cfg, old(m.ledger), op)
  {
    match op
    case Hit(ip, severity, now) =>
      ghost var l := m.ledger;
      var newly := m.Record(ip, severity, now);
      if Room(m.cfg, l, ip, now) { OutcomeWithRoom(m.cfg, l, m.ledger, ip, severity, now, newly); }
      return NewBan(newly);
    case Query(ip, now) =>
      v := m.IsBlocked(ip, now);
    case Clear(ip, now) =>
      var _ := m.Unblock(ip, now);
      return Cleared;
  }

  /** On one shared clock, within capacity, the two machines give the same verdicts. */
  method ReplayBoth(cfg: Config, ops: seq<Op>, start: real) returns (memory: seq<Verdict>, database: seq<Verdict>)
    requires cfg.Valid() && Monotone(ops, start)
    ensures WithinCapacity(cfg, map[], ops) ==> memory == database
  {
    memory := ReplayMemory(cfg, ops, start);
    database := ReplayPersistent(cfg, ops, start);
  }

  /** The result of `unblock` is where they differ: one detection bans source 7 until time 10, and lifting the
      ban at that very time is reported by one machine and not by the other. */
  method UnblockDiffers() returns (memory: bool, database: bool)
    ensures memory && !database
  {
    var cfg := Config(1, 10.0, 5);
    ghost var none: Ledger := map[];
    assert Room(cfg, none, 7, 0.0) by { assert LiveSet(cfg, none, 0.0) == {}; }
    var m := new IntrusionState(cfg, 0.0);
    var one := m.Record(7, Low, 0.0);
    OutcomeWithRoom(cfg, none, m.ledger, 7, Low, 0.0, one);
    HitBans(cfg, 0.0);
    assert TracksAt(cfg, m.scores, m.blocked, m.ledger, 0.0, 7);
    memory := m.Unblock(7, 10.0);
    var d := new PersistentIntrusionState(cfg, 0.0);
    var two := d.Record(7, Low, 0.0);
    OutcomeWithRoom(cfg, none, d.ledger, 7, Low, 0.0, two);
    database := d.Unblock(7, 10.0);
  }

  /** With threshold one the first hit bans. */
  lemma HitBans(cfg: Config, now: real)
    requires cfg.Valid() && cfg.threshold == 1
    ensures Record(cfg, Idle, now, 1).source.until == Some(now + cfg.period)
  {
    assert Idle.hits + Repeat(now, 1) == [now];
    OneHitWeighs(now, Cutoff(cfg, now));
  }

  lemma OneHitWeighs(now: real, c: real)
    requires now > c
    ensures WeightAfter([now], c) == 1
  {
    assert [now][..0] == [];
  }
}
