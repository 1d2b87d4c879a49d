/** Externally anchored checkpoints of src/app/audit_checkpoint.py. */
module AuditCheckpoint {
  import opened Prelude
  import opened CanonicalJson
  import opened AuditChain

  datatype Checkpoint = Checkpoint(
    id: string, eventId: nat, root: string, signature: string, createdAt: string, delivered: bool)

  /** Foreign functions: HMAC under the checkpoint key and the name-based UUID of an event. */
  datatype Keys = Keys(sign: string -> string, uuid5: (nat, string) -> string)

  /** The two tables.  Events by id; checkpoints by the event they anchor (a unique column). */
  datatype Tables = Tables(events: map<nat, Event>, checkpoints: map<nat, Checkpoint>)

  /** What was sent to the WORM sink: idempotency key, payload and signature. */
  datatype Delivery = Delivery(key: string, payload: string, signature: string)

  datatype Settings = Settings(endpoint: bool, interval: nat, maxUnanchored: nat)

  predicate ValidFields(eventId: nat, root: string) { eventId >= 1 && ValidDigest(root) }

  /** `canonical_checkpoint`. */
  function Payload(id: string, eventId: nat, root: string, createdAt: string): string {
    Print(Obj(Field("checkpoint_id", Str(id), Field("created_at", Str(createdAt),
      Field("format", Str("scap-audit-checkpoint-v1"),
      Field("last_event_id", Int(eventId), Field("root_hash", Str(root), NoFields)))))))
  }

  /** A signed payload fixes all four fields. */
  lemma PayloadIsInjective(a: Checkpoint, b: Checkpoint)
    requires Payload(a.id, a.eventId, a.root, a.createdAt) == Payload(b.id, b.eventId, b.root, b.createdAt)
    ensures a.id == b.id && a.eventId == b.eventId && a.root == b.root && a.createdAt == b.createdAt
  {
    var f := (c: Checkpoint) => Obj(Field("checkpoint_id", Str(c.id), Field("created_at", Str(c.createdAt),
      Field("format", Str("scap-audit-checkpoint-v1"), Field("last_event_id", Int(c.eventId),
        Field("root_hash", Str(c.root), NoFields))))));
    PrintIsInjective(f(a), f(b));
  }

  datatype Fault = EventMissing | RootMismatch | FieldsInvalid | SignatureMismatch

  /** `_integrity_reason`, in the order of its checks. */
  function IntegrityReason(k: Keys, c: Checkpoint, event: Option<Event>): Option<Fault> {
    if event.None? then Some(EventMissing)
    else if !ValidDigest(c.root) then Some(RootMismatch)
    else if !ValidFields(c.eventId, c.root) then Some(FieldsInvalid)
    else if !ValidDigest(c.signature) || c.signature != k.sign(Payload(c.id, c.eventId, c.root, c.createdAt))
    then Some(SignatureMismatch)
    else if event.value.hash.None? || !ValidDigest(event.value.hash.value) || event.value.hash.value != c.root
    then Some(RootMismatch)
    else None
  }

  function EventAt(t: Tables, id: nat): Option<Event> { if id in t.events then Some(t.events[id]) else None }

  function ReasonAt(k: Keys, t: Tables, id: nat): Option<Fault>
    requires id in t.checkpoints
  {
    IntegrityReason(k, t.checkpoints[id], EventAt(t, id))
  }

  predicate Damaged(k: Keys, t: Tables) { exists id :: id in t.checkpoints && ReasonAt(k, t, id).Some? }

  predicate IsMax(s: set<nat>, m: nat) { m in s && forall x :: x in s ==> x <= m }

  /** The largest key of a table. */
  function MaxKey(s: set<nat>): (m: nat)
    requires s != {}
    ensures m in s && forall x :: x in s ==> x <= m
  {
    MaxExists(s);
    var m :| m in s && forall x :: x in s ==> x <= m;
    m
  }

  lemma {:induction false} MaxExists(s: set<nat>)
    requires s != {}
    ensures exists m :: IsMax(s, m)
    decreases |s|
  {
    var a :| a in s;
    var rest := s - {a};
    if rest == {} {
      assert s == {a};
      assert IsMax(s, a);
    } else {
      MaxExists(rest);
      var m :| IsMax(rest, m);
      assert forall x :: x in s ==> x in rest || x == a;
      if m < a { assert IsMax(s, a); } else { assert IsMax(s, m); }
    }
  }

  datatype Verification = Verification(
    present: bool, intact: bool, delivered: bool, lastEvent: Option<nat>, latestEvent: Option<nat>,
    unanchored: nat, recent: bool, fullyAnchored: bool)

  function Unanchored(t: Tables, after: nat): nat { |set id | id in t.events && id > after| }

  /** `verify_latest`: the newest checkpoint first, then every older retained one. */
  function VerifyLatest(k: Keys, s: Settings, t: Tables): Verification {
    var latest := if t.events.Keys == {} then None else Some(MaxKey(t.events.Keys));
    if t.checkpoints.Keys == {} then Verification(false, false, false, None, latest, |t.events|, false, false)
    else
      var last := MaxKey(t.checkpoints.Keys);
      var n := Unanchored(t, last);
      var delivered := t.checkpoints[last].delivered;
      if ReasonAt(k, t, last).Some? then Verification(true, false, delivered, Some(last), latest, n, false, false)
      else if exists id :: id in t.checkpoints && id < last && ReasonAt(k, t, id).Some?
      then Verification(true, false, delivered, Some(last), latest, n, false, false)
      else Verification(true, true, delivered, Some(last), latest, n, n <= s.maxUnanchored, delivered && n == 0)
  }

  /** Verification is intact exactly when there is a checkpoint and none is damaged. */
  lemma IntactMeansUndamaged(k: Keys, s: Settings, t: Tables)
    ensures VerifyLatest(k, s, t).intact <==> t.checkpoints.Keys != {} && !Damaged(k, t)
  {
    if t.checkpoints.Keys != {} && Damaged(k, t) {
      var id :| id in t.checkpoints && ReasonAt(k, t, id).Some?;
      assert id in t.checkpoints.Keys;
      var last := MaxKey(t.checkpoints.Keys);
      assert id <= last;
    }
  }

  /** `fully_anchored` means the newest event is the anchored one, with exactly the signed digest. */
  lemma FullyAnchoredCoversEverything(k: Keys, s: Settings, t: Tables)
    requires VerifyLatest(k, s, t).fullyAnchored
    ensures var v := VerifyLatest(k, s, t);
      && v.lastEvent.Some? && v.latestEvent == v.lastEvent && v.lastEvent.value in t.events
      && t.events[v.lastEvent.value].hash == Some(t.checkpoints[v.lastEvent.value].root)
  {
    var last := MaxKey(t.checkpoints.Keys);
    var beyond := set id | id in t.events && id > last;
    assert beyond == {};
    assert last in t.events;
    forall id | id in t.events ensures id <= last { assert id !in beyond; }
  }

  /** The time a checkpoint is dated: the event's own, or the worker's clock where the event has none. */
  function DateOf(event: Event, now: string): string {
    if event.entry.createdAt == "" then now else event.entry.createdAt
  }

  /** The checkpoint a worker whose clock reads `now` builds for an event. */
  function CheckpointFor(k: Keys, event: Event, hash: string, delivered: bool, now: string): Checkpoint {
    var id, date := k.uuid5(event.id, hash), DateOf(event, now);
    Checkpoint(id, event.id, hash, k.sign(Payload(id, event.id, hash, date)), date, delivered)
  }

  /** Two workers deliver the same document for one sealed event exactly if the event carries its time, or they
      read the same clock value. */
  lemma WorkersAgree(k: Keys, event: Event, hash: string, a: bool, b: bool, now: string, now': string)
    ensures Sent(CheckpointFor(k, event, hash, a, now)) == Sent(CheckpointFor(k, event, hash, b, now'))
        <==> event.entry.createdAt != "" || now == now'
  {
    var c, d := CheckpointFor(k, event, hash, a, now), CheckpointFor(k, event, hash, b, now');
    if Sent(c) == Sent(d) { PayloadIsInjective(c, d); }
  }

  function Sent(c: Checkpoint): Delivery { Delivery(c.id, Payload(c.id, c.eventId, c.root, c.createdAt), c.signature) }

  datatype Outcome = Nothing | Anchored(checkpoint: Checkpoint) | SinkFailed | IntegrityError | PersistFailed

  /** The tables, and everything the sink has received. */
  datatype World = World(tables: Tables, sink: seq<Delivery>)

  /** The clock, and what may go wrong around one anchoring: the sink may be down, and another worker may
      deliver and insert its own row between our check and our commit. */
  datatype Weather = Weather(now: string, sinkUp: bool, rival: Option<Checkpoint>, commitFails: bool)

  function RivalDelivery(s: Settings, rival: Option<Checkpoint>): seq<Delivery> {
    if s.endpoint && rival.Some? && rival.value.delivered then [Sent(rival.value)] else []
  }

  function WithRival(t: Tables, rival: Option<Checkpoint>): Tables {
    if rival.Some? && rival.value.eventId !in t.checkpoints
    then t.(checkpoints := t.checkpoints[rival.value.eventId := rival.value]) else t
  }

  /** The insert, and the recovery when another worker was faster: only an exact, delivered match counts. */
  function Commit(t: Tables, c: Checkpoint, s: Settings, w: Weather): (Tables, Outcome) {
    var t1 := WithRival(t, w.rival);
    if w.commitFails then (t1, PersistFailed)
    else if c.eventId !in t1.checkpoints then (t1.(checkpoints := t1.checkpoints[c.eventId := c]), Anchored(c))
    else
      var other := t1.checkpoints[c.eventId];
      if other.id == c.id && other.root == c.root && other.signature == c.signature && (!s.endpoint || other.delivered)
      then (t1, Anchored(other)) else (t1, PersistFailed)
  }

  /** `_anchor`. */
  function Anchor(k: Keys, s: Settings, x: World, w: Weather): (World, Outcome) {
    var v := VerifyLatest(k, s, x.tables);
    if v.present && !v.intact then (x, IntegrityError)
    else if v.latestEvent.None? then (x, Nothing)
    else
      var event := x.tables.events[MaxKey(x.tables.events.Keys)];
      if event.hash.None? || event.hash.value == "" then (x, Nothing)
      else if !ValidDigest(event.hash.value) then (x, IntegrityError)
      else if event.id in x.tables.checkpoints then (x, Anchored(x.tables.checkpoints[event.id]))
      else if s.endpoint && !w.sinkUp then (x, SinkFailed)
      else
        var c := CheckpointFor(k, event, event.hash.value, s.endpoint, w.now);
        var sink := (if s.endpoint then x.sink + [Sent(c)] else x.sink) + RivalDelivery(s, w.rival);
        var (t, outcome) := Commit(x.tables, c, s, w);
        (World(t, sink), outcome)
  }

  /** `maybe_anchor`: only every `interval` events. */
  function MaybeAnchor(k: Keys, s: Settings, x: World, eventId: nat, w: Weather): (World, Outcome) {
    var last := if x.tables.checkpoints.Keys == {} then 0 else MaxKey(x.tables.checkpoints.Keys);
    if eventId - last < s.interval then (x, Nothing) else Anchor(k, s, x, w)
  }

  /** `ensure_latest_anchored`, with the back-off and probe clocks as parameters. */
  function EnsureLatest(k: Keys, s: Settings, x: World, probe: bool, backoff: bool, due: bool, w: Weather,
                        probeUp: bool)
    : (World, Outcome)
  {
    if probe && s.endpoint && backoff then (x, SinkFailed)
    else
      var v := VerifyLatest(k, s, x.tables);
      if v.latestEvent.None? then (x, Nothing)
      else
        var (y, outcome) := if v.fullyAnchored then (x, Nothing) else Anchor(k, s, x, w);
        if outcome.SinkFailed? || outcome.IntegrityError? || outcome.PersistFailed? then (y, outcome)
        else
          var v' := VerifyLatest(k, s, y.tables);
          if probe && s.endpoint && v'.fullyAnchored && due then
            if !probeUp then (y, SinkFailed)
            else (y.(sink := y.sink + [Sent(y.tables.checkpoints[MaxKey(y.tables.checkpoints.Keys)])]), outcome)
          else (y, outcome)
  }

  /** The service over its two tables and its sink, updated in place. */
  class AuditCheckpointService {
    const keys: Keys
    const settings: Settings
    var tables: Tables
    var sink: seq<Delivery>

    constructor (keys: Keys, settings: Settings, tables: Tables)
      ensures this.keys == keys && this.settings == settings && Now() == World(tables, [])
    {
      this.keys, this.settings, this.tables, this.sink := keys, settings, tables, [];
    }

    function Now(): World
      reads this
    {
      World(tables, sink)
    }

    method Deliver(c: Checkpoint, up: bool) returns (ok: bool)
      modifies this`sink
      ensures ok == up && sink == if up then old(sink) + [Sent(c)] else old(sink)
    {
      ok := up;
      if up { sink := sink + [Sent(c)]; }
    }

    method AnchorTail(w: Weather) returns (outcome: Outcome)
      modifies this
      ensures (Now(), outcome) == Anchor(keys, settings, old(Now()), w)
    {
      var v := VerifyLatest(keys, settings, tables);
      if v.present && !v.intact { return IntegrityError; }
      if tables.events.Keys == {} { return Nothing; }
      var event := tables.events[MaxKey(tables.events.Keys)];
      if event.hash.None? || event.hash.value == "" { return Nothing; }
      if !ValidDigest(event.hash.value) { return IntegrityError; }
      if event.id in tables.checkpoints { return Anchored(tables.checkpoints[event.id]); }
      var c := CheckpointFor(keys, event, event.hash.value, settings.endpoint, w.now);
      if settings.endpoint {
        var ok := Deliver(c, w.sinkUp);
        if !ok { return SinkFailed; }
      }
      sink := sink + RivalDelivery(settings, w.rival);
      tables := WithRival(tables, w.rival);
      if w.commitFails { return PersistFailed; }
      if c.eventId !in tables.checkpoints {
        tables := tables.(checkpoints := tables.checkpoints[c.eventId := c]);
        return Anchored(c);
      }
      var other := tables.checkpoints[c.eventId];
      if other.id == c.id && other.root == c.root && other.signature == c.signature
         && (!settings.endpoint || other.delivered) {
        return Anchored(other);
      }
      return PersistFailed;
    }

    method Ensure(probe: bool, backoff: bool, due: bool, w: Weather, probeUp: bool) returns (outcome: Outcome)
      modifies this
      ensures (Now(), outcome) == EnsureLatest(keys, settings, old(Now()), probe, backoff, due, w, probeUp)
    {
      if probe && settings.endpoint && backoff { return SinkFailed; }
      var v := VerifyLatest(keys, settings, tables);
      if v.latestEvent.None? { return Nothing; }
      outcome := Nothing;
      if !v.fullyAnchored {
        outcome := AnchorTail(w);
        if outcome.SinkFailed? || outcome.IntegrityError? || outcome.PersistFailed? { return; }
        v := VerifyLatest(keys, settings, tables);
      }
      if probe && settings.endpoint && v.fullyAnchored && due {
        var ok := Deliver(tables.checkpoints[MaxKey(tables.checkpoints.Keys)], probeUp);
        if !ok { outcome := SinkFailed; }
      }
    }
  }

  // ---------------------------------------------------------------- damage is absorbing

  /** What may happen to a deployment: anchoring by any path, and new audit events. */
  datatype Step =
    | DoAnchor(weather: Weather)
    | DoMaybe(eventId: nat, weather: Weather)
    | DoEnsure(probe: bool, backoff: bool, due: bool, weather: Weather, probeUp: bool)
    | NewEvent(event: Event)

  function Perform(k: Keys, s: Settings, x: World, step: Step): World {
    match step
    case DoAnchor(w) => Anchor(k, s, x, w).0
    case DoMaybe(id, w) => MaybeAnchor(k, s, x, id, w).0
    case DoEnsure(probe, backoff, due, w, up) => EnsureLatest(k, s, x, probe, backoff, due, w, up).0
    case NewEvent(e) =>
      if e.id in x.tables.events then x
      else x.(tables := x.tables.(events := x.tables.events[e.id := e]))
  }

  function PerformAll(k: Keys, s: Settings, x: World, steps: seq<Step>): World
    decreases |steps|
  {
    if |steps| == 0 then x else PerformAll(k, s, Perform(k, s, x, steps[0]), steps[1..])
  }

  /** A new row that takes the id of a lost anchored event and carries the anchored digest. */
  predicate Restores(k: Keys, t: Tables, step: Step) {
    && step.NewEvent? && step.event.id !in t.events && step.event.id in t.checkpoints
    && IntegrityReason(k, t.checkpoints[step.event.id], Some(step.event)).None?
  }

  /** No path inserts or delivers anything while any retained checkpoint is damaged, and the damage stays
      unless a lost event is put back. */
  lemma DamageStopsAnchoring(k: Keys, s: Settings, x: World, step: Step)
    requires Damaged(k, x.tables)
    ensures var y := Perform(k, s, x, step);
      && y.tables.checkpoints == x.tables.checkpoints && y.sink == x.sink
      && (!Restores(k, x.tables, step) ==> Damaged(k, y.tables))
  {
    IntactMeansUndamaged(k, s, x.tables);
    var id :| id in x.tables.checkpoints && ReasonAt(k, x.tables, id).Some?;
    assert VerifyLatest(k, s, x.tables).present;
    var y := Perform(k, s, x, step);
    if step.NewEvent? && y != x && !Restores(k, x.tables, step) {
      if id == step.event.id {
        assert EventAt(y.tables, id) == Some(step.event);
      } else {
        assert EventAt(y.tables, id) == EventAt(x.tables, id);
      }
      assert ReasonAt(k, y.tables, id).Some?;
    }
  }

  /** ... and that stays so for ever: damage is an absorbing state, for every run that puts no lost event back. */
  lemma {:induction false} DamageIsAbsorbing(k: Keys, s: Settings, x: World, steps: seq<Step>)
    requires Damaged(k, x.tables)
    requires forall step :: step in steps && step.NewEvent? && step.event.id in x.tables.checkpoints ==>
      IntegrityReason(k, x.tables.checkpoints[step.event.id], Some(step.event)).Some?
    ensures var y := PerformAll(k, s, x, steps);
      y.tables.checkpoints == x.tables.checkpoints && y.sink == x.sink && Damaged(k, y.tables)
    decreases |steps|
  {
    if |steps| > 0 {
      assert steps[0] in steps;
      DamageStopsAnchoring(k, s, x, steps[0]);
      DamageIsAbsorbing(k, s, Perform(k, s, x, steps[0]), steps[1..]);
    }
  }

  // ---------------------------------------------------------------- honest anchoring

  predicate RowsKeyed(t: Tables) { forall id :: id in t.events ==> t.events[id].id == id && id >= 1 }

  /** A rival is another worker of the same deployment: it anchors some sealed event of the table, by its own clock. */
  ghost predicate HonestRival(k: Keys, t: Tables, rival: Option<Checkpoint>) {
    rival.Some? ==> exists id, now :: RowFor(k, t, id, now, rival.value)
  }

  predicate RowFor(k: Keys, t: Tables, id: nat, now: string, c: Checkpoint) {
    && id in t.events && t.events[id].hash.Some? && ValidDigest(t.events[id].hash.value)
    && c == CheckpointFor(k, t.events[id], t.events[id].hash.value, c.delivered, now)
  }

  /** A row built for a sealed event of the table is in order. */
  lemma BuiltRowIsSound(k: Keys, event: Event, d: bool, now: string)
    requires event.hash.Some? && ValidDigest(event.hash.value) && event.id >= 1 && forall m :: ValidDigest(k.sign(m))
    ensures IntegrityReason(k, CheckpointFor(k, event, event.hash.value, d, now), Some(event)).None?
  {
  }

  /** Adding a sound row adds no damage. */
  lemma SoundRowIsHarmless(k: Keys, t: Tables, id: nat, c: Checkpoint)
    requires !Damaged(k, t) && IntegrityReason(k, c, EventAt(t, id)).None?
    ensures !Damaged(k, t.(checkpoints := t.checkpoints[id := c]))
  {
    var t' := t.(checkpoints := t.checkpoints[id := c]);
    forall x | x in t'.checkpoints ensures ReasonAt(k, t', x).None? {
      if x != id { assert x in t.checkpoints && ReasonAt(k, t, x).None?; }
    }
  }

  lemma RivalIsHarmless(k: Keys, t: Tables, rival: Option<Checkpoint>)
    requires RowsKeyed(t) && !Damaged(k, t) && HonestRival(k, t, rival) && forall m :: ValidDigest(k.sign(m))
    ensures !Damaged(k, WithRival(t, rival)) && WithRival(t, rival).events == t.events
  {
    if rival.Some? {
      var id, now :| RowFor(k, t, id, now, rival.value);
      BuiltRowIsSound(k, t.events[id], rival.value.delivered, now);
      SoundRowIsHarmless(k, t, id, rival.value);
    }
  }

  /** The insert with its recovery adds no damage. */
  lemma CommitIsHarmless(k: Keys, s: Settings, t: Tables, event: Event, w: Weather)
    requires RowsKeyed(t) && !Damaged(k, t) && HonestRival(k, t, w.rival) && forall m :: ValidDigest(k.sign(m))
    requires event.id in t.events && t.events[event.id] == event && event.hash.Some? && ValidDigest(event.hash.value)
    ensures var c := CheckpointFor(k, event, event.hash.value, s.endpoint, w.now);
      var (t', outcome) := Commit(t, c, s, w);
      && !Damaged(k, t') && t'.events == t.events
      && (outcome.Anchored? ==> event.id in t'.checkpoints && t'.checkpoints[event.id] == outcome.checkpoint)
  {
    var c := CheckpointFor(k, event, event.hash.value, s.endpoint, w.now);
    var t1 := WithRival(t, w.rival);
    RivalIsHarmless(k, t, w.rival);
    BuiltRowIsSound(k, event, s.endpoint, w.now);
    SoundRowIsHarmless(k, t1, event.id, c);
  }

  /** Anchoring an undamaged deployment never creates damage of its own, whatever another worker does meanwhile. */
  lemma AnchoringKeepsIntact(k: Keys, s: Settings, x: World, w: Weather)
    requires RowsKeyed(x.tables) && !Damaged(k, x.tables) && HonestRival(k, x.tables, w.rival)
    requires forall m :: ValidDigest(k.sign(m))
    ensures var (y, outcome) := Anchor(k, s, x, w);
      && !Damaged(k, y.tables) && y.tables.events == x.tables.events
      && (outcome.Anchored? && outcome.checkpoint.delivered ==> VerifyLatest(k, s, y.tables).fullyAnchored)
  {
    var (y, outcome) := Anchor(k, s, x, w);
    IntactMeansUndamaged(k, s, x.tables);
    if x.tables.events.Keys != {} {
      var tail := MaxKey(x.tables.events.Keys);
      var event := x.tables.events[tail];
      if event.hash.Some? && ValidDigest(event.hash.value) { CommitIsHarmless(k, s, x.tables, event, w); }
      if outcome.Anchored? && outcome.checkpoint.delivered { AnchoredAtTail(k, s, y.tables, tail, outcome.checkpoint); }
    }
  }

  /** With a delivered checkpoint for its newest event and no damage, a deployment is fully anchored. */
  lemma AnchoredAtTail(k: Keys, s: Settings, t: Tables, tail: nat, c: Checkpoint)
    requires t.events.Keys != {} && tail == MaxKey(t.events.Keys) && !Damaged(k, t)
    requires tail in t.checkpoints && t.checkpoints[tail] == c && c.delivered
    ensures VerifyLatest(k, s, t).fullyAnchored
  {
    var last := MaxKey(t.checkpoints.Keys);
    assert last in t.checkpoints && ReasonAt(k, t, last).None?;
    assert last in t.events.Keys && tail in t.checkpoints.Keys;
    var beyond := set id | id in t.events && id > last;
    forall id | id in t.events ensures id <= last { assert id in t.events.Keys; }
    assert beyond == {};
    IntactMeansUndamaged(k, s, t);
  }

  // ---------------------------------------------------------------- the race for one tail

  /** The newest event is sealed and has no checkpoint yet, and the sink can be reached if there is one. */
  predicate ReadyToAnchor(k: Keys, s: Settings, x: World, w: Weather) {
    && RowsKeyed(x.tables) && !Damaged(k, x.tables) && x.tables.events.Keys != {}
    && (s.endpoint ==> w.sinkUp) && !w.commitFails
    && var event := x.tables.events[MaxKey(x.tables.events.Keys)];
       event.hash.Some? && ValidDigest(event.hash.value) && event.id !in x.tables.checkpoints
  }

  /** Different documents do not share a signature. */
  predicate Distinguished(k: Keys, a: Checkpoint, b: Checkpoint) { a.signature == b.signature ==> Sent(a) == Sent(b) }

  /** Losing the race to a worker that anchored the same tail is a success with that worker's row exactly if both date
      the row alike, that is if the event carries its time or the clocks read the same; otherwise it is reported as an
      error, and in neither case is anything damaged. */
  lemma LostRaceIsSuccessIff(k: Keys, s: Settings, x: World, w: Weather, now': string)
    requires ReadyToAnchor(k, s, x, w) && (forall m :: ValidDigest(k.sign(m)))
    requires var event := x.tables.events[MaxKey(x.tables.events.Keys)];
      var mine, other := CheckpointFor(k, event, event.hash.value, s.endpoint, w.now),
                         CheckpointFor(k, event, event.hash.value, s.endpoint, now');
      w.rival == Some(other) && Distinguished(k, mine, other)
    ensures var event := x.tables.events[MaxKey(x.tables.events.Keys)];
      var (y, outcome) := Anchor(k, s, x, w);
      && !Damaged(k, y.tables)
      && event.id in y.tables.checkpoints && y.tables.checkpoints[event.id] == w.rival.value
      && outcome == if event.entry.createdAt != "" || w.now == now' then Anchored(w.rival.value) else PersistFailed
  {
    var event := x.tables.events[MaxKey(x.tables.events.Keys)];
    assert event.id == MaxKey(x.tables.events.Keys);
    AnchorReaches(k, s, x, w);
    assert RowFor(k, x.tables, event.id, now', w.rival.value);
    CommitIsHarmless(k, s, x.tables, event, w);
    WorkersAgree(k, event, event.hash.value, s.endpoint, s.endpoint, w.now, now');
  }

  /** Past its checks, anchoring delivers and commits. */
  lemma AnchorReaches(k: Keys, s: Settings, x: World, w: Weather)
    requires ReadyToAnchor(k, s, x, w)
    ensures var event := x.tables.events[MaxKey(x.tables.events.Keys)];
      var c := CheckpointFor(k, event, event.hash.value, s.endpoint, w.now);
      var (y, outcome) := Anchor(k, s, x, w);
      && y.tables == Commit(x.tables, c, s, w).0 && outcome == Commit(x.tables, c, s, w).1
      && y.sink == (if s.endpoint then x.sink + [Sent(c)] else x.sink) + RivalDelivery(s, w.rival)
  {
    IntactMeansUndamaged(k, s, x.tables);
  }

  // ---------------------------------------------------------------- catching up

  /** The sink is up, the newest event is sealed, nothing is damaged, and no other worker stores an undelivered row
      for that event meanwhile. */
  ghost predicate CanCatchUp(k: Keys, s: Settings, x: World, w: Weather) {
    && RowsKeyed(x.tables) && !Damaged(k, x.tables) && x.tables.events.Keys != {}
    && s.endpoint && w.sinkUp && !w.commitFails && HonestRival(k, x.tables, w.rival)
    && var event := x.tables.events[MaxKey(x.tables.events.Keys)];
       && event.hash.Some? && ValidDigest(event.hash.value)
       && (w.rival.Some? && w.rival.value.eventId == event.id ==> w.rival.value.delivered)
  }

  /** After an anchoring that could catch up, the newest event has a row: the one it had, or a delivered one. */
  lemma CaughtUpRow(k: Keys, s: Settings, x: World, w: Weather)
    requires CanCatchUp(k, s, x, w) && forall m :: ValidDigest(k.sign(m))
    ensures var tail := MaxKey(x.tables.events.Keys);
      var y := Anchor(k, s, x, w).0;
      && y.tables.events == x.tables.events && !Damaged(k, y.tables) && tail in y.tables.checkpoints
      && (y.tables.checkpoints[tail].delivered <==>
            tail !in x.tables.checkpoints || x.tables.checkpoints[tail].delivered)
  {
    var tail := MaxKey(x.tables.events.Keys);
    IntactMeansUndamaged(k, s, x.tables);
    AnchoringKeepsIntact(k, s, x, w);
    if tail !in x.tables.checkpoints {
      AnchorReaches(k, s, x, w);
      assert x.tables.events[tail].id == tail;
    }
  }

  /** Without damage, a deployment whose newest event has a row is fully anchored exactly if that row was delivered. */
  lemma TailDecides(k: Keys, s: Settings, t: Tables, tail: nat)
    requires t.events.Keys != {} && tail == MaxKey(t.events.Keys) && !Damaged(k, t) && tail in t.checkpoints
    ensures VerifyLatest(k, s, t).fullyAnchored <==> t.checkpoints[tail].delivered
  {
    var last := MaxKey(t.checkpoints.Keys);
    assert last in t.checkpoints && ReasonAt(k, t, last).None?;
    assert last in t.events.Keys && tail in t.checkpoints.Keys;
    assert last == tail;
    if t.checkpoints[tail].delivered { AnchoredAtTail(k, s, t, tail, t.checkpoints[tail]); }
  }

  /** Catching up ends fully anchored exactly if the newest event had no checkpoint yet or a delivered one: a row that
      was stored without delivery is found and kept as it is. */
  lemma CatchUpAnchorsIff(k: Keys, s: Settings, x: World, probe: bool, due: bool, w: Weather, probeUp: bool)
    requires CanCatchUp(k, s, x, w) && forall m :: ValidDigest(k.sign(m))
    ensures var tail := MaxKey(x.tables.events.Keys);
      VerifyLatest(k, s, EnsureLatest(k, s, x, probe, false, due, w, probeUp).0.tables).fullyAnchored
      <==> tail !in x.tables.checkpoints || x.tables.checkpoints[tail].delivered
  {
    var tail := MaxKey(x.tables.events.Keys);
    var v := VerifyLatest(k, s, x.tables);
    var y := EnsureLatest(k, s, x, probe, false, due, w, probeUp).0;
    if v.fullyAnchored {
      FullyAnchoredCoversEverything(k, s, x.tables);
      assert y.tables == x.tables;
    } else {
      CaughtUpRow(k, s, x, w);
      TailDecides(k, s, Anchor(k, s, x, w).0.tables, tail);
      assert y.tables == Anchor(k, s, x, w).0.tables;
      if tail in x.tables.checkpoints { TailDecides(k, s, x.tables, tail); }
    }
  }

  /** One sealed event whose row was stored while no endpoint was configured: catching up changes nothing, whatever
      the weather, and the deployment is not fully anchored. */
  lemma UndeliveredTailStays(k: Keys, s: Settings, event: Event, probe: bool, backoff: bool, due: bool, w: Weather,
                             probeUp: bool)
    requires event.id >= 1 && event.hash.Some? && ValidDigest(event.hash.value) && (forall m :: ValidDigest(k.sign(m)))
    ensures var row := CheckpointFor(k, event, event.hash.value, false, w.now);
      var x := World(Tables(map[event.id := event], map[event.id := row]), []);
      EnsureLatest(k, s, x, probe, backoff, due, w, probeUp).0 == x && !VerifyLatest(k, s, x.tables).fullyAnchored
  {
    var row := CheckpointFor(k, event, event.hash.value, false, w.now);
    var t := Tables(map[event.id := event], map[event.id := row]);
    BuiltRowIsSound(k, event, false, w.now);
    assert t.events.Keys == {event.id} && t.checkpoints.Keys == {event.id};
    assert ReasonAt(k, t, event.id).None?;
    TailDecides(k, s, t, event.id);
    IntactMeansUndamaged(k, s, t);
  }

  // ---------------------------------------------------------------- one document per idempotency key

  /** A whole deployment: the audit table that AuditChain writes, the checkpoints, and the sink. */
  datatype Deployment = Deployment(log: seq<Event>, checkpoints: map<nat, Checkpoint>, sink: seq<Delivery>)

  function Index(log: seq<Event>): map<nat, Event> {
    if |log| == 0 then map[] else Index(log[..|log| - 1])[log[|log| - 1].id := log[|log| - 1]]
  }

  function WorldOf(d: Deployment): World { World(Tables(Index(d.log), d.checkpoints), d.sink) }

  /** What happens to a deployment: rows are written under growing ids, a gap is repaired, and any worker anchors. */
  datatype Act = Record(write: Write) | Mend(clock: Clock, fixed: seq<Event>) | Serve(step: Step)

  ghost function Live(mac: Mac, k: Keys, s: Settings, d: Deployment, act: Act): Deployment {
    match act
    case Record(w) =>
      if w.id == 0 || (|d.log| > 0 && w.id <= d.log[|d.log| - 1].id) then d else d.(log := Apply(mac, d.log, w))
    case Mend(clock, fixed) =>
      if GapIsTail(d.log) && Repaired(mac, clock, d.log, fixed) then d.(log := fixed) else d
    case Serve(step) =>
      var x := WorldOf(d);
      if step.NewEvent? || !HonestRival(k, x.tables, step.weather.rival) then d
      else
        var y := Perform(k, s, x, step);
        d.(checkpoints := y.tables.checkpoints, sink := y.sink)
  }

  ghost function LiveAll(mac: Mac, k: Keys, s: Settings, acts: seq<Act>): Deployment {
    if |acts| == 0 then Deployment([], map[], [])
    else Live(mac, k, s, LiveAll(mac, k, s, acts[..|acts| - 1]), acts[|acts| - 1])
  }

  /** The document of a sealed row that carries its time. */
  function DocumentOf(k: Keys, e: Event): Delivery
    requires e.hash.Some?
  {
    Sent(CheckpointFor(k, e, e.hash.value, true, ""))
  }

  ghost predicate Documented(k: Keys, log: seq<Event>, doc: Delivery) {
    exists i :: 0 <= i < |log| && Sealed(log, i) && doc == DocumentOf(k, log[i])
  }

  /** Every stored and every delivered document is the one of a row in the log. */
  ghost predicate AllDocumented(k: Keys, log: seq<Event>, x: World) {
    RowsDocumented(k, log, x.tables.checkpoints) && SinkDocumented(k, log, x.sink)
  }

  ghost predicate RowsDocumented(k: Keys, log: seq<Event>, checkpoints: map<nat, Checkpoint>) {
    forall id :: id in checkpoints ==> Documented(k, log, Sent(checkpoints[id]))
  }

  ghost predicate SinkDocumented(k: Keys, log: seq<Event>, sink: seq<Delivery>) {
    forall doc :: doc in sink ==> Documented(k, log, doc)
  }

  predicate Ascending(log: seq<Event>) {
    (forall i :: 0 <= i < |log| ==> log[i].id >= 1) && forall i, j :: 0 <= i < j < |log| ==> log[i].id < log[j].id
  }

  ghost predicate Orderly(k: Keys, d: Deployment) {
    Ascending(d.log) && AllDated(d.log) && AllDocumented(k, d.log, WorldOf(d))
  }

  lemma {:induction false} Indexed(log: seq<Event>, id: nat) returns (i: nat)
    requires id in Index(log)
    ensures i < |log| && log[i] == Index(log)[id] && log[i].id == id
  {
    var n := |log| - 1;
    if log[n].id == id { return n; }
    i := Indexed(log[..n], id);
  }

  /** What an honest worker builds for a row of the log is that row's document. */
  lemma HonestDocument(k: Keys, log: seq<Event>, checkpoints: map<nat, Checkpoint>, id: nat, now: string, c: Checkpoint)
    requires AllDated(log) && RowFor(k, Tables(Index(log), checkpoints), id, now, c)
    ensures Documented(k, log, Sent(c))
  {
    var i := Indexed(log, id);
    WorkersAgree(k, log[i], log[i].hash.value, c.delivered, true, now, "");
  }

  lemma RivalDocument(k: Keys, log: seq<Event>, checkpoints: map<nat, Checkpoint>, rival: Option<Checkpoint>)
    requires AllDated(log) && HonestRival(k, Tables(Index(log), checkpoints), rival) && rival.Some?
    ensures Documented(k, log, Sent(rival.value))
  {
    var id, now :| RowFor(k, Tables(Index(log), checkpoints), id, now, rival.value);
    HonestDocument(k, log, checkpoints, id, now, rival.value);
  }

  lemma CommitDocuments(k: Keys, s: Settings, log: seq<Event>, t: Tables, c: Checkpoint, w: Weather)
    requires RowsDocumented(k, log, t.checkpoints) && Documented(k, log, Sent(c))
    requires w.rival.Some? ==> Documented(k, log, Sent(w.rival.value))
    ensures RowsDocumented(k, log, Commit(t, c, s, w).0.checkpoints)
  {
  }

  lemma DeliveryDocuments(k: Keys, s: Settings, log: seq<Event>, sink: seq<Delivery>, c: Checkpoint, w: Weather)
    requires SinkDocumented(k, log, sink) && Documented(k, log, Sent(c))
    requires w.rival.Some? ==> Documented(k, log, Sent(w.rival.value))
    ensures SinkDocumented(k, log, (if s.endpoint then sink + [Sent(c)] else sink) + RivalDelivery(s, w.rival))
  {
  }

  /** What an anchoring that goes through does to the world. */
  lemma AnchorUnfolds(k: Keys, s: Settings, x: World, w: Weather)
    ensures var y := Anchor(k, s, x, w).0;
      y == x || (
        && x.tables.events.Keys != {}
        && var event := x.tables.events[MaxKey(x.tables.events.Keys)];
           && event.hash.Some? && ValidDigest(event.hash.value)
           && var c := CheckpointFor(k, event, event.hash.value, s.endpoint, w.now);
              && y.tables.checkpoints == Commit(x.tables, c, s, w).0.checkpoints
              && y.sink == (if s.endpoint then x.sink + [Sent(c)] else x.sink) + RivalDelivery(s, w.rival))
  {
  }

  lemma AnchorDocuments(k: Keys, s: Settings, log: seq<Event>, x: World, w: Weather)
    requires AllDated(log) && AllDocumented(k, log, x) && x.tables.events == Index(log)
    requires HonestRival(k, x.tables, w.rival)
    ensures AllDocumented(k, log, Anchor(k, s, x, w).0)
  {
    assert x.tables == Tables(Index(log), x.tables.checkpoints);
    AnchorUnfolds(k, s, x, w);
    if Anchor(k, s, x, w).0 != x {
      var tail := MaxKey(x.tables.events.Keys);
      var event := x.tables.events[tail];
      var c := CheckpointFor(k, event, event.hash.value, s.endpoint, w.now);
      HonestDocument(k, log, x.tables.checkpoints, tail, w.now, c);
      if w.rival.Some? { RivalDocument(k, log, x.tables.checkpoints, w.rival); }
      CommitDocuments(k, s, log, x.tables, c, w);
      DeliveryDocuments(k, s, log, x.sink, c, w);
    }
  }

  lemma EnsureDocuments(k: Keys, s: Settings, log: seq<Event>, x: World, probe: bool, backoff: bool, due: bool,
                        w: Weather, probeUp: bool)
    requires AllDated(log) && AllDocumented(k, log, x) && x.tables.events == Index(log)
    requires HonestRival(k, x.tables, w.rival)
    ensures AllDocumented(k, log, EnsureLatest(k, s, x, probe, backoff, due, w, probeUp).0)
  {
    AnchorDocuments(k, s, log, x, w);
    var y := EnsureLatest(k, s, x, probe, backoff, due, w, probeUp).0;
    var z := if VerifyLatest(k, s, x.tables).fullyAnchored then x else Anchor(k, s, x, w).0;
    if y != x && y != z {
      var last := MaxKey(z.tables.checkpoints.Keys);
      assert last in z.tables.checkpoints;
      assert Documented(k, log, Sent(z.tables.checkpoints[last]));
    }
  }

  /** Documents of sealed rows outlast every change that leaves those rows alone. */
  lemma DocumentsOutlast(k: Keys, log: seq<Event>, log': seq<Event>, x: World, x': World)
    requires AllDocumented(k, log, x) && x'.tables.checkpoints == x.tables.checkpoints && x'.sink == x.sink
    requires |log| <= |log'| && forall i :: 0 <= i < |log| && Sealed(log, i) ==> log'[i] == log[i]
    ensures AllDocumented(k, log', x')
  {
    forall doc | Documented(k, log, doc) ensures Documented(k, log', doc) {
      var i :| 0 <= i < |log| && Sealed(log, i) && doc == DocumentOf(k, log[i]);
      assert Sealed(log', i);
    }
  }

  lemma RecordIsOrderly(mac: Mac, k: Keys, d: Deployment, w: Write)
    requires Orderly(k, d) && w.id >= 1 && (|d.log| > 0 ==> w.id > d.log[|d.log| - 1].id)
    ensures Orderly(k, d.(log := Apply(mac, d.log, w)))
  {
    var d' := d.(log := Apply(mac, d.log, w));
    var row := AppendedRow(mac, d.log, w);
    AppendAscends(d.log, row);
    DocumentsOutlast(k, d.log, d'.log, WorldOf(d), WorldOf(d'));
  }

  /** A write appends one dated row under its own id. */
  lemma AppendedRow(mac: Mac, log: seq<Event>, w: Write) returns (row: Event)
    ensures Apply(mac, log, w) == log + [row] && row.id == w.id && row.entry.createdAt != ""
  {
    row := Apply(mac, log, w)[|log|];
  }

  lemma AppendAscends(log: seq<Event>, row: Event)
    requires Ascending(log) && AllDated(log) && row.entry.createdAt != ""
    requires row.id >= 1 && (|log| > 0 ==> row.id > log[|log| - 1].id)
    ensures Ascending(log + [row]) && AllDated(log + [row])
  {
    forall i | 0 <= i < |log| ensures log[i].id < row.id { assert i < |log| - 1 ==> log[i].id < log[|log| - 1].id; }
  }

  lemma MendIsOrderly(mac: Mac, k: Keys, d: Deployment, clock: Clock, fixed: seq<Event>)
    requires Orderly(k, d) && Repaired(mac, clock, d.log, fixed)
    ensures Orderly(k, d.(log := fixed))
  {
    RepairKeepsDates(mac, clock, d.log, fixed);
    forall i | 0 <= i < |fixed| ensures fixed[i].id == d.log[i].id && (Sealed(d.log, i) ==> fixed[i] == d.log[i]) {
      assert RowRepaired(mac, clock, d.log, fixed, i);
    }
    DocumentsOutlast(k, d.log, fixed, WorldOf(d), WorldOf(d.(log := fixed)));
  }

  lemma LiveIsOrderly(mac: Mac, k: Keys, s: Settings, d: Deployment, act: Act)
    requires Orderly(k, d)
    ensures Orderly(k, Live(mac, k, s, d, act))
  {
    if Live(mac, k, s, d, act) != d {
      match act
      case Record(w) => RecordIsOrderly(mac, k, d, w);
      case Mend(clock, fixed) => MendIsOrderly(mac, k, d, clock, fixed);
      case Serve(step) => ServeIsOrderly(k, s, d, step);
    }
  }

  lemma ServeIsOrderly(k: Keys, s: Settings, d: Deployment, step: Step)
    requires Orderly(k, d) && !step.NewEvent? && HonestRival(k, WorldOf(d).tables, step.weather.rival)
    ensures AllDocumented(k, d.log, Perform(k, s, WorldOf(d), step))
  {
    var x := WorldOf(d);
    match step
    case DoAnchor(w) => AnchorDocuments(k, s, d.log, x, w);
    case DoMaybe(_, w) => AnchorDocuments(k, s, d.log, x, w);
    case DoEnsure(probe, backoff, due, w, up) => EnsureDocuments(k, s, d.log, x, probe, backoff, due, w, up);
  }

  lemma {:induction false} EveryRunIsOrderly(mac: Mac, k: Keys, s: Settings, acts: seq<Act>)
    ensures Orderly(k, LiveAll(mac, k, s, acts))
  {
    if |acts| > 0 {
      EveryRunIsOrderly(mac, k, s, acts[..|acts| - 1]);
      LiveIsOrderly(mac, k, s, LiveAll(mac, k, s, acts[..|acts| - 1]), acts[|acts| - 1]);
    }
  }

  /** No two sealed rows of the log share a checkpoint id. */
  predicate KeysApart(k: Keys, log: seq<Event>) {
    forall i, j :: 0 <= i < j < |log| && Sealed(log, i) && Sealed(log, j) ==>
      k.uuid5(log[i].id, log[i].hash.value) != k.uuid5(log[j].id, log[j].hash.value)
  }

  /** Over every run of writes, repairs and anchoring by any number of workers, two deliveries under one idempotency
      key are the same document, whoever sent them and however often. */
  lemma OneDocumentPerKey(mac: Mac, k: Keys, s: Settings, acts: seq<Act>, a: Delivery, b: Delivery)
    requires KeysApart(k, LiveAll(mac, k, s, acts).log)
    requires a in LiveAll(mac, k, s, acts).sink && b in LiveAll(mac, k, s, acts).sink && a.key == b.key
    ensures a == b
  {
    EveryRunIsOrderly(mac, k, s, acts);
    var log := LiveAll(mac, k, s, acts).log;
    var i :| 0 <= i < |log| && Sealed(log, i) && a == DocumentOf(k, log[i]);
    var j :| 0 <= j < |log| && Sealed(log, j) && b == DocumentOf(k, log[j]);
    assert i == j;
  }

  /** In every deployment a lost race for the tail is a success with the other worker's row. */
  lemma LostRaceSucceeds(mac: Mac, k: Keys, s: Settings, acts: seq<Act>, w: Weather, now': string)
    requires forall m :: ValidDigest(k.sign(m))
    requires var x := WorldOf(LiveAll(mac, k, s, acts));
      && ReadyToAnchor(k, s, x, w)
      && var event := x.tables.events[MaxKey(x.tables.events.Keys)];
         w.rival == Some(CheckpointFor(k, event, event.hash.value, s.endpoint, now'))
    ensures var (y, outcome) := Anchor(k, s, WorldOf(LiveAll(mac, k, s, acts)), w);
      outcome == Anchored(w.rival.value) && !Damaged(k, y.tables)
  {
    EveryRunIsOrderly(mac, k, s, acts);
    var d := LiveAll(mac, k, s, acts);
    var x := WorldOf(d);
    var tail := MaxKey(x.tables.events.Keys);
    var i := Indexed(d.log, tail);
    WorkersAgree(k, d.log[i], d.log[i].hash.value, s.endpoint, s.endpoint, w.now, now');
    LostRaceIsSuccessIff(k, s, x, w, now');
  }

  /** Only the dating of rows keeps it so.  With an event without a time, which no run has, when the commit of a
      delivered checkpoint fails, the retry at another time delivers a different document under the same key. */
  lemma MissingTimeForks(k: Keys, s: Settings, x: World, w: Weather, w': Weather)
    requires ReadyToAnchor(k, s, x, w) && ReadyToAnchor(k, s, x, w') && s.endpoint
    requires x.sink == [] && w.rival.None? && w'.rival.None? && w.now != w'.now
    requires x.tables.events[MaxKey(x.tables.events.Keys)].entry.createdAt == ""
    ensures var sink := PerformAll(k, s, x, [DoAnchor(w.(commitFails := true)), DoAnchor(w')]).sink;
      |sink| == 2 && sink[0].key == sink[1].key && sink[0] != sink[1]
  {
    var event := x.tables.events[MaxKey(x.tables.events.Keys)];
    var w1 := w.(commitFails := true);
    var steps := [DoAnchor(w1), DoAnchor(w')];
    IntactMeansUndamaged(k, s, x.tables);
    var y := Anchor(k, s, x, w1).0;
    assert y.tables == x.tables && y.sink == [Sent(CheckpointFor(k, event, event.hash.value, true, w.now))];
    AnchorReaches(k, s, y, w');
    assert steps[1..] == [DoAnchor(w')] && steps[1..][1..] == [];
    assert PerformAll(k, s, x, steps) == PerformAll(k, s, y, steps[1..]);
    assert PerformAll(k, s, y, steps[1..]) == PerformAll(k, s, Anchor(k, s, y, w').0, []);
    WorkersAgree(k, event, event.hash.value, true, true, w.now, w'.now);
  }

  /** An intact log that still matches a checkpoint shares all entries up to the anchored event with
      any other intact log that matches it. */
  lemma AnchorFixesHistory(mac: Mac, k: Keys, c: Checkpoint, a: seq<Event>, b: seq<Event>, i: nat, j: nat)
    requires StrictlyIntact(mac, a) && StrictlyIntact(mac, b) && CollisionFree(a, b) && i < |a| && j < |b|
    requires IntegrityReason(k, c, Some(a[i])).None? && IntegrityReason(k, c, Some(b[j])).None?
    ensures i == j && Entries(a[..i + 1]) == Entries(b[..j + 1])
  {
    PrefixIsIntact(mac, a, i + 1);
    PrefixIsIntact(mac, b, j + 1);
    PrefixIsCollisionFree(a, b, i + 1, j + 1);
    HistoryCommitment(mac, a[..i + 1], b[..j + 1]);
    assert |Entries(a[..i + 1])| == i + 1 && |Entries(b[..j + 1])| == j + 1;
  }
}
