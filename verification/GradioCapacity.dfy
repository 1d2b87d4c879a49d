/** `GradioCapacity` of src/app/gradio_capacity.py as a state machine whose steps are its lock-protected sections,
    so that a run is an interleaving of requests, workers and readers.  `push` is split where it awaits: the
    check under the admission lock, the answer of the wrapped queue, and the entry into the event map. */
module GradioCapacityModel {
  import opened Prelude
  import opened GradioQueue

  type Handle = nat

  datatype Retained = Retained(session: Handle, terminal: Option<int>)

  /** Who holds the admission lock. */
  datatype Admission = Free | Checking(session: Handle) | Accepted(session: Handle, id: Id)

  function LiveIn(live: set<Id>, home: map<Id, Handle>, s: Handle): set<Id> {
    set id | id in live && id in home && home[id] == s
  }

  /** No start waits behind the completion of its own event. */
  predicate Sequenced(q: seq<Message>) {
    forall i, j :: 0 <= i < j < |q| && q[i].kind.Completed? && q[j].kind.Starts? ==> q[i].event != q[j].event
  }

  /** Starts and completions in a queue were sent. */
  predicate Recorded(q: seq<Message>, started: set<Id>, finished: set<Id>) {
    forall i :: 0 <= i < |q| ==>
      (q[i].kind.Starts? ==> q[i].event in started) && (q[i].kind.Completed? ==> q[i].event in finished)
  }

  predicate QueueOk(maximum: nat, ids: set<Id>, q: seq<Message>, started: set<Id>, finished: set<Id>) {
    && OneOfEach(q) && BelongTo(q, ids) && |q| <= Size(maximum)
    && Recorded(q, started, finished) && Sequenced(q)
  }

  type Queues = map<Handle, seq<Message>>

  /** Every result queue is bounded and well formed, and exists for the sake of a live event. */
  ghost predicate QueuesOk(maximum: nat, live: set<Id>, home: map<Id, Handle>, queues: Queues, started: set<Id>,
                           finished: set<Id>)
  {
    forall s: Handle :: QueueOkAt(maximum, live, home, queues, started, finished, s)
  }

  predicate QueueOkAt(maximum: nat, live: set<Id>, home: map<Id, Handle>, queues: Queues, started: set<Id>,
                      finished: set<Id>, s: Handle)
  {
    s in queues ==> QueueOk(maximum, LiveIn(live, home, s), queues[s], started, finished) && LiveIn(live, home, s) != {}
  }

  /** A start or completion that was sent is waiting in the queue or has been read. */
  predicate Kept(id: Id, kind: Kind, q: seq<Message>, shown: set<(Kind, Id)>) {
    (kind, id) in shown || Holds(q, kind, id)
  }

  predicate KeptBoth(id: Id, q: seq<Message>, started: set<Id>, finished: set<Id>, shown: set<(Kind, Id)>) {
    (id in started ==> Kept(id, Starts, q, shown)) && (id in finished ==> Kept(id, Completed, q, shown))
  }

  ghost predicate NothingLost(live: set<Id>, home: map<Id, Handle>, queues: Queues, started: set<Id>,
                              finished: set<Id>, shown: set<(Kind, Id)>)
  {
    forall id: Id :: KeptAt(live, home, queues, started, finished, shown, id)
  }

  function QueueOf(queues: Queues, s: Handle): seq<Message> { if s in queues then queues[s] else [] }

  /** A live event has its queue until its completion is read, and loses nothing either way. */
  predicate KeptAt(live: set<Id>, home: map<Id, Handle>, queues: Queues, started: set<Id>, finished: set<Id>,
                   shown: set<(Kind, Id)>, id: Id)
  {
    id in live ==>
      && id in home && (home[id] in queues || (Completed, id) in shown)
      && KeptBoth(id, QueueOf(queues, home[id]), started, finished, shown)
  }

  /** Only what was sent is read, and a start is read before the completion of its event. */
  predicate InOrder(started: set<Id>, finished: set<Id>, shown: set<(Kind, Id)>, id: Id) {
    (Completed, id) in shown ==> id in finished && (id in started ==> (Starts, id) in shown)
  }

  ghost predicate AllInOrder(started: set<Id>, finished: set<Id>, shown: set<(Kind, Id)>) {
    forall id: Id :: InOrder(started, finished, shown, id)
  }

  function AfterStart(started: set<Id>, item: Message): set<Id> {
    if item.kind.Starts? then started + {item.event} else started
  }

  function AfterCompletion(finished: set<Id>, item: Message): set<Id> {
    if item.kind.Completed? then finished + {item.event} else finished
  }

  // ---------------------------------------------------------------- one queue changes

  /** What a message must satisfy to be sent: a start comes once, and before the completion. */
  predicate Timely(item: Message, started: set<Id>, finished: set<Id>) {
    item.kind.Starts? ==> item.event !in started && item.event !in finished
  }

  /** Every message of a queue after a put was there before, in this order, or is the new one. */
  lemma PutOrigins(q: seq<Message>, size: nat, item: Message) returns (from: seq<nat>)
    requires Put(q, size, item).Some?
    ensures var r := Put(q, size, item).value;
      && |from| == |r| && (forall i :: 0 <= i < |r| ==> from[i] <= |q|)
      && (forall i, j :: 0 <= i < j < |r| ==> from[i] < from[j])
      && (forall i :: 0 <= i < |r| ==>
            if from[i] == |q| then r[i] == item else r[i].kind == q[from[i]].kind && r[i].event == q[from[i]].event)
  {
    var r := Put(q, size, item).value;
    if Coalesces(q, item) {
      from := seq(|q|, i requires 0 <= i < |q| => i);
    } else {
      var k := if |q| < size then |q| else DisposableIndex(q);
      from := seq(|r|, i requires 0 <= i < |r| => if i < k then i else i + 1);
      if k == |q| { from := seq(|r|, i requires 0 <= i < |r| => i); }
    }
  }

  lemma PutKeepsOrder(q: seq<Message>, size: nat, item: Message, started: set<Id>, finished: set<Id>)
    requires Put(q, size, item).Some? && Recorded(q, started, finished) && Sequenced(q)
    requires Timely(item, started, finished)
    ensures var r := Put(q, size, item).value;
      Recorded(r, AfterStart(started, item), AfterCompletion(finished, item)) && Sequenced(r)
  {
    var from := PutOrigins(q, size, item);
  }

  /** Sending to a session whose live events fit the limit always succeeds and loses nothing. */
  lemma SendKeeps(maximum: nat, live: set<Id>, home: map<Id, Handle>, queues: Queues, started: set<Id>,
                  finished: set<Id>, s: Handle, item: Message)
    requires QueuesOk(maximum, live, home, queues, started, finished) && s in queues && |live| <= maximum
    requires !item.Disposable() ==> item.event in LiveIn(live, home, s)
    requires Timely(item, started, finished)
    ensures Put(queues[s], Size(maximum), item).Some?
    ensures var r := Put(queues[s], Size(maximum), item).value;
      QueuesOk(maximum, live, home, queues[s := r], AfterStart(started, item), AfterCompletion(finished, item))
  {
    var ids, q := LiveIn(live, home, s), queues[s];
    assert QueueOkAt(maximum, live, home, queues, started, finished, s);
    SubsetSize(ids, live);
    PutNeverFails(q, maximum, item, ids);
    var queues' := queues[s := Put(q, Size(maximum), item).value];
    assert !Holds(q, Starts, item.event) || item.event in started;
    PutKeepsShape(q, Size(maximum), item, ids);
    PutKeepsOrder(q, Size(maximum), item, started, finished);
    forall x: Handle
      ensures QueueOkAt(maximum, live, home, queues', AfterStart(started, item), AfterCompletion(finished, item), x)
    {
      assert QueueOkAt(maximum, live, home, queues, started, finished, x);
    }
  }

  lemma SendLosesNothing(maximum: nat, live: set<Id>, home: map<Id, Handle>, queues: Queues, started: set<Id>,
                         finished: set<Id>, shown: set<(Kind, Id)>, s: Handle, item: Message)
    requires NothingLost(live, home, queues, started, finished, shown) && s in queues
    requires Put(queues[s], Size(maximum), item).Some?
    requires !item.Disposable() ==> item.event in LiveIn(live, home, s)
    ensures NothingLost(live, home, queues[s := Put(queues[s], Size(maximum), item).value],
                        AfterStart(started, item), AfterCompletion(finished, item), shown)
  {
    var queues' := queues[s := Put(queues[s], Size(maximum), item).value];
    forall id: Id
      ensures KeptAt(live, home, queues', AfterStart(started, item), AfterCompletion(finished, item), shown, id)
    {
      assert KeptAt(live, home, queues, started, finished, shown, id);
      if id in live && home[id] == s {
        PutDropsNoTerminal(queues[s], Size(maximum), item, Starts, id);
        PutDropsNoTerminal(queues[s], Size(maximum), item, Completed, id);
      }
    }
  }

  lemma SendKeepsOrder(started: set<Id>, finished: set<Id>, shown: set<(Kind, Id)>, item: Message)
    requires AllInOrder(started, finished, shown) && Timely(item, started, finished)
    ensures AllInOrder(AfterStart(started, item), AfterCompletion(finished, item), shown)
  {
    forall id: Id ensures InOrder(AfterStart(started, item), AfterCompletion(finished, item), shown, id) {
      assert InOrder(started, finished, shown, id);
    }
  }

  /** Reading the head hands it over. */
  lemma ReadKeeps(maximum: nat, ids: set<Id>, q: seq<Message>, started: set<Id>, finished: set<Id>)
    requires QueueOk(maximum, ids, q, started, finished) && |q| > 0
    ensures QueueOk(maximum, ids, q[1..], started, finished)
  {
  }

  lemma ReadLosesNothing(id: Id, q: seq<Message>, started: set<Id>, finished: set<Id>, shown: set<(Kind, Id)>)
    requires KeptBoth(id, q, started, finished, shown) && |q| > 0
    ensures KeptBoth(id, q[1..], started, finished, shown + {(q[0].kind, q[0].event)})
  {
    forall kind | kind == Starts || kind == Completed
      ensures Kept(id, kind, q, shown) ==> Kept(id, kind, q[1..], shown + {(q[0].kind, q[0].event)})
    {
      if Holds(q, kind, id) {
        var i :| 0 <= i < |q| && q[i].kind == kind && q[i].event == id;
        if i > 0 { assert q[1..][i - 1] == q[i]; }
      }
    }
  }

  /** A completion at the head means that the start of its event, if any, was read. */
  lemma HeadInOrder(q: seq<Message>, started: set<Id>, finished: set<Id>, shown: set<(Kind, Id)>)
    requires |q| > 0 && q[0].kind.Completed? && Sequenced(q) && Recorded(q, started, finished)
    requires KeptBoth(q[0].event, q, started, finished, shown)
    ensures q[0].event in finished && (q[0].event in started ==> (Starts, q[0].event) in shown)
  {
    forall j | 0 <= j < |q| && q[j].kind == Starts ensures q[j].event != q[0].event {}
    assert !Holds(q, Starts, q[0].event);
  }

  // ---------------------------------------------------------------- retiring an event

  /** What `_retire_locked` leaves of the queues. */
  function RetiredQueues(queues: Queues, s: Handle, id: Id, last: bool): Queues {
    if s !in queues then queues
    else if last then queues - {s}
    else queues[s := Purge(queues[s], id)]
  }

  lemma {:induction false} PurgeKeepsOrder(q: seq<Message>, event: Id, started: set<Id>, finished: set<Id>)
    requires Recorded(q, started, finished) && Sequenced(q)
    ensures Recorded(Purge(q, event), started, finished) && Sequenced(Purge(q, event))
  {
    if |q| > 0 {
      var n := |q| - 1;
      var front, last := Purge(q[..n], event), q[n];
      PurgeKeepsOrder(q[..n], event, started, finished);
      if last.event != event && last.kind.Starts? {
        assert !Holds(q[..n], Completed, last.event) by {
          forall i | 0 <= i < n && q[..n][i].kind == Completed ensures q[..n][i].event != last.event {
            assert q[..n][i] == q[i];
          }
        }
        PurgeHolds(q[..n], event, Completed, last.event);
        forall i | 0 <= i < |front| && front[i].kind.Completed? ensures front[i].event != last.event {}
      }
    }
  }

  lemma PurgeKeeps(maximum: nat, ids: set<Id>, q: seq<Message>, started: set<Id>, finished: set<Id>, id: Id)
    requires QueueOk(maximum, ids, q, started, finished)
    ensures QueueOk(maximum, ids - {id}, Purge(q, id), started, finished)
  {
    PurgeShape(q, id, ids);
    PurgeKeepsOrder(q, id, started, finished);
  }

  /** `last` says that no event of the session is tracked or pending any more; then `rest` may still hold one whose
      completion was read. */
  lemma RetireKeepsQueues(maximum: nat, live: set<Id>, home: map<Id, Handle>, queues: Queues, started: set<Id>,
                          finished: set<Id>, id: Id, last: bool)
    requires QueuesOk(maximum, live, home, queues, started, finished) && id in live && id in home
    requires !last ==> LiveIn(live - {id}, home, home[id]) != {}
    ensures QueuesOk(maximum, live - {id}, home, RetiredQueues(queues, home[id], id, last), started, finished)
  {
    var s, rest := home[id], live - {id};
    var queues' := RetiredQueues(queues, s, id, last);
    forall x: Handle ensures QueueOkAt(maximum, rest, home, queues', started, finished, x) {
      assert QueueOkAt(maximum, live, home, queues, started, finished, x);
      if x == s {
        assert LiveIn(rest, home, s) == LiveIn(live, home, s) - {id};
        if s in queues { PurgeKeeps(maximum, LiveIn(live, home, s), queues[s], started, finished, id); }
      } else {
        assert LiveIn(rest, home, x) == LiveIn(live, home, x);
      }
    }
  }

  lemma RetireLosesNothing(live: set<Id>, home: map<Id, Handle>, queues: Queues, started: set<Id>, finished: set<Id>,
                           shown: set<(Kind, Id)>, id: Id, last: bool)
    requires NothingLost(live, home, queues, started, finished, shown) && id in live && id in home
    requires AllInOrder(started, finished, shown)
    requires last ==> forall x :: x in LiveIn(live - {id}, home, home[id]) ==> (Completed, x) in shown
    ensures NothingLost(live - {id}, home, RetiredQueues(queues, home[id], id, last), started, finished, shown)
  {
    var s, rest := home[id], live - {id};
    var queues' := RetiredQueues(queues, s, id, last);
    forall x: Id ensures KeptAt(rest, home, queues', started, finished, shown, x) {
      assert KeptAt(live, home, queues, started, finished, shown, x);
      if x in rest && home[x] == s {
        assert x in LiveIn(rest, home, s);
        assert InOrder(started, finished, shown, x);
        PurgeHolds(QueueOf(queues, s), id, Starts, x);
        PurgeHolds(QueueOf(queues, s), id, Completed, x);
      }
    }
  }

  // ---------------------------------------------------------------- admitting an event

  function OpenedQueues(queues: Queues, s: Handle): Queues {
    if s in queues then queues else queues[s := []]
  }

  lemma AdmitKeeps(maximum: nat, live: set<Id>, home: map<Id, Handle>, queues: Queues, started: set<Id>,
                   finished: set<Id>, shown: set<(Kind, Id)>, s: Handle, id: Id)
    requires QueuesOk(maximum, live, home, queues, started, finished)
    requires NothingLost(live, home, queues, started, finished, shown)
    requires id !in live && id !in home && id !in started && id !in finished
    ensures QueuesOk(maximum, live + {id}, home[id := s], OpenedQueues(queues, s), started, finished)
    ensures NothingLost(live + {id}, home[id := s], OpenedQueues(queues, s), started, finished, shown)
  {
    var live', home', queues' := live + {id}, home[id := s], OpenedQueues(queues, s);
    forall x: Id ensures KeptAt(live', home', queues', started, finished, shown, x) {
      assert KeptAt(live, home, queues, started, finished, shown, x);
    }
    forall x: Handle ensures QueueOkAt(maximum, live', home', queues', started, finished, x) {
      if x in queues {
        assert QueueOkAt(maximum, live, home, queues, started, finished, x);
        assert LiveIn(live, home, x) <= LiveIn(live', home', x);
      } else if x in queues' {
        assert id in LiveIn(live', home', x);
      }
    }
  }

  /** There are never more result queues than live events. */
  lemma {:induction false} QueuesFewerThanEvents(live: set<Id>, home: map<Id, Handle>, sessions: set<Handle>)
    requires forall s :: s in sessions ==> LiveIn(live, home, s) != {}
    ensures |sessions| <= |live|
    decreases |sessions|
  {
    if sessions != {} {
      var s :| s in sessions;
      var mine := LiveIn(live, home, s);
      var id :| id in mine;
      forall x | x in sessions - {s} ensures LiveIn(live - {id}, home, x) != {} {
        var y :| y in LiveIn(live, home, x);
        assert y in LiveIn(live - {id}, home, x);
      }
      QueuesFewerThanEvents(live - {id}, home, sessions - {s});
    }
  }

  /** Events that may still produce or hold messages. */
  function LiveOf(events: map<Id, Retained>, admission: Admission): set<Id> {
    events.Keys + if admission.Accepted? then {admission.id} else {}
  }

  /** The limit holds, counting the event being admitted, and while the lock is held there is room for it. */
  ghost predicate Admits(maximum: nat, events: map<Id, Retained>, admission: Admission, home: map<Id, Handle>,
                         pending: set<Id>)
  {
    && |LiveOf(events, admission)| <= maximum
    && (admission.Checking? ==> |events.Keys| < maximum)
    && (admission.Accepted? ==>
          admission.id !in events && admission.id in home && home[admission.id] == admission.session)
    && (forall id :: id in events ==> id in home && home[id] == events[id].session)
    && pending <= LiveOf(events, admission)
  }

  /** Every queue is well formed and nothing was lost. */
  ghost predicate Books(maximum: nat, live: set<Id>, home: map<Id, Handle>, queues: Queues,
                        started: set<Id>, finished: set<Id>, shown: set<(Kind, Id)>)
  {
    && QueuesOk(maximum, live, home, queues, started, finished)
    && NothingLost(live, home, queues, started, finished, shown)
    && AllInOrder(started, finished, shown)
  }

  /** What `prune` retires: idle terminal events that were read or have outlived their time. */
  predicate Due(events: map<Id, Retained>, pending: set<Id>, active: set<Id>, ttl: nat, now: int, id: Id) {
    && id in events && id !in active && events[id].terminal.Some?
    && (id !in pending || now - events[id].terminal.value >= ttl)
  }

  lemma AdmitsRetire(maximum: nat, events: map<Id, Retained>, admission: Admission, home: map<Id, Handle>,
                     pending: set<Id>, id: Id)
    requires Admits(maximum, events, admission, home, pending) && id in events
    ensures Admits(maximum, events - {id}, admission, home, pending - {id})
    ensures LiveOf(events - {id}, admission) == LiveOf(events, admission) - {id}
  {
    var events' := events - {id};
    assert events'.Keys == events.Keys - {id};
    assert LiveOf(events', admission) == LiveOf(events, admission) - {id};
    SubsetSize(LiveOf(events', admission), LiveOf(events, admission));
    SubsetSize(events'.Keys, events.Keys);
  }

  lemma AdmitBooks(maximum: nat, events: map<Id, Retained>, admission: Admission, home: map<Id, Handle>,
                   queues: Queues, started: set<Id>, finished: set<Id>, shown: set<(Kind, Id)>, id: Id)
    requires admission.Checking? && id !in events && id !in home && id !in started && id !in finished
    requires Books(maximum, LiveOf(events, admission), home, queues, started, finished, shown)
    ensures Books(maximum, LiveOf(events, Accepted(admission.session, id)), home[id := admission.session],
                  OpenedQueues(queues, admission.session), started, finished, shown)
  {
    assert LiveOf(events, admission) == events.Keys;
    AdmitKeeps(maximum, events.Keys, home, queues, started, finished, shown, admission.session, id);
  }

  lemma AdmitsAccept(maximum: nat, events: map<Id, Retained>, admission: Admission, home: map<Id, Handle>,
                     pending: set<Id>, id: Id)
    requires Admits(maximum, events, admission, home, pending) && admission.Checking? && id !in home
    ensures Admits(maximum, events, Accepted(admission.session, id), home[id := admission.session], pending + {id})
    ensures LiveOf(events, admission) == events.Keys
    ensures LiveOf(events, Accepted(admission.session, id)) == events.Keys + {id}
  {
    assert LiveOf(events, Accepted(admission.session, id)) == events.Keys + {id};
  }

  lemma AdmitsFinish(maximum: nat, events: map<Id, Retained>, admission: Admission, home: map<Id, Handle>,
                     pending: set<Id>)
    requires Admits(maximum, events, admission, home, pending) && admission.Accepted?
    ensures var events' := events[admission.id := Retained(admission.session, None)];
      Admits(maximum, events', Free, home, pending) && LiveOf(events', Free) == LiveOf(events, admission)
  {
    var events' := events[admission.id := Retained(admission.session, None)];
    assert LiveOf(events', Free) == LiveOf(events, admission);
  }

  lemma AdmitsMark(maximum: nat, events: map<Id, Retained>, admission: Admission, home: map<Id, Handle>,
                   pending: set<Id>, id: Id, now: int)
    requires Admits(maximum, events, admission, home, pending) && id in events
    ensures var events' := events[id := events[id].(terminal := Some(now))];
      Admits(maximum, events', admission, home, pending) && LiveOf(events', admission) == LiveOf(events, admission)
  {
    var events' := events[id := events[id].(terminal := Some(now))];
    assert events'.Keys == events.Keys;
  }

  lemma ReadBooks(maximum: nat, live: set<Id>, home: map<Id, Handle>, queues: Queues, started: set<Id>,
                  finished: set<Id>, shown: set<(Kind, Id)>, s: Handle)
    requires Books(maximum, live, home, queues, started, finished, shown) && s in queues && |queues[s]| > 0
    ensures Books(maximum, live, home, queues[s := queues[s][1..]], started, finished,
                  shown + {(queues[s][0].kind, queues[s][0].event)})
  {
    var m := queues[s][0];
    var queues', shown' := queues[s := queues[s][1..]], shown + {(m.kind, m.event)};
    assert QueueOkAt(maximum, live, home, queues, started, finished, s);
    forall x: Handle ensures QueueOkAt(maximum, live, home, queues', started, finished, x) {
      assert QueueOkAt(maximum, live, home, queues, started, finished, x);
      if x == s { ReadKeeps(maximum, LiveIn(live, home, s), queues[s], started, finished); }
    }
    forall id: Id ensures KeptAt(live, home, queues', started, finished, shown', id) {
      assert KeptAt(live, home, queues, started, finished, shown, id);
      if id in live && home[id] == s { ReadLosesNothing(id, queues[s], started, finished, shown); }
    }
    forall id: Id ensures InOrder(started, finished, shown', id) {
      assert InOrder(started, finished, shown, id);
      if m.kind.Completed? && m.event == id {
        assert id in LiveIn(live, home, s) && KeptAt(live, home, queues, started, finished, shown, id);
        HeadInOrder(queues[s], started, finished, shown);
      }
    }
  }

  // ---------------------------------------------------------------- the state machine

  /** `used`, `started`, `finished` and `shown` record what happened; `raised` that a message was refused. */
  datatype Hub = Hub(
    maximum: nat, ttl: nat, events: map<Id, Retained>, processing: set<Id>, waiting: set<Id>, pending: set<Id>,
    admission: Admission, queues: Queues, home: map<Id, Handle>,
    used: set<Id>, started: set<Id>, finished: set<Id>, shown: set<(Kind, Id)>, raised: bool)

  function Live(h: Hub): set<Id> { LiveOf(h.events, h.admission) }

  /** A live event is pending until its completion is read. */
  predicate UnlessRead(live: set<Id>, pending: set<Id>, shown: set<(Kind, Id)>) {
    forall id :: id in live && id !in pending ==> (Completed, id) in shown
  }

  /** `_active_ids`: queued and running events. */
  function Active(h: Hub): set<Id> { h.processing + h.waiting }

  /** The limit holds, queued and running events are live, and every message is accounted for. */
  ghost predicate Safe(h: Hub) {
    && Admits(h.maximum, h.events, h.admission, h.home, h.pending)
    && h.home.Keys <= h.used && h.started <= h.used && h.finished <= h.used
    && Active(h) <= Live(h) && UnlessRead(Live(h), h.pending, h.shown)
    && Books(h.maximum, Live(h), h.home, h.queues, h.started, h.finished, h.shown)
    && !h.raised
  }

  function Start(maximum: nat, ttl: nat): Hub {
    Hub(maximum, ttl, map[], {}, {}, {}, Free, map[], map[], {}, {}, {}, {}, false)
  }

  /** `_retire_locked`: the queue of the session goes with its last tracked or pending event. */
  function Retire(h: Hub, id: Id): Hub
    requires id in h.events
  {
    var s := h.events[id].session;
    var others := h.events.Keys + h.pending - {id};
    h.(events := h.events - {id}, pending := h.pending - {id},
       queues := RetiredQueues(h.queues, s, id, LiveIn(others, h.home, s) == {}))
  }

  predicate DueNow(h: Hub, now: int, id: Id) { Due(h.events, h.pending, Active(h), h.ttl, now, id) }

  /** The loop of `prune` over the listed events. */
  function Sweep(h: Hub, now: int, order: seq<Id>): Hub
    decreases |order|
  {
    if |order| == 0 then h
    else Sweep(if DueNow(h, now, order[0]) then Retire(h, order[0]) else h, now, order[1..])
  }

  /** `prune`. */
  method PruneEvents(h: Hub, now: int, order: seq<Id>) returns (r: Hub)
    ensures r == Sweep(h, now, order)
  {
    r := h;
    for i := 0 to |order|
      invariant Sweep(r, now, order[i..]) == Sweep(h, now, order)
    {
      assert order[i..][0] == order[i] && order[i..][1..] == order[i + 1..];
      if DueNow(r, now, order[i]) { r := Retire(r, order[i]); }
    }
  }

  function Mark(h: Hub, id: Id, now: int): Hub {
    if id in h.events then h.(events := h.events[id := h.events[id].(terminal := Some(now))]) else h
  }

  function BeginPush(h: Hub, session: Handle, now: int, order: seq<Id>): Hub {
    var swept := Sweep(h, now, order);
    if |swept.events.Keys| >= swept.maximum then swept else swept.(admission := Checking(session))
  }

  function AcceptPush(h: Hub, id: Id): Hub
    requires h.admission.Checking?
  {
    var s := h.admission.session;
    h.(admission := Accepted(s, id), used := h.used + {id}, waiting := h.waiting + {id}, pending := h.pending + {id},
       home := h.home[id := s], queues := OpenedQueues(h.queues, s))
  }

  function FinishPush(h: Hub): Hub
    requires h.admission.Accepted?
  {
    h.(events := h.events[h.admission.id := Retained(h.admission.session, None)], admission := Free)
  }

  /** A missing queue and a refused message are errors. */
  function Send(h: Hub, s: Handle, item: Message): Hub {
    var put := if s in h.queues then Put(h.queues[s], Size(h.maximum), item) else None;
    if put.None? then h.(raised := true)
    else h.(queues := h.queues[s := put.value], started := AfterStart(h.started, item),
            finished := AfterCompletion(h.finished, item))
  }

  /** A reader takes the oldest message; a completion that was read is no longer pending. */
  function Read(h: Hub, s: Handle): Hub
    requires s in h.queues && |h.queues[s]| > 0
  {
    var m := h.queues[s][0];
    h.(queues := h.queues[s := h.queues[s][1..]], shown := h.shown + {(m.kind, m.event)},
       pending := if m.kind.Completed? then h.pending - {m.event} else h.pending)
  }

  /** The locked part of `clean_events`, for one event. */
  function Clean(h: Hub, id: Id, now: int, order: seq<Id>): Hub {
    Sweep(if id in Active(h) then h else Mark(h, id, now), now, order)
  }

  /** The locked part of `remove_from_queue`. */
  function Remove(h: Hub, id: Id): Hub {
    if id in h.events && id !in Active(h) then Retire(h, id) else h
  }

  datatype Action =
    | DoBeginPush(session: Handle, now: int, order: seq<Id>)
    | DoAcceptPush(id: Id)
    | DoAbandonPush
    | DoFinishPush
    | DoSend(session: Handle, item: Message)
    | DoRead(session: Handle)
    | DoDequeue(id: Id)
    | DoBeginProcess(id: Id)
    | DoEndProcess(id: Id, now: int)
    | DoPrune(now: int, order: seq<Id>)
    | DoClean(id: Id, now: int, order: seq<Id>)
    | DoRemove(id: Id)
  {
    predicate QueueAction() {
      DoBeginPush? || DoAcceptPush? || DoAbandonPush? || DoFinishPush? || DoSend? || DoRead?
    }
  }

  /** A queued or running event whose completion was not read yet. */
  predicate Sends(h: Hub, s: Handle, id: Id) {
    id in Active(h) && id in h.home && h.home[id] == s && (Completed, id) !in h.shown
  }

  /** When an action can happen: the lock order, ids that are never reused, only queued work is started, and messages
      come from queued or running events, one start each and not after the completion.  Updates that may be dropped
      also reach any existing queue. */
  predicate Enabled(h: Hub, a: Action) {
    match a
    case DoBeginPush(_, _, _) => h.admission.Free?
    case DoAcceptPush(id) => h.admission.Checking? && id !in h.used
    case DoAbandonPush => h.admission.Checking?
    case DoFinishPush => h.admission.Accepted?
    case DoSend(s, item) =>
      (Sends(h, s, item.event) && Timely(item, h.started, h.finished)) || (item.Disposable() && s in h.queues)
    case DoRead(s) => s in h.queues && |h.queues[s]| > 0
    case DoBeginProcess(id) => id in h.waiting
    case _ => true
  }

  function Apply(h: Hub, a: Action): Hub {
    if !Enabled(h, a) then h
    else
      match a
      case DoBeginPush(s, now, order) => BeginPush(h, s, now, order)
      case DoAcceptPush(id) => AcceptPush(h, id)
      case DoAbandonPush => h.(admission := Free)
      case DoFinishPush => FinishPush(h)
      case DoSend(s, item) => Send(h, s, item)
      case DoRead(s) => Read(h, s)
      case DoDequeue(id) => h.(waiting := h.waiting - {id})
      case DoBeginProcess(id) => h.(processing := h.processing + {id}, waiting := h.waiting - {id})
      case DoEndProcess(id, now) => Mark(h.(processing := h.processing - {id}), id, now)
      case DoPrune(now, order) => Sweep(h, now, order)
      case DoClean(id, now, order) => Clean(h, id, now, order)
      case DoRemove(id) => Remove(h, id)
  }

  function ApplyAll(h: Hub, actions: seq<Action>): Hub
    decreases |actions|
  {
    if |actions| == 0 then h else ApplyAll(Apply(h, actions[0]), actions[1..])
  }

  // ---------------------------------------------------------------- every step is safe

  lemma RetireIsSafe(h: Hub, id: Id)
    requires Safe(h) && id in h.events && id !in Active(h)
    ensures Safe(Retire(h, id))
  {
    var s := h.events[id].session;
    var others := h.events.Keys + h.pending - {id};
    var last := LiveIn(others, h.home, s) == {};
    AdmitsRetire(h.maximum, h.events, h.admission, h.home, h.pending, id);
    assert others <= Live(h) - {id};
    forall x | x in LiveIn(Live(h) - {id}, h.home, s) && last ensures (Completed, x) in h.shown {
      assert x !in LiveIn(others, h.home, s);
    }
    if !last {
      var x :| x in LiveIn(others, h.home, s);
      assert x in LiveIn(Live(h) - {id}, h.home, s);
    }
    RetireKeepsQueues(h.maximum, Live(h), h.home, h.queues, h.started, h.finished, id, last);
    RetireLosesNothing(Live(h), h.home, h.queues, h.started, h.finished, h.shown, id, last);
  }

  lemma {:induction false} SweepIsSafe(h: Hub, now: int, order: seq<Id>)
    requires Safe(h)
    ensures var r := Sweep(h, now, order);
      && Safe(r) && r.admission == h.admission && r.maximum == h.maximum && r.used == h.used
      && r.events.Keys <= h.events.Keys
    decreases |order|
  {
    if |order| > 0 {
      if DueNow(h, now, order[0]) { RetireIsSafe(h, order[0]); }
      SweepIsSafe(if DueNow(h, now, order[0]) then Retire(h, order[0]) else h, now, order[1..]);
    }
  }

  lemma MarkIsSafe(h: Hub, id: Id, now: int)
    requires Safe(h)
    ensures Safe(Mark(h, id, now))
  {
    if id in h.events { AdmitsMark(h.maximum, h.events, h.admission, h.home, h.pending, id, now); }
  }

  lemma BeginPushIsSafe(h: Hub, session: Handle, now: int, order: seq<Id>)
    requires Safe(h) && h.admission.Free?
    ensures Safe(BeginPush(h, session, now, order))
  {
    SweepIsSafe(h, now, order);
    var swept := Sweep(h, now, order);
    if |swept.events.Keys| < swept.maximum { CheckingIsSafe(swept, session); }
  }

  lemma CheckingIsSafe(h: Hub, session: Handle)
    requires Safe(h) && h.admission.Free? && |h.events.Keys| < h.maximum
    ensures Safe(h.(admission := Checking(session)))
  {
    assert LiveOf(h.events, Checking(session)) == LiveOf(h.events, Free);
  }

  lemma AcceptPushIsSafe(h: Hub, id: Id)
    requires Safe(h) && h.admission.Checking? && id !in h.used
    ensures Safe(AcceptPush(h, id))
  {
    AdmitBooks(h.maximum, h.events, h.admission, h.home, h.queues, h.started, h.finished, h.shown, id);
    AdmitsAccept(h.maximum, h.events, h.admission, h.home, h.pending, id);
  }

  lemma FinishPushIsSafe(h: Hub)
    requires Safe(h) && h.admission.Accepted?
    ensures Safe(FinishPush(h))
  {
    AdmitsFinish(h.maximum, h.events, h.admission, h.home, h.pending);
  }

  /** A queued or running event still has its queue, and the queue takes every message. */
  lemma SendIsSafe(h: Hub, s: Handle, item: Message)
    requires Safe(h) && Enabled(h, DoSend(s, item))
    ensures s in h.queues && Put(h.queues[s], Size(h.maximum), item).Some? && Safe(Send(h, s, item))
  {
    assert KeptAt(Live(h), h.home, h.queues, h.started, h.finished, h.shown, item.event);
    SendKeeps(h.maximum, Live(h), h.home, h.queues, h.started, h.finished, s, item);
    SendKeepsOrder(h.started, h.finished, h.shown, item);
    SendLosesNothing(h.maximum, Live(h), h.home, h.queues, h.started, h.finished, h.shown, s, item);
    assert !item.Disposable() ==> item.event in h.home.Keys;
  }

  lemma ReadIsSafe(h: Hub, s: Handle)
    requires Safe(h) && Enabled(h, DoRead(s))
    ensures Safe(Read(h, s))
  {
    ReadBooks(h.maximum, Live(h), h.home, h.queues, h.started, h.finished, h.shown, s);
  }

  lemma AbandonIsSafe(h: Hub)
    requires Safe(h) && h.admission.Checking?
    ensures Safe(h.(admission := Free))
  {
    var h' := h.(admission := Free);
    assert Live(h') == Live(h) && Active(h') == Active(h);
    assert Admits(h'.maximum, h'.events, h'.admission, h'.home, h'.pending);
  }

  lemma CleanIsSafe(h: Hub, id: Id, now: int, order: seq<Id>)
    requires Safe(h)
    ensures Safe(Clean(h, id, now, order))
  {
    MarkIsSafe(h, id, now);
    SweepIsSafe(if id in Active(h) then h else Mark(h, id, now), now, order);
  }

  lemma RemoveIsSafe(h: Hub, id: Id)
    requires Safe(h)
    ensures Safe(Remove(h, id))
  {
    if id in h.events && id !in Active(h) { RetireIsSafe(h, id); }
  }

  lemma WorkIsSafe(h: Hub, processing: set<Id>, waiting: set<Id>)
    requires Safe(h) && processing + waiting <= Active(h)
    ensures Safe(h.(processing := processing, waiting := waiting))
  {
  }

  lemma EndProcessIsSafe(h: Hub, id: Id, now: int)
    requires Safe(h)
    ensures Safe(Mark(h.(processing := h.processing - {id}), id, now))
  {
    WorkIsSafe(h, h.processing - {id}, h.waiting);
    MarkIsSafe(h.(processing := h.processing - {id}), id, now);
  }

  /** The steps of `push` and of readers and writers of queues. */
  lemma {:induction false} QueueActionIsSafe(h: Hub, a: Action)
    requires Safe(h) && Enabled(h, a) && a.QueueAction()
    ensures Safe(Apply(h, a))
  {
    match a
    case DoBeginPush(s, now, order) => BeginPushIsSafe(h, s, now, order);
    case DoAcceptPush(id) => AcceptPushIsSafe(h, id);
    case DoAbandonPush => AbandonIsSafe(h);
    case DoFinishPush => FinishPushIsSafe(h);
    case DoSend(s, item) => SendIsSafe(h, s, item);
    case DoRead(s) => ReadIsSafe(h, s);
  }

  lemma {:induction false} WorkActionIsSafe(h: Hub, a: Action)
    requires Safe(h) && Enabled(h, a) && !a.QueueAction()
    ensures Safe(Apply(h, a))
  {
    match a
    case DoDequeue(id) => WorkIsSafe(h, h.processing, h.waiting - {id});
    case DoBeginProcess(id) => WorkIsSafe(h, h.processing + {id}, h.waiting - {id});
    case DoEndProcess(id, now) => EndProcessIsSafe(h, id, now);
    case DoPrune(now, order) => SweepIsSafe(h, now, order);
    case DoClean(id, now, order) => CleanIsSafe(h, id, now, order);
    case DoRemove(id) => RemoveIsSafe(h, id);
  }

  lemma {:induction false} ApplyIsSafe(h: Hub, a: Action)
    requires Safe(h)
    ensures Safe(Apply(h, a))
  {
    if Enabled(h, a) {
      if a.QueueAction() { QueueActionIsSafe(h, a); } else { WorkActionIsSafe(h, a); }
    }
  }

  lemma {:induction false} RunIsSafe(h: Hub, actions: seq<Action>)
    requires Safe(h)
    ensures Safe(ApplyAll(h, actions))
    decreases |actions|
  {
    if |actions| > 0 {
      ApplyIsSafe(h, actions[0]);
      RunIsSafe(Apply(h, actions[0]), actions[1..]);
    }
  }

  lemma StartIsSafe(maximum: nat, ttl: nat)
    ensures Safe(Start(maximum, ttl))
  {
  }

  lemma ApplyKeepsMaximum(h: Hub, a: Action)
    ensures Apply(h, a).maximum == h.maximum
  {
    match a
    case DoBeginPush(_, now, order) => SweepKeepsMaximum(h, now, order);
    case DoPrune(now, order) => SweepKeepsMaximum(h, now, order);
    case DoClean(id, now, order) =>
      SweepKeepsMaximum(if id in Active(h) then h else Mark(h, id, now), now, order);
    case _ =>
  }

  lemma {:induction false} SweepKeepsMaximum(h: Hub, now: int, order: seq<Id>)
    ensures Sweep(h, now, order).maximum == h.maximum
    decreases |order|
  {
    if |order| > 0 { SweepKeepsMaximum(if DueNow(h, now, order[0]) then Retire(h, order[0]) else h, now, order[1..]); }
  }

  lemma {:induction false} RunKeepsMaximum(h: Hub, actions: seq<Action>)
    ensures ApplyAll(h, actions).maximum == h.maximum
    decreases |actions|
  {
    if |actions| > 0 {
      ApplyKeepsMaximum(h, actions[0]);
      RunKeepsMaximum(Apply(h, actions[0]), actions[1..]);
    }
  }

  // ---------------------------------------------------------------- main results

  /** In every interleaving: no message is ever refused or sent to a missing queue; the event map and the result queues
      stay within the maximum; queued and running events are never retired; and for every retained event each start or
      completion sent is waiting in its queue or was read, the start first, and its queue exists until its completion
      was read. */
  lemma EveryRunIsSafe(maximum: nat, ttl: nat, actions: seq<Action>)
    ensures var h := ApplyAll(Start(maximum, ttl), actions);
      && !h.raised && |h.events.Keys| <= maximum && |h.queues.Keys| <= maximum
      && (forall s :: s in h.queues ==> |h.queues[s]| <= Size(maximum))
      && Active(h) <= Live(h)
      && (forall id :: id in h.events ==>
            && (h.events[id].session in h.queues || (Completed, id) in h.shown)
            && KeptBoth(id, QueueOf(h.queues, h.events[id].session), h.started, h.finished, h.shown)
            && InOrder(h.started, h.finished, h.shown, id))
  {
    var h := ApplyAll(Start(maximum, ttl), actions);
    StartIsSafe(maximum, ttl);
    RunIsSafe(Start(maximum, ttl), actions);
    RunKeepsMaximum(Start(maximum, ttl), actions);
    SubsetSize(h.events.Keys, Live(h));
    forall s | s in h.queues ensures LiveIn(Live(h), h.home, s) != {} && |h.queues[s]| <= Size(maximum) {
      assert QueueOkAt(maximum, Live(h), h.home, h.queues, h.started, h.finished, s);
    }
    QueuesFewerThanEvents(Live(h), h.home, h.queues.Keys);
    forall id | id in h.events
      ensures (h.events[id].session in h.queues || (Completed, id) in h.shown)
           && KeptBoth(id, QueueOf(h.queues, h.events[id].session), h.started, h.finished, h.shown)
           && InOrder(h.started, h.finished, h.shown, id)
    {
      assert KeptAt(Live(h), h.home, h.queues, h.started, h.finished, h.shown, id);
      assert InOrder(h.started, h.finished, h.shown, id);
    }
  }

  /** `prune` retires exactly the due events; queued and running work is never evicted. */
  lemma {:induction false} SweepRetiresDue(h: Hub, now: int, order: seq<Id>)
    ensures var r := Sweep(h, now, order);
      forall id :: id in r.events <==> id in h.events && !(id in order && DueNow(h, now, id))
    decreases |order|
  {
    if |order| > 0 {
      var h1 := if DueNow(h, now, order[0]) then Retire(h, order[0]) else h;
      SweepRetiresDue(h1, now, order[1..]);
      forall id | id in h.events && id != order[0] ensures DueNow(h1, now, id) <==> DueNow(h, now, id) {}
      assert forall id :: id in order <==> id == order[0] || id in order[1..];
    }
  }

  // ---------------------------------------------------------------- when an idle event is terminal

  predicate Terminal(h: Hub, id: Id) { id in h.events && h.events[id].terminal.Some? }

  /** A step that finds the event in the map and ends it. */
  predicate Settles(h: Hub, a: Action, id: Id) {
    && id in h.events
    && ((a.DoEndProcess? && a.id == id) || (a.DoClean? && a.id == id && id !in Active(h)))
  }

  predicate EverSettled(h: Hub, actions: seq<Action>, id: Id)
    decreases |actions|
  {
    |actions| > 0 && (Settles(h, actions[0], id) || EverSettled(Apply(h, actions[0]), actions[1..], id))
  }

  /** A step by which the event stops being queued or running without being ended: it is taken from the queue, or it
      has run before `push` entered it into the map. */
  predicate Drops(h: Hub, a: Action, id: Id) {
    || (a.DoDequeue? && a.id == id && id in h.waiting)
    || (a.DoEndProcess? && a.id == id && id in h.processing && id !in h.events)
  }

  predicate EverDropped(h: Hub, actions: seq<Action>, id: Id)
    decreases |actions|
  {
    |actions| > 0 && (Drops(h, actions[0], id) || EverDropped(Apply(h, actions[0]), actions[1..], id))
  }

  /** Live, neither queued nor running, and not ended. */
  predicate Loose(h: Hub, id: Id) { id in Live(h) && id !in Active(h) && !Terminal(h, id) }

  lemma {:induction false} SweepKeepsRecords(h: Hub, now: int, order: seq<Id>)
    ensures var r := Sweep(h, now, order);
      && r.used == h.used && r.admission == h.admission && Active(r) == Active(h)
      && (forall id :: id in r.events ==> id in h.events && r.events[id] == h.events[id])
    decreases |order|
  {
    if |order| > 0 { SweepKeepsRecords(if DueNow(h, now, order[0]) then Retire(h, order[0]) else h, now, order[1..]); }
  }

  /** Live ids were handed out, an event being admitted is not in the map yet, and active events are live. */
  predicate Tidy(h: Hub) {
    && Live(h) <= h.used && Active(h) <= Live(h)
    && (h.admission.Accepted? ==> h.admission.id !in h.events)
  }

  lemma SafeIsTidy(h: Hub)
    requires Safe(h)
    ensures Tidy(h)
  {
  }

  /** What a step may do to one event, given whether it ends or drops it: ids are never used again, an event that stays
      is terminal exactly if it was or is ended now, and it is loose only if it was or is dropped now. */
  predicate Follows(h: Hub, g: Hub, id: Id, settles: bool, drops: bool) {
    && (id in h.used ==> id in g.used && (id !in Live(h) ==> id !in Live(g)))
    && (id in Live(g) ==> (Terminal(g, id) <==> Terminal(h, id) || settles))
    && (Loose(g, id) ==> Loose(h, id) || drops)
  }

  /** The parts of a hub that say what becomes of an event. */
  predicate SameRecords(h: Hub, g: Hub) {
    h.events == g.events && h.admission == g.admission && Active(h) == Active(g) && h.used == g.used
  }

  lemma PruneFollows(h: Hub, now: int, order: seq<Id>, id: Id)
    requires Tidy(h)
    ensures Follows(h, Sweep(h, now, order), id, false, false)
  {
    SweepKeepsRecords(h, now, order);
  }

  lemma BeginPushFollows(h: Hub, session: Handle, now: int, order: seq<Id>, id: Id)
    requires Tidy(h) && h.admission.Free?
    ensures Follows(h, BeginPush(h, session, now, order), id, false, false)
  {
    SweepKeepsRecords(h, now, order);
  }

  lemma MarkFollows(h: Hub, x: Id, now: int, id: Id)
    requires Tidy(h)
    ensures Tidy(Mark(h, x, now)) && Follows(h, Mark(h, x, now), id, id == x && id in h.events, false)
  {
    assert Mark(h, x, now).events.Keys == h.events.Keys;
  }

  lemma CleanFollows(h: Hub, x: Id, now: int, order: seq<Id>, id: Id)
    requires Tidy(h)
    ensures Follows(h, Clean(h, x, now, order), id, id == x && id in h.events && id !in Active(h), false)
  {
    var g := if x in Active(h) then h else Mark(h, x, now);
    MarkFollows(h, x, now, id);
    PruneFollows(g, now, order, id);
    SweepKeepsRecords(g, now, order);
  }

  lemma RemoveFollows(h: Hub, x: Id, id: Id)
    requires Tidy(h)
    ensures Follows(h, Remove(h, x), id, false, false)
  {
  }

  lemma EndFollows(h: Hub, x: Id, now: int, id: Id)
    requires Tidy(h)
    ensures Follows(h, Mark(h.(processing := h.processing - {x}), x, now), id, id == x && id in h.events,
                    id == x && id in h.processing && id !in h.events)
  {
  }

  lemma AcceptFollows(h: Hub, x: Id, id: Id)
    requires Tidy(h) && h.admission.Checking? && x !in h.used
    ensures Follows(h, AcceptPush(h, x), id, false, false)
  {
  }

  lemma FinishFollows(h: Hub, id: Id)
    requires Tidy(h) && h.admission.Accepted?
    ensures Follows(h, FinishPush(h), id, false, false)
  {
  }

  lemma WorkFollows(h: Hub, processing: set<Id>, waiting: set<Id>, id: Id, drops: bool)
    requires Tidy(h) && (id in Active(h) && id !in processing + waiting ==> drops)
    ensures Follows(h, h.(processing := processing, waiting := waiting), id, false, drops)
  {
  }

  lemma SameFollows(h: Hub, g: Hub, id: Id)
    requires SameRecords(h, g)
    ensures Follows(h, g, id, false, false)
  {
  }

  lemma StepFollows(h: Hub, a: Action, id: Id)
    requires Tidy(h)
    ensures Follows(h, Apply(h, a), id, Enabled(h, a) && Settles(h, a, id), Enabled(h, a) && Drops(h, a, id))
  {
    if !Enabled(h, a) {
      SameFollows(h, h, id);
    } else {
      match a
      case DoBeginPush(s, now, order) => BeginPushFollows(h, s, now, order, id);
      case DoAcceptPush(x) => AcceptFollows(h, x, id);
      case DoAbandonPush =>
      case DoFinishPush => FinishFollows(h, id);
      case DoSend(s, item) => SameFollows(h, Send(h, s, item), id);
      case DoRead(s) => SameFollows(h, Read(h, s), id);
      case DoDequeue(x) => WorkFollows(h, h.processing, h.waiting - {x}, id, id == x && id in h.waiting);
      case DoBeginProcess(x) => WorkFollows(h, h.processing + {x}, h.waiting - {x}, id, false);
      case DoEndProcess(x, now) => EndFollows(h, x, now, id);
      case DoPrune(now, order) => PruneFollows(h, now, order, id);
      case DoClean(x, now, order) => CleanFollows(h, x, now, order, id);
      case DoRemove(x) => RemoveFollows(h, x, id);
    }
  }

  lemma {:induction false} GoneForever(h: Hub, actions: seq<Action>, id: Id)
    requires Safe(h) && id in h.used && id !in Live(h)
    ensures id !in ApplyAll(h, actions).events
    decreases |actions|
  {
    if |actions| > 0 {
      SafeIsTidy(h);
      ApplyIsSafe(h, actions[0]);
      StepFollows(h, actions[0], id);
      GoneForever(Apply(h, actions[0]), actions[1..], id);
    }
  }

  lemma {:induction false} RunTerminal(h: Hub, actions: seq<Action>, id: Id)
    requires Safe(h) && id in ApplyAll(h, actions).events
    ensures Terminal(ApplyAll(h, actions), id) <==> Terminal(h, id) || EverSettled(h, actions, id)
    decreases |actions|
  {
    if |actions| > 0 {
      var g := Apply(h, actions[0]);
      SafeIsTidy(h);
      ApplyIsSafe(h, actions[0]);
      StepFollows(h, actions[0], id);
      if id in g.used && id !in Live(g) { GoneForever(g, actions[1..], id); }
      RunTerminal(g, actions[1..], id);
    }
  }

  lemma {:induction false} RunLoose(h: Hub, actions: seq<Action>, id: Id)
    requires Safe(h) && Loose(ApplyAll(h, actions), id)
    ensures Loose(h, id) || EverDropped(h, actions, id)
    decreases |actions|
  {
    if |actions| > 0 {
      var g := Apply(h, actions[0]);
      ApplyIsSafe(h, actions[0]);
      SafeIsTidy(h);
      RunLoose(g, actions[1..], id);
      StepFollows(h, actions[0], id);
    }
  }

  /** Over every interleaving, a retained event that is neither queued nor running lacks its terminal time exactly if it
      was dropped and never ended since; only then will no pruning ever retire it. */
  lemma IdleIsTerminalUnless(maximum: nat, ttl: nat, actions: seq<Action>, id: Id)
    requires var h := ApplyAll(Start(maximum, ttl), actions); id in h.events && id !in Active(h)
    ensures var h := ApplyAll(Start(maximum, ttl), actions);
      !Terminal(h, id) <==>
        EverDropped(Start(maximum, ttl), actions, id) && !EverSettled(Start(maximum, ttl), actions, id)
  {
    var start := Start(maximum, ttl);
    StartIsSafe(maximum, ttl);
    RunTerminal(start, actions, id);
    if !Terminal(ApplyAll(start, actions), id) { RunLoose(start, actions, id); }
  }

  /** The callback has run before `push` enters its event into the map. */
  function EarlyEnd(s: Handle, id: Id, at: int): seq<Action> {
    [DoBeginPush(s, at, []), DoAcceptPush(id), DoBeginProcess(id), DoEndProcess(id, at), DoFinishPush]
  }

  /** An event that has run before `push` entered it is such a one, and no pruning retires it. */
  lemma EarlyEndIsNeverPruned(maximum: nat, ttl: nat, s: Handle, id: Id, at: int, now: int, order: seq<Id>)
    requires maximum > 0
    ensures var h := ApplyAll(Start(maximum, ttl), EarlyEnd(s, id, at));
      && id in h.events && id !in Active(h) && !Terminal(h, id) && id in Sweep(h, now, order).events
  {
    var run := EarlyEnd(s, id, at);
    var h0 := Start(maximum, ttl);
    var h1 := Apply(h0, run[0]);
    assert h1 == h0.(admission := Checking(s));
    var h2 := Apply(h1, run[1]);
    var h3 := Apply(h2, run[2]);
    var h4 := Apply(h3, run[3]);
    var h5 := Apply(h4, run[4]);
    assert h5.events == map[id := Retained(s, None)] && Active(h5) == {};
    ApplyFive(h0, run[0], run[1], run[2], run[3], run[4]);
    SweepRetiresDue(h5, now, order);
  }

  lemma ApplyNext(h: Hub, a: Action, rest: seq<Action>)
    ensures ApplyAll(h, [a] + rest) == ApplyAll(Apply(h, a), rest)
  {
    assert ([a] + rest)[1..] == rest;
  }

  lemma ApplyFive(h: Hub, a: Action, b: Action, c: Action, d: Action, e: Action)
    ensures ApplyAll(h, [a, b, c, d, e]) == Apply(Apply(Apply(Apply(Apply(h, a), b), c), d), e)
  {
    ApplyNext(h, a, [b, c, d, e]);
    ApplyNext(Apply(h, a), b, [c, d, e]);
    ApplyNext(Apply(Apply(h, a), b), c, [d, e]);
    ApplyNext(Apply(Apply(Apply(h, a), b), c), d, [e]);
    ApplyNext(Apply(Apply(Apply(Apply(h, a), b), c), d), e, []);
  }
}
