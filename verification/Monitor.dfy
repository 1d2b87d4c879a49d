/** `AvailabilityMonitor` of src/app/availability.py: a ring of one-second buckets that must agree with the
    whole log of observations, and the sampling of anonymous denials. */
module Monitor {
  import opened Prelude

  const WINDOW := 60

  /** One response start, or an interrupted request (`status` is None); `millis` is None when not finite. */
  datatype Observation = Observation(second: int, status: Option<int>, millis: Option<real>, streaming: bool)

  /** Everything a bucket counts: six status classes, two kinds, six latency ranges, throttled responses
      and the total latency. */
  datatype Label = Status(index: nat) | Stream | Regular | Latency(index: nat) | Throttled | TotalMillis

  const UNANSWERED: nat := 5

  function StatusIndex(status: Option<int>): nat {
    if status.Some? && 100 <= status.value <= 599 then status.value / 100 - 1 else UNANSWERED
  }

  function Millis(o: Observation): real {
    if o.millis.Some? && o.millis.value >= 0.0 then o.millis.value else 0.0
  }

  /** The first range whose upper bound is not exceeded. */
  function LatencyIndex(ms: real): nat {
    if ms <= 100.0 then 0 else if ms <= 500.0 then 1 else if ms <= 1000.0 then 2
    else if ms <= 5000.0 then 3 else if ms <= 10000.0 then 4 else 5
  }

  /** What one observation contributes to a label. */
  function Contribution(o: Observation, l: Label): real {
    var answered := StatusIndex(o.status) != UNANSWERED;
    match l
    case Status(i) => if StatusIndex(o.status) == i then 1.0 else 0.0
    case Stream => if o.streaming then 1.0 else 0.0
    case Regular => if o.streaming then 0.0 else 1.0
    case Latency(i) => if answered && LatencyIndex(Millis(o)) == i then 1.0 else 0.0
    case Throttled => if o.status == Some(429) || o.status == Some(503) then 1.0 else 0.0
    case TotalMillis => if answered then Millis(o) else 0.0
  }

  // ---------------------------------------------------------------- the log

  predicate InWindow(second: int, at: int) { at - WINDOW < second <= at }

  /** The aggregate of the whole log over the last sixty one-second buckets. */
  function LogSum(log: seq<Observation>, at: int, l: Label): real {
    if |log| == 0 then 0.0
    else
      var o := log[|log| - 1];
      LogSum(log[..|log| - 1], at, l) + if InWindow(o.second, at) then Contribution(o, l) else 0.0
  }

  // ---------------------------------------------------------------- the ring

  datatype Bucket = Bucket(
    second: int, statuses: seq<nat>, regular: nat, stream: nat, latencies: seq<nat>, totalMillis: real, throttled: nat)
  {
    predicate Valid() { |statuses| == 6 && |latencies| == 6 }
  }

  const Empty := Bucket(-1, [0, 0, 0, 0, 0, 0], 0, 0, [0, 0, 0, 0, 0, 0], 0.0, 0)

  function Field(b: Bucket, l: Label): real
    requires b.Valid()
  {
    match l
    case Status(i) => if i < 6 then b.statuses[i] as real else 0.0
    case Stream => b.stream as real
    case Regular => b.regular as real
    case Latency(i) => if i < 6 then b.latencies[i] as real else 0.0
    case Throttled => b.throttled as real
    case TotalMillis => b.totalMillis
  }

  /** The bucket after one more observation. */
  function Counted(b: Bucket, o: Observation): Bucket
    requires b.Valid()
  {
    var status, latency := StatusIndex(o.status), LatencyIndex(Millis(o));
    var answered := status != UNANSWERED;
    b.(statuses := b.statuses[status := b.statuses[status] + 1],
       stream := if o.streaming then b.stream + 1 else b.stream,
       regular := if o.streaming then b.regular else b.regular + 1,
       throttled := if o.status == Some(429) || o.status == Some(503) then b.throttled + 1 else b.throttled,
       totalMillis := if answered then b.totalMillis + Millis(o) else b.totalMillis,
       latencies := if answered then b.latencies[latency := b.latencies[latency] + 1] else b.latencies)
  }

  lemma CountedAdds(b: Bucket, o: Observation, l: Label)
    requires b.Valid()
    ensures Counted(b, o).Valid() && Field(Counted(b, o), l) == Field(b, l) + Contribution(o, l)
  {
  }

  function Share(b: Bucket, at: int, l: Label): real
    requires b.Valid()
  {
    if InWindow(b.second, at) then Field(b, l) else 0.0
  }

  predicate AllValid(ring: seq<Bucket>) { forall i :: 0 <= i < |ring| ==> ring[i].Valid() }

  /** What `snapshot` adds up: the current buckets among the first `n`. */
  function RingSum(ring: seq<Bucket>, n: nat, at: int, l: Label): real
    requires AllValid(ring) && n <= |ring|
  {
    if n == 0 then 0.0 else RingSum(ring, n - 1, at, l) + Share(ring[n - 1], at, l)
  }

  lemma {:induction false} RingSumUpdate(ring: seq<Bucket>, i: nat, b: Bucket, n: nat, at: int, l: Label)
    requires AllValid(ring) && b.Valid() && i < |ring| && n <= |ring|
    ensures AllValid(ring[i := b])
    ensures RingSum(ring[i := b], n, at, l) ==
            RingSum(ring, n, at, l) + if i < n then Share(b, at, l) - Share(ring[i], at, l) else 0.0
  {
    if n > 0 { RingSumUpdate(ring, i, b, n - 1, at, l); }
  }

  lemma {:induction false} EmptyRing(ring: seq<Bucket>, n: nat, at: int, l: Label)
    requires AllValid(ring) && n <= |ring| && forall i :: 0 <= i < |ring| ==> ring[i] == Empty
    ensures RingSum(ring, n, at, l) == 0.0
  {
    if n > 0 { EmptyRing(ring, n - 1, at, l); }
  }

  // ---------------------------------------------------------------- what the ring remembers

  predicate SameSlot(a: int, b: int) { a % WINDOW == b % WINDOW }

  /** One observation takes the slot of another second. */
  predicate Displaces(o: Observation, x: Observation) { SameSlot(o.second, x.second) && o.second != x.second }

  function Evicted(kept: seq<Observation>, o: Observation): seq<Observation> {
    if |kept| == 0 then []
    else
      var x := kept[|kept| - 1];
      Evicted(kept[..|kept| - 1], o) + if Displaces(o, x) then [] else [x]
  }

  /** The observations whose slot was not taken over since, in whatever order the seconds came. */
  function Survivors(log: seq<Observation>): seq<Observation> {
    if |log| == 0 then [] else Evicted(Survivors(log[..|log| - 1]), log[|log| - 1]) + [log[|log| - 1]]
  }

  /** What a slot holds of the surviving observations. */
  function SlotSum(kept: seq<Observation>, slot: int, l: Label): real {
    if |kept| == 0 then 0.0
    else
      var o := kept[|kept| - 1];
      SlotSum(kept[..|kept| - 1], slot, l) + if o.second % WINDOW == slot then Contribution(o, l) else 0.0
  }

  /** A slot holds one second, and counts the survivors of that second. */
  ghost predicate SlotHolds(b: Bucket, slot: int, kept: seq<Observation>)
    requires b.Valid()
  {
    && (forall i :: 0 <= i < |kept| && kept[i].second % WINDOW == slot ==> kept[i].second == b.second)
    && (forall l: Label :: Field(b, l) == SlotSum(kept, slot, l))
  }

  predicate RingShape(ring: seq<Bucket>) { |ring| == WINDOW && AllValid(ring) }

  ghost predicate SlotsHold(ring: seq<Bucket>, kept: seq<Observation>)
    requires RingShape(ring)
  {
    forall slot :: 0 <= slot < WINDOW ==> SlotHolds(ring[slot], slot, kept)
  }

  /** Every snapshot of the ring is the aggregate of the given observations. */
  ghost predicate Sums(ring: seq<Bucket>, kept: seq<Observation>)
    requires RingShape(ring)
  {
    forall at: int, l: Label :: RingSum(ring, WINDOW, at, l) == LogSum(kept, at, l)
  }

  ghost predicate Remembers(ring: seq<Bucket>, kept: seq<Observation>) {
    RingShape(ring) && SlotsHold(ring, kept) && Sums(ring, kept)
  }

  /** The bucket that an observation is counted in. */
  function Slot(ring: seq<Bucket>, o: Observation): (b: Bucket)
    requires RingShape(ring)
    ensures b.Valid() && b.second == o.second
  {
    var was := ring[o.second % WINDOW];
    if was.second == o.second then was else Empty.(second := o.second)
  }

  function Observed(ring: seq<Bucket>, o: Observation): (r: seq<Bucket>)
    requires RingShape(ring)
    ensures RingShape(r)
  {
    CountedAdds(Slot(ring, o), o, Stream);
    ring[o.second % WINDOW := Counted(Slot(ring, o), o)]
  }

  lemma EvictedStep(kept: seq<Observation>, o: Observation)
    requires |kept| > 0
    ensures var n := |kept| - 1;
      Evicted(kept, o) == if Displaces(o, kept[n]) then Evicted(kept[..n], o) else Evicted(kept[..n], o) + [kept[n]]
  {
  }

  lemma LogSumAppend(log: seq<Observation>, o: Observation, at: int, l: Label)
    ensures LogSum(log + [o], at, l) == LogSum(log, at, l) + if InWindow(o.second, at) then Contribution(o, l) else 0.0
  {
    assert (log + [o])[..|log|] == log;
  }

  lemma SlotSumAppend(kept: seq<Observation>, o: Observation, slot: int, l: Label)
    ensures SlotSum(kept + [o], slot, l)
         == SlotSum(kept, slot, l) + if o.second % WINDOW == slot then Contribution(o, l) else 0.0
  {
    assert (kept + [o])[..|kept|] == kept;
  }

  /** Only the slot of the observation is evicted, and it holds one second. */
  lemma {:induction false} EvictedSum(kept: seq<Observation>, o: Observation, was: int, at: int, l: Label)
    requires forall i :: 0 <= i < |kept| && SameSlot(kept[i].second, o.second) ==> kept[i].second == was
    ensures LogSum(Evicted(kept, o), at, l) == LogSum(kept, at, l)
              - if was != o.second && InWindow(was, at) then SlotSum(kept, o.second % WINDOW, l) else 0.0
  {
    if |kept| > 0 {
      var n := |kept| - 1;
      EvictedSum(kept[..n], o, was, at, l);
      EvictedStep(kept, o);
      LogSumAppend(Evicted(kept[..n], o), kept[n], at, l);
    }
  }

  lemma {:induction false} EvictedSlotSum(kept: seq<Observation>, o: Observation, was: int, slot: int, l: Label)
    requires forall i :: 0 <= i < |kept| && SameSlot(kept[i].second, o.second) ==> kept[i].second == was
    ensures SlotSum(Evicted(kept, o), slot, l) ==
              if slot == o.second % WINDOW && was != o.second then 0.0 else SlotSum(kept, slot, l)
  {
    if |kept| > 0 {
      var n := |kept| - 1;
      EvictedSlotSum(kept[..n], o, was, slot, l);
      EvictedStep(kept, o);
      SlotSumAppend(Evicted(kept[..n], o), kept[n], slot, l);
    }
  }

  lemma {:induction false} EvictedMember(kept: seq<Observation>, o: Observation, x: Observation)
    ensures x in Evicted(kept, o) <==> x in kept && !Displaces(o, x)
  {
    if |kept| > 0 {
      EvictedMember(kept[..|kept| - 1], o, x);
      assert kept == kept[..|kept| - 1] + [kept[|kept| - 1]];
    }
  }

  /** The second of a survivor is the one its slot holds. */
  lemma ObservedSecond(ring: seq<Bucket>, kept: seq<Observation>, o: Observation, x: Observation)
    requires RingShape(ring) && SlotHolds(ring[x.second % WINDOW], x.second % WINDOW, kept)
    requires x == o || x in Evicted(kept, o)
    ensures x.second == Observed(ring, o)[x.second % WINDOW].second
  {
    EvictedMember(kept, o, x);
    CountedAdds(Slot(ring, o), o, Stream);
    if x.second != o.second { assert !SameSlot(o.second, x.second); }
  }

  lemma ObservedField(ring: seq<Bucket>, kept: seq<Observation>, o: Observation, slot: int, l: Label)
    requires RingShape(ring) && 0 <= slot < WINDOW
    requires SlotHolds(ring[slot], slot, kept) && SlotHolds(ring[o.second % WINDOW], o.second % WINDOW, kept)
    ensures Field(Observed(ring, o)[slot], l) == SlotSum(Evicted(kept, o) + [o], slot, l)
  {
    SlotSumAppend(Evicted(kept, o), o, slot, l);
    EvictedSlotSum(kept, o, ring[o.second % WINDOW].second, slot, l);
    CountedAdds(Slot(ring, o), o, l);
  }

  /** The slots after one observation. */
  lemma ObservedSlots(ring: seq<Bucket>, kept: seq<Observation>, o: Observation)
    requires RingShape(ring) && SlotsHold(ring, kept)
    ensures SlotsHold(Observed(ring, o), Evicted(kept, o) + [o])
  {
    var kept' := Evicted(kept, o) + [o];
    forall slot | 0 <= slot < WINDOW ensures SlotHolds(Observed(ring, o)[slot], slot, kept') {
      assert SlotHolds(ring[slot], slot, kept);
      forall i | 0 <= i < |kept'| && kept'[i].second % WINDOW == slot
        ensures kept'[i].second == Observed(ring, o)[slot].second
      {
        ObservedSecond(ring, kept, o, kept'[i]);
      }
      forall l: Label ensures Field(Observed(ring, o)[slot], l) == SlotSum(kept', slot, l) {
        ObservedField(ring, kept, o, slot, l);
      }
    }
  }

  /** The sums after one observation. */
  lemma ObservedSums(ring: seq<Bucket>, kept: seq<Observation>, o: Observation)
    requires RingShape(ring) && SlotsHold(ring, kept) && Sums(ring, kept)
    ensures Sums(Observed(ring, o), Evicted(kept, o) + [o])
  {
    assert SlotHolds(ring[o.second % WINDOW], o.second % WINDOW, kept);
    forall at: int, l: Label
      ensures RingSum(Observed(ring, o), WINDOW, at, l) == LogSum(Evicted(kept, o) + [o], at, l)
    {
      ObservedSum(ring, kept, o, at, l);
    }
  }

  lemma ObservedSum(ring: seq<Bucket>, kept: seq<Observation>, o: Observation, at: int, l: Label)
    requires RingShape(ring) && SlotHolds(ring[o.second % WINDOW], o.second % WINDOW, kept)
    requires RingSum(ring, WINDOW, at, l) == LogSum(kept, at, l)
    ensures RingSum(Observed(ring, o), WINDOW, at, l) == LogSum(Evicted(kept, o) + [o], at, l)
  {
    var i := o.second % WINDOW;
    LogSumAppend(Evicted(kept, o), o, at, l);
    EvictedSum(kept, o, ring[i].second, at, l);
    CountedAdds(Slot(ring, o), o, l);
    RingSumUpdate(ring, i, Counted(Slot(ring, o), o), WINDOW, at, l);
  }

  /** One more observation, whatever its second: the ring goes on remembering the survivors of the log. */
  lemma ObservedRemembers(ring: seq<Bucket>, log: seq<Observation>, o: Observation)
    requires Remembers(ring, Survivors(log))
    ensures Remembers(Observed(ring, o), Survivors(log + [o]))
  {
    assert (log + [o])[..|log|] == log;
    ObservedSlots(ring, Survivors(log), o);
    ObservedSums(ring, Survivors(log), o);
  }

  // ---------------------------------------------------------------- when nothing is forgotten

  /** Some observation of the window lost its slot to a later one. */
  predicate Forgets(log: seq<Observation>, at: int) {
    exists i, j :: 0 <= i < j < |log| && InWindow(log[i].second, at) && Displaces(log[j], log[i])
  }

  function Requests(log: seq<Observation>, at: int): real { LogSum(log, at, Regular) + LogSum(log, at, Stream) }

  lemma RequestsAppend(log: seq<Observation>, o: Observation, at: int)
    ensures Requests(log + [o], at) == Requests(log, at) + if InWindow(o.second, at) then 1.0 else 0.0
  {
    LogSumAppend(log, o, at, Regular);
    LogSumAppend(log, o, at, Stream);
  }

  lemma {:induction false} EvictedIsNoMore(kept: seq<Observation>, o: Observation, at: int)
    ensures Requests(Evicted(kept, o), at) <= Requests(kept, at)
  {
    if |kept| > 0 {
      var front, x := kept[..|kept| - 1], kept[|kept| - 1];
      EvictedIsNoMore(front, o, at);
      EvictedStep(kept, o);
      assert kept == front + [x];
      RequestsAppend(front, x, at);
      RequestsAppend(Evicted(front, o), x, at);
    }
  }

  lemma {:induction false} EvictedIsLess(kept: seq<Observation>, o: Observation, at: int, i: nat)
    requires i < |kept| && InWindow(kept[i].second, at) && Displaces(o, kept[i])
    ensures Requests(Evicted(kept, o), at) < Requests(kept, at)
  {
    var front, x := kept[..|kept| - 1], kept[|kept| - 1];
    EvictedStep(kept, o);
    assert kept == front + [x];
    RequestsAppend(front, x, at);
    RequestsAppend(Evicted(front, o), x, at);
    if i < |front| { EvictedIsLess(front, o, at, i); } else { EvictedIsNoMore(front, o, at); }
  }

  lemma {:induction false} EvictedOutside(kept: seq<Observation>, o: Observation, at: int, l: Label)
    requires forall x :: x in kept && Displaces(o, x) ==> !InWindow(x.second, at)
    ensures LogSum(Evicted(kept, o), at, l) == LogSum(kept, at, l)
  {
    if |kept| > 0 {
      var n := |kept| - 1;
      EvictedOutside(kept[..n], o, at, l);
      EvictedStep(kept, o);
      LogSumAppend(Evicted(kept[..n], o), kept[n], at, l);
    }
  }

  lemma {:induction false} SurvivorsAreLogged(log: seq<Observation>, x: Observation)
    requires x in Survivors(log)
    ensures x in log
  {
    var front, o := log[..|log| - 1], log[|log| - 1];
    if x != o {
      EvictedMember(Survivors(front), o, x);
      SurvivorsAreLogged(front, x);
    }
  }

  lemma {:induction false} UnforgottenSurvives(log: seq<Observation>, at: int, x: Observation)
    requires !Forgets(log, at) && x in log && InWindow(x.second, at)
    ensures x in Survivors(log)
  {
    var front, o := log[..|log| - 1], log[|log| - 1];
    if x != o {
      assert x in front by { assert log == front + [o]; }
      if Forgets(front, at) { ForgetsEarlier(log, at); }
      if Displaces(o, x) { ForgetsNow(log, at); }
      UnforgottenSurvives(front, at, x);
      EvictedMember(Survivors(front), o, x);
    }
  }

  /** The last observation displaces one of the window. */
  predicate LastForgets(log: seq<Observation>, at: int)
    requires |log| > 0
  {
    exists x :: x in log[..|log| - 1] && InWindow(x.second, at) && Displaces(log[|log| - 1], x)
  }

  lemma ForgetsEarlier(log: seq<Observation>, at: int)
    requires |log| > 0 && Forgets(log[..|log| - 1], at)
    ensures Forgets(log, at)
  {
    var n := |log| - 1;
    var i, j :| 0 <= i < j < n && InWindow(log[..n][i].second, at) && Displaces(log[..n][j], log[..n][i]);
    assert InWindow(log[i].second, at) && Displaces(log[j], log[i]);
  }

  lemma ForgetsNow(log: seq<Observation>, at: int)
    requires |log| > 0 && LastForgets(log, at)
    ensures Forgets(log, at)
  {
    var n := |log| - 1;
    var x :| x in log[..n] && InWindow(x.second, at) && Displaces(log[n], x);
    var i :| 0 <= i < n && log[..n][i] == x;
    assert InWindow(log[i].second, at) && Displaces(log[n], log[i]);
  }

  lemma ForgetsThen(log: seq<Observation>, at: int)
    requires |log| > 0 && Forgets(log, at)
    ensures Forgets(log[..|log| - 1], at) || LastForgets(log, at)
  {
    var n := |log| - 1;
    var i, j :| 0 <= i < j < |log| && InWindow(log[i].second, at) && Displaces(log[j], log[i]);
    assert log[..n][i] == log[i];
    if j < n { assert log[..n][j] == log[j]; } else { assert log[i] in log[..n]; }
  }

  lemma ForgetsStep(log: seq<Observation>, at: int)
    requires |log| > 0
    ensures Forgets(log, at) <==> Forgets(log[..|log| - 1], at) || LastForgets(log, at)
  {
    if Forgets(log, at) { ForgetsThen(log, at); }
    if Forgets(log[..|log| - 1], at) { ForgetsEarlier(log, at); }
    if LastForgets(log, at) { ForgetsNow(log, at); }
  }

  lemma {:induction false} RememberedSum(log: seq<Observation>, at: int, l: Label)
    requires !Forgets(log, at)
    ensures LogSum(Survivors(log), at, l) == LogSum(log, at, l)
  {
    if |log| > 0 {
      var n := |log| - 1;
      var kept := Survivors(log[..n]);
      ForgetsStep(log, at);
      RememberedSum(log[..n], at, l);
      forall x | x in kept && Displaces(log[n], x) ensures !InWindow(x.second, at) {
        SurvivorsAreLogged(log[..n], x);
      }
      EvictedOutside(kept, log[n], at, l);
      LogSumAppend(Evicted(kept, log[n]), log[n], at, l);
    }
  }

  lemma {:induction false} ForgottenIsMissed(log: seq<Observation>, at: int)
    ensures Requests(Survivors(log), at) <= Requests(log, at)
    ensures Forgets(log, at) ==> Requests(Survivors(log), at) < Requests(log, at)
  {
    if |log| > 0 {
      var n := |log| - 1;
      var front, o := log[..n], log[n];
      var kept := Survivors(front);
      ForgottenIsMissed(front, at);
      ForgetsStep(log, at);
      EvictedIsNoMore(kept, o, at);
      assert log == front + [o];
      RequestsAppend(front, o, at);
      RequestsAppend(Evicted(kept, o), o, at);
      if Forgets(log, at) && !Forgets(front, at) {
        var x :| x in front && InWindow(x.second, at) && Displaces(o, x);
        UnforgottenSurvives(front, at, x);
        var i :| 0 <= i < |kept| && kept[i] == x;
        EvictedIsLess(kept, o, at, i);
      }
    }
  }

  ghost predicate ShowsAll(log: seq<Observation>, at: int) {
    forall l: Label :: LogSum(Survivors(log), at, l) == LogSum(log, at, l)
  }

  /** The exact condition: a snapshot shows the whole log exactly when no observation of its window lost its slot. */
  lemma SnapshotIsTotalIff(log: seq<Observation>, at: int)
    ensures ShowsAll(log, at) <==> !Forgets(log, at)
  {
    if Forgets(log, at) { ForgottenIsMissed(log, at); }
    else {
      forall l: Label ensures LogSum(Survivors(log), at, l) == LogSum(log, at, l) { RememberedSum(log, at, l); }
    }
  }

  /** Threads read the clock before they take the lock, so seconds may arrive out of order.  As long as none is a whole
      window late, a snapshot that is not older than any of them shows everything. */
  lemma PromptIsTotal(log: seq<Observation>, at: int)
    requires forall i, j :: 0 <= i < j < |log| ==> log[j].second > log[i].second - WINDOW
    requires forall i :: 0 <= i < |log| ==> log[i].second <= at
    ensures !Forgets(log, at)
  {
    forall i, j | 0 <= i < j < |log| && InWindow(log[i].second, at) ensures !Displaces(log[j], log[i]) {
      if SameSlot(log[j].second, log[i].second) { ClosestInSlot(log[j].second, log[i].second); }
    }
  }

  /** A whole window late is too late: after a request of second 60 and a late one of second 0, a snapshot at second 60
      shows neither. */
  lemma LateObservationErases(now: Observation, late: Observation)
    requires now.second == 60 && late.second == 0
    ensures Forgets([now, late], 60)
    ensures Requests(Survivors([now, late]), 60) == 0.0 && Requests([now, late], 60) == 1.0
  {
    var log := [now, late];
    assert Displaces(late, now) && log[0] == now && log[1] == late;
    assert log[..1] == [now] && [now][..0] == [];
    assert Survivors([now]) == [now];
    assert Evicted([now], late) == [];
    assert Survivors(log) == [late];
    RequestsAppend([], now, 60);
    RequestsAppend([now], late, 60);
    RequestsAppend([], late, 60);
    assert [] + [now] == [now] && [now] + [late] == log && [] + [late] == [late];
  }

  /** Two seconds of one slot are equal or a whole window apart. */
  lemma ClosestInSlot(a: int, b: int)
    requires SameSlot(a, b)
    ensures a == b || a - b >= WINDOW || b - a >= WINDOW
  {
  }

  // ---------------------------------------------------------------- sampling of anonymous denials

  datatype Event = Login | Register | ResetRequest | Reset | Passkey | Other

  datatype Sample = Sample(last: real, suppressed: nat)

  type Samples = map<Event, Sample>

  /** One denial and its outcome: Some(n) is a stored sample that reports n suppressed ones. */
  datatype Denial = Denial(event: Event, at: real, outcome: Option<nat>)

  function Suppressed(samples: Samples, e: Event): nat { if e in samples then samples[e].suppressed else 0 }

  /** How much of the history a denial accounts for when it is stored: itself and what it reports. */
  function Accounted(h: seq<Denial>, e: Event): nat {
    if |h| == 0 then 0
    else
      var d := h[|h| - 1];
      Accounted(h[..|h| - 1], e) + if d.event == e && d.outcome.Some? then 1 + d.outcome.value else 0
  }

  function Denials(h: seq<Denial>, e: Event): nat {
    if |h| == 0 then 0 else Denials(h[..|h| - 1], e) + if h[|h| - 1].event == e then 1 else 0
  }

  /** `sample_anonymous_audit` as a function of the sample table. */
  function Sampled(samples: Samples, e: Event, now: real): (Samples, Option<nat>) {
    if e in samples && now - samples[e].last < 60.0
    then (samples[e := Sample(samples[e].last, samples[e].suppressed + 1)], None)
    else (samples[e := Sample(now, 0)], Some(Suppressed(samples, e)))
  }

  ghost predicate Conserved(samples: Samples, h: seq<Denial>) {
    forall e: Event :: Denials(h, e) == Accounted(h, e) + Suppressed(samples, e)
  }

  /** The last stored sample of an event, and a minute between any two. */
  ghost predicate Spaced(samples: Samples, h: seq<Denial>) {
    && (forall i :: 0 <= i < |h| && h[i].outcome.Some? ==> h[i].event in samples && h[i].at <= samples[h[i].event].last)
    && (forall i, j :: 0 <= i < j < |h| && h[i].event == h[j].event && h[i].outcome.Some? && h[j].outcome.Some? ==>
          h[j].at - h[i].at >= 60.0)
  }

  lemma SampledConserves(samples: Samples, h: seq<Denial>, e: Event, now: real)
    requires Conserved(samples, h) && Spaced(samples, h)
    ensures var r := Sampled(samples, e, now);
      Conserved(r.0, h + [Denial(e, now, r.1)]) && Spaced(r.0, h + [Denial(e, now, r.1)])
  {
    var r := Sampled(samples, e, now);
    var h' := h + [Denial(e, now, r.1)];
    assert h'[..|h|] == h;
    forall x: Event ensures Denials(h', x) == Accounted(h', x) + Suppressed(r.0, x) {
      assert Denials(h, x) == Accounted(h, x) + Suppressed(samples, x);
    }
  }

  function OverEvents(f: Event -> nat): nat {
    f(Login) + f(Register) + f(ResetRequest) + f(Reset) + f(Passkey) + f(Other)
  }

  function AccountedTotal(h: seq<Denial>): nat { OverEvents(e => Accounted(h, e)) }

  function SuppressedTotal(samples: Samples): nat { OverEvents(e => Suppressed(samples, e)) }

  lemma {:induction false} DenialsAddUp(h: seq<Denial>)
    ensures OverEvents(e => Denials(h, e)) == |h|
  {
    if |h| > 0 { DenialsAddUp(h[..|h| - 1]); }
  }

  /** Stored samples, what they reported and what is still suppressed make up all denials. */
  lemma AllDenialsAccounted(samples: Samples, h: seq<Denial>)
    requires Conserved(samples, h)
    ensures AccountedTotal(h) + SuppressedTotal(samples) == |h|
  {
    DenialsAddUp(h);
    forall e: Event ensures Denials(h, e) == Accounted(h, e) + Suppressed(samples, e) {}
  }

  // ---------------------------------------------------------------- the object

  datatype Alert =
    | Overload(count: real) | ServerErrors(count: real) | Unanswered(count: real) | SlowHeaders(count: real)

  datatype Report = Report(
    requests: real, responses: real, statuses: seq<real>, regular: real, stream: real, latencies: seq<real>,
    average: real, throttled: real, slow: real, suppressed: nat, alerts: seq<Alert>)

  predicate Answered(o: Observation) { StatusIndex(o.status) != UNANSWERED }

  /** How many observations of the window pass. */
  function CountIf(log: seq<Observation>, at: int, p: Observation -> bool): real {
    if |log| == 0 then 0.0
    else
      var o := log[|log| - 1];
      CountIf(log[..|log| - 1], at, p) + if InWindow(o.second, at) && p(o) then 1.0 else 0.0
  }

  /** The six status classes count every request once, and the three upper latency ranges every slow response. */
  lemma {:induction false} DerivedTotals(log: seq<Observation>, at: int)
    ensures LogSum(log, at, Status(0)) + LogSum(log, at, Status(1)) + LogSum(log, at, Status(2))
          + LogSum(log, at, Status(3)) + LogSum(log, at, Status(4)) == CountIf(log, at, Answered)
    ensures LogSum(log, at, Status(5)) == CountIf(log, at, o => !Answered(o))
    ensures CountIf(log, at, Answered) + CountIf(log, at, o => !Answered(o)) == CountIf(log, at, _ => true)
    ensures LogSum(log, at, Latency(3)) + LogSum(log, at, Latency(4)) + LogSum(log, at, Latency(5))
         == CountIf(log, at, o => Answered(o) && Millis(o) > 1000.0)
  {
    if |log| > 0 { DerivedTotals(log[..|log| - 1], at); }
  }

  /** The figures of a report, as counts of the observations it is about. */
  ghost predicate Figures(r: Report, log: seq<Observation>, at: int) {
    PlainFigures(r, log, at) && CountFigures(r, log, at)
  }

  ghost predicate PlainFigures(r: Report, log: seq<Observation>, at: int) {
    && |r.statuses| == 6 && (forall i :: 0 <= i < 6 ==> r.statuses[i] == LogSum(log, at, Status(i)))
    && |r.latencies| == 6 && (forall i :: 0 <= i < 6 ==> r.latencies[i] == LogSum(log, at, Latency(i)))
    && r.regular == LogSum(log, at, Regular) && r.stream == LogSum(log, at, Stream)
    && r.throttled == LogSum(log, at, Throttled)
  }

  ghost predicate CountFigures(r: Report, log: seq<Observation>, at: int) {
    && r.requests == CountIf(log, at, _ => true) && r.responses == CountIf(log, at, Answered)
    && r.slow == CountIf(log, at, o => Answered(o) && Millis(o) > 1000.0)
    && r.average * r.responses == LogSum(log, at, TotalMillis) && (r.responses == 0.0 ==> r.average == 0.0)
  }

  /** Each alert is raised exactly at its threshold, with its own count, and nothing else is. */
  predicate Alarms(r: Report)
    requires |r.statuses| == 6
  {
    && (Overload(r.throttled) in r.alerts <==> r.throttled >= 5.0)
    && (ServerErrors(r.statuses[4]) in r.alerts <==> r.statuses[4] >= 5.0 && r.statuses[4] >= r.responses * 0.1)
    && (Unanswered(r.statuses[5]) in r.alerts <==> r.statuses[5] >= 5.0)
    && (SlowHeaders(r.slow) in r.alerts <==> r.responses >= 20.0 && r.slow >= r.responses * 0.2)
    && (forall a :: a in r.alerts ==>
          a in {Overload(r.throttled), ServerErrors(r.statuses[4]), Unanswered(r.statuses[5]), SlowHeaders(r.slow)})
  }

  /** Without responses there is no latency to add up. */
  lemma {:induction false} NoResponsesNoLatency(log: seq<Observation>, at: int)
    ensures CountIf(log, at, Answered) >= 0.0
    ensures CountIf(log, at, Answered) == 0.0 ==> LogSum(log, at, TotalMillis) == 0.0
  {
    if |log| > 0 { NoResponsesNoLatency(log[..|log| - 1], at); }
  }

  function Average(total: real, responses: real): (a: real)
    ensures responses != 0.0 ==> a * responses == total
    ensures responses == 0.0 ==> a == 0.0
  {
    if responses == 0.0 then 0.0 else total / responses
  }

  /** The sums that `snapshot` derives from the plain figures are counts. */
  lemma DerivedFigures(r: Report, total: real, log: seq<Observation>, at: int)
    requires PlainFigures(r, log, at) && total == LogSum(log, at, TotalMillis)
    requires r.requests
          == r.statuses[0] + r.statuses[1] + r.statuses[2] + r.statuses[3] + r.statuses[4] + r.statuses[5]
    requires r.responses == r.requests - r.statuses[5] && r.average == Average(total, r.responses)
    requires r.slow == r.latencies[3] + r.latencies[4] + r.latencies[5]
    ensures CountFigures(r, log, at)
  {
    DerivedTotals(log, at);
    NoResponsesNoLatency(log, at);
  }

  /** The four checks of `snapshot`. */
  method AlertsFor(throttled: real, errors: real, unanswered: real, responses: real, slow: real)
    returns (alerts: seq<Alert>)
    ensures Overload(throttled) in alerts <==> throttled >= 5.0
    ensures ServerErrors(errors) in alerts <==> errors >= 5.0 && errors >= responses * 0.1
    ensures Unanswered(unanswered) in alerts <==> unanswered >= 5.0
    ensures SlowHeaders(slow) in alerts <==> responses >= 20.0 && slow >= responses * 0.2
    ensures forall a :: a in alerts ==>
      a in {Overload(throttled), ServerErrors(errors), Unanswered(unanswered), SlowHeaders(slow)}
  {
    alerts := [];
    if throttled >= 5.0 { alerts := alerts + [Overload(throttled)]; }
    if errors >= 5.0 && errors >= responses * 0.1 { alerts := alerts + [ServerErrors(errors)]; }
    if unanswered >= 5.0 { alerts := alerts + [Unanswered(unanswered)]; }
    if responses >= 20.0 && slow >= responses * 0.2 { alerts := alerts + [SlowHeaders(slow)]; }
  }

  /** A log that forgets nothing has the figures of its survivors. */
  lemma FiguresOfWholeLog(r: Report, log: seq<Observation>, at: int)
    requires Figures(r, Survivors(log), at) && !Forgets(log, at)
    ensures Figures(r, log, at)
  {
    SnapshotIsTotalIff(log, at);
    DerivedTotals(log, at);
    DerivedTotals(Survivors(log), at);
  }

  class AvailabilityMonitor {
    const buckets: array<Bucket>
    var samples: Samples
    ghost var log: seq<Observation>
    ghost var denials: seq<Denial>

    ghost predicate Valid()
      reads this, buckets
    {
      Remembers(buckets[..], Survivors(log)) && Conserved(samples, denials) && Spaced(samples, denials)
    }

    constructor ()
      ensures Valid() && fresh(buckets) && log == [] && samples == map[] && denials == []
    {
      buckets := new Bucket[WINDOW](i => Empty);
      samples, log, denials := map[], [], [];
      new;
      forall at: int, l: Label ensures RingSum(buckets[..], WINDOW, at, l) == 0.0 {
        EmptyRing(buckets[..], WINDOW, at, l);
      }
    }

    /** `observe_response`, on any second. */
    method ObserveResponse(o: Observation)
      requires Valid()
      modifies this`log, buckets
      ensures Valid() && log == old(log) + [o]
    {
      ObservedRemembers(buckets[..], log, o);
      ghost var next := Observed(buckets[..], o);
      var index := o.second % WINDOW;
      if buckets[index].second != o.second { buckets[index] := Empty.(second := o.second); }
      buckets[index] := Counted(buckets[index], o);
      assert buckets[..] == next;
      log := log + [o];
    }

    /** One `sum(... for bucket in current)`. */
    method Total(l: Label, at: int) returns (sum: real)
      requires Valid()
      ensures sum == LogSum(Survivors(log), at, l)
    {
      sum := 0.0;
      for i := 0 to buckets.Length
        invariant sum == RingSum(buckets[..], i, at, l)
      {
        if InWindow(buckets[i].second, at) { sum := sum + Field(buckets[i], l); }
      }
    }

    method Totals(at: int) returns (statuses: seq<real>, latencies: seq<real>)
      requires Valid()
      ensures |statuses| == 6 && forall i :: 0 <= i < 6 ==> statuses[i] == LogSum(Survivors(log), at, Status(i))
      ensures |latencies| == 6 && forall i :: 0 <= i < 6 ==> latencies[i] == LogSum(Survivors(log), at, Latency(i))
    {
      statuses, latencies := [], [];
      for i := 0 to 6
        invariant |statuses| == i && forall j :: 0 <= j < i ==> statuses[j] == LogSum(Survivors(log), at, Status(j))
        invariant |latencies| == i && forall j :: 0 <= j < i ==> latencies[j] == LogSum(Survivors(log), at, Latency(j))
      {
        var a := Total(Status(i), at);
        var b := Total(Latency(i), at);
        statuses, latencies := statuses + [a], latencies + [b];
      }
    }

    /** `snapshot`: every figure counts the remembered observations of the last sixty one-second buckets; these are all
        observations of the log unless one lost its slot. */
    method Snapshot(at: int) returns (r: Report)
      requires Valid()
      ensures Figures(r, Survivors(log), at) && Alarms(r)
      ensures !Forgets(log, at) ==> Figures(r, log, at)
      ensures AccountedTotal(denials) + r.suppressed == |denials|
    {
      var statuses, latencies := Totals(at);
      var regular := Total(Regular, at);
      var stream := Total(Stream, at);
      var throttled := Total(Throttled, at);
      var totalMillis := Total(TotalMillis, at);
      var requests := statuses[0] + statuses[1] + statuses[2] + statuses[3] + statuses[4] + statuses[5];
      var responses := requests - statuses[5];
      var slow := latencies[3] + latencies[4] + latencies[5];
      var alerts := AlertsFor(throttled, statuses[4], statuses[5], responses, slow);
      AllDenialsAccounted(samples, denials);
      r := Report(requests, responses, statuses, regular, stream, latencies,
                  Average(totalMillis, responses), throttled, slow,
                  SuppressedTotal(samples), alerts);
      DerivedFigures(r, totalMillis, Survivors(log), at);
      if !Forgets(log, at) { FiguresOfWholeLog(r, log, at); }
    }

    /** `sample_anonymous_audit`. */
    method SampleAnonymousAudit(e: Event, now: real) returns (outcome: Option<nat>)
      requires Valid()
      modifies this`samples, this`denials
      ensures Valid() && (samples, outcome) == Sampled(old(samples), e, now)
      ensures denials == old(denials) + [Denial(e, now, outcome)]
    {
      SampledConserves(samples, denials, e, now);
      var suppressed := Suppressed(samples, e);
      if e in samples && now - samples[e].last < 60.0 {
        samples := samples[e := Sample(samples[e].last, suppressed + 1)];
        outcome := None;
      } else {
        samples := samples[e := Sample(now, 0)];
        outcome := Some(suppressed);
      }
      denials := denials + [Denial(e, now, outcome)];
    }
  }
}
