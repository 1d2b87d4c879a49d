/** `_ResultQueue` of src/app/gradio_capacity.py: a bounded queue that coalesces replaceable updates and
    gives up only messages that are neither a start nor a completion. */
module GradioQueue {
  import opened Prelude

  type Id = nat

  datatype Kind = Estimation | Progress | Heartbeat | Log | Starts | Completed

  datatype Message = Message(kind: Kind, event: Id, body: nat) {
    predicate Replaceable() { kind.Estimation? || kind.Progress? || kind.Heartbeat? }
    predicate Disposable() { !kind.Starts? && !kind.Completed? }
    predicate Twin(other: Message) { kind == other.kind && event == other.event }
  }

  /** The first index from `i` on whose message passes, or the length. */
  function FirstWhere(q: seq<Message>, p: Message -> bool, i: nat): (k: nat)
    requires i <= |q|
    ensures i <= k <= |q| && (k < |q| ==> p(q[k])) && forall j :: i <= j < k ==> !p(q[j])
    decreases |q| - i
  {
    if i == |q| || p(q[i]) then i else FirstWhere(q, p, i + 1)
  }

  function TwinIndex(q: seq<Message>, item: Message): (k: nat)
    ensures k <= |q| && (k < |q| ==> q[k].Twin(item)) && forall j :: 0 <= j < k ==> !q[j].Twin(item)
  {
    FirstWhere(q, (m: Message) => m.Twin(item), 0)
  }

  function DisposableIndex(q: seq<Message>): (k: nat)
    ensures k <= |q| && (k < |q| ==> q[k].Disposable()) && forall j :: 0 <= j < k ==> !q[j].Disposable()
  {
    FirstWhere(q, (m: Message) => m.Disposable(), 0)
  }

  predicate Coalesces(q: seq<Message>, item: Message) {
    (item.Replaceable() || item.kind.Completed?) && TwinIndex(q, item) < |q|
  }

  /** `_put_bounded`; None is the raised error. */
  function Put(q: seq<Message>, size: nat, item: Message): Option<seq<Message>> {
    if Coalesces(q, item) then Some(q[TwinIndex(q, item) := item])
    else if |q| < size then Some(q + [item])
    else
      var k := DisposableIndex(q);
      if k == |q| then None else Some(q[..k] + q[k + 1..] + [item])
  }

  lemma PutReplaces(q: seq<Message>, size: nat, item: Message, k: nat)
    requires (item.Replaceable() || item.kind.Completed?) && k < |q| && q[k].Twin(item)
    requires forall j :: 0 <= j < k ==> !q[j].Twin(item)
    ensures Put(q, size, item) == Some(q[k := item])
  {
    assert TwinIndex(q, item) == k;
  }

  lemma PutDisposes(q: seq<Message>, size: nat, item: Message, k: nat)
    requires !Coalesces(q, item) && |q| >= size && k <= |q| && (k < |q| ==> q[k].Disposable())
    requires forall j :: 0 <= j < k ==> !q[j].Disposable()
    ensures Put(q, size, item) == if k == |q| then None else Some(q[..k] + q[k + 1..] + [item])
  {
    assert DisposableIndex(q) == k;
  }

  class ResultQueue {
    const maxsize: nat
    var queue: seq<Message>

    constructor (retainedEvents: nat)
      ensures maxsize == Size(retainedEvents) && queue == []
    {
      maxsize := Size(retainedEvents);
      queue := [];
    }

    /** `_put_bounded`, with its two scans as loops; false is the raised error. */
    method PutBounded(item: Message) returns (ok: bool)
      modifies this`queue
      ensures ok == Put(old(queue), maxsize, item).Some?
      ensures queue == if ok then Put(old(queue), maxsize, item).value else old(queue)
    {
      if item.Replaceable() || item.kind.Completed? {
        var index := 0;
        while index < |queue|
          invariant 0 <= index <= |queue| && queue == old(queue)
          invariant forall j :: 0 <= j < index ==> !queue[j].Twin(item)
        {
          if queue[index].Twin(item) {
            PutReplaces(queue, maxsize, item, index);
            queue := queue[index := item];
            return true;
          }
          index := index + 1;
        }
      }
      if |queue| >= maxsize {
        var k := 0;
        while k < |queue| && !queue[k].Disposable()
          invariant 0 <= k <= |queue| && queue == old(queue)
          invariant forall j :: 0 <= j < k ==> !queue[j].Disposable()
        {
          k := k + 1;
        }
        PutDisposes(queue, maxsize, item, k);
        if k == |queue| { return false; }
        queue := queue[..k] + queue[k + 1..];
      }
      queue := queue + [item];
      return true;
    }
  }

  function Size(retained: nat): nat { 4 * retained + 8 }

  // ---------------------------------------------------------------- what a put keeps

  /** At most one start and one completion per event. */
  predicate OneOfEach(q: seq<Message>) {
    forall i, j :: 0 <= i < j < |q| && !q[i].Disposable() ==> !q[i].Twin(q[j])
  }

  /** Starts and completions belong to live events. */
  predicate BelongTo(q: seq<Message>, live: set<Id>) {
    forall i :: 0 <= i < |q| && !q[i].Disposable() ==> q[i].event in live
  }

  predicate Holds(q: seq<Message>, kind: Kind, event: Id) {
    exists i :: 0 <= i < |q| && q[i].kind == kind && q[i].event == event
  }

  /** No start or completion is dropped: each kind of message that was there for an event still is. */
  lemma PutDropsNoTerminal(q: seq<Message>, size: nat, item: Message, kind: Kind, event: Id)
    requires Put(q, size, item).Some?
    ensures var r := Put(q, size, item).value;
      && Holds(r, item.kind, item.event)
      && (Holds(q, kind, event) && (kind.Starts? || kind.Completed?) ==> Holds(r, kind, event))
      && (Holds(r, kind, event) ==> Holds(q, kind, event) || (kind == item.kind && event == item.event))
  {
    if Coalesces(q, item) {
      ReplaceHolds(q, TwinIndex(q, item), item, kind, event);
    } else if |q| < size {
      AppendHolds(q, item, kind, event);
    } else {
      var k := DisposableIndex(q);
      RemoveHolds(q, k, kind, event);
      AppendHolds(q[..k] + q[k + 1..], item, kind, event);
    }
  }

  lemma ReplaceHolds(q: seq<Message>, t: nat, item: Message, kind: Kind, event: Id)
    requires t < |q| && q[t].Twin(item)
    ensures var r := q[t := item];
      Holds(r, item.kind, item.event) && (Holds(r, kind, event) <==> Holds(q, kind, event))
  {
    var r := q[t := item];
    assert r[t].kind == item.kind && r[t].event == item.event;
    assert forall i :: 0 <= i < |q| ==> r[i].kind == q[i].kind && r[i].event == q[i].event;
    if Holds(q, kind, event) {
      var i :| 0 <= i < |q| && q[i].kind == kind && q[i].event == event;
      assert r[i].kind == kind && r[i].event == event;
    }
  }

  lemma AppendHolds(q: seq<Message>, item: Message, kind: Kind, event: Id)
    ensures Holds(q + [item], kind, event) <==> Holds(q, kind, event) || (kind == item.kind && event == item.event)
    ensures Holds(q + [item], item.kind, item.event)
  {
    var r := q + [item];
    assert r[|q|] == item;
    if Holds(q, kind, event) {
      var i :| 0 <= i < |q| && q[i].kind == kind && q[i].event == event;
      assert r[i].kind == kind && r[i].event == event;
    }
  }

  lemma RemoveHolds(q: seq<Message>, k: nat, kind: Kind, event: Id)
    requires k < |q| && q[k].Disposable()
    ensures var r := q[..k] + q[k + 1..];
      && (Holds(r, kind, event) ==> Holds(q, kind, event))
      && (Holds(q, kind, event) && (kind.Starts? || kind.Completed?) ==> Holds(r, kind, event))
  {
    var r := q[..k] + q[k + 1..];
    if Holds(r, kind, event) {
      var i :| 0 <= i < |r| && r[i].kind == kind && r[i].event == event;
      assert q[if i < k then i else i + 1] == r[i];
    }
    if Holds(q, kind, event) && (kind.Starts? || kind.Completed?) {
      var i :| 0 <= i < |q| && q[i].kind == kind && q[i].event == event;
      assert r[if i < k then i else i - 1] == q[i];
    }
  }

  /** A put keeps the queue well formed. */
  lemma PutKeepsShape(q: seq<Message>, size: nat, item: Message, live: set<Id>)
    requires OneOfEach(q) && BelongTo(q, live) && |q| <= size && size > 0 && Put(q, size, item).Some?
    requires !item.Disposable() ==> item.event in live
    requires item.kind.Starts? ==> !Holds(q, Starts, item.event)
    ensures var r := Put(q, size, item).value; OneOfEach(r) && BelongTo(r, live) && |r| <= size
  {
    var r := Put(q, size, item).value;
    if Coalesces(q, item) {
      var t := TwinIndex(q, item);
      assert forall i :: 0 <= i < |r| ==> r[i].kind == q[i].kind && r[i].event == q[i].event;
    } else {
      var k := if |q| < size then |q| else DisposableIndex(q);
      assert forall i :: 0 <= i < |r| - 1 ==> r[i] == q[if i < k then i else i + 1];
      assert r[|r| - 1] == item;
      forall i | 0 <= i < |r| - 1 && !r[i].Disposable() ensures !r[i].Twin(item) {
        assert r[i] == q[if i < k then i else i + 1];
      }
    }
  }

  // ---------------------------------------------------------------- the pigeonhole argument

  function EventsOf(q: seq<Message>, kind: Kind): set<Id> { set i | 0 <= i < |q| && q[i].kind == kind :: q[i].event }

  predicate AllTerminal(q: seq<Message>) { forall i :: 0 <= i < |q| ==> !q[i].Disposable() }

  /** Without disposable messages, there are no more messages than starts and completions. */
  lemma {:induction false} TerminalsAreCounted(q: seq<Message>)
    requires OneOfEach(q) && AllTerminal(q)
    ensures |q| == |EventsOf(q, Starts)| + |EventsOf(q, Completed)|
  {
    if |q| > 0 {
      var n := |q| - 1;
      TerminalsAreCounted(q[..n]);
      LastIsNew(q);
      EventsStep(q, Starts);
      EventsStep(q, Completed);
    }
  }

  lemma LastIsNew(q: seq<Message>)
    requires |q| > 0 && OneOfEach(q) && !q[|q| - 1].Disposable()
    ensures q[|q| - 1].event !in EventsOf(q[..|q| - 1], q[|q| - 1].kind)
  {
    var n := |q| - 1;
    forall i | 0 <= i < n && q[..n][i].kind == q[n].kind ensures q[..n][i].event != q[n].event {
      assert !q[i].Disposable() && !q[i].Twin(q[n]);
    }
  }

  lemma EventsStep(q: seq<Message>, kind: Kind)
    requires |q| > 0
    ensures var n := |q| - 1;
      EventsOf(q, kind) == EventsOf(q[..n], kind) + (if q[n].kind == kind then {q[n].event} else {})
  {
    var n := |q| - 1;
    forall e | e in EventsOf(q, kind) ensures e in EventsOf(q[..n], kind) || (q[n].kind == kind && e == q[n].event) {
      var i :| 0 <= i < |q| && q[i].kind == kind && q[i].event == e;
      if i < n { assert q[..n][i] == q[i]; }
    }
    forall e | e in EventsOf(q[..n], kind) ensures e in EventsOf(q, kind) {
      var i :| 0 <= i < n && q[..n][i].kind == kind && q[..n][i].event == e;
      assert q[i].kind == kind;
    }
  }

  /** A full queue always holds something disposable, so a put never fails. */
  lemma PutNeverFails(q: seq<Message>, retained: nat, item: Message, live: set<Id>)
    requires OneOfEach(q) && BelongTo(q, live) && |live| <= retained
    ensures Put(q, Size(retained), item).Some?
  {
    if DisposableIndex(q) == |q| {
      TerminalsAreCounted(q);
      forall kind | kind == Starts || kind == Completed ensures EventsOf(q, kind) <= live {
        forall e | e in EventsOf(q, kind) ensures e in live {
          var i :| 0 <= i < |q| && q[i].kind == kind && q[i].event == e;
        }
      }
      SubsetSize(EventsOf(q, Starts), live);
      SubsetSize(EventsOf(q, Completed), live);
    }
  }

  // ---------------------------------------------------------------- retiring an event

  /** The queue without the messages of one event. */
  function Purge(q: seq<Message>, event: Id): seq<Message> {
    if |q| == 0 then []
    else Purge(q[..|q| - 1], event) + if q[|q| - 1].event == event then [] else [q[|q| - 1]]
  }

  lemma {:induction false} PurgeHolds(q: seq<Message>, event: Id, kind: Kind, other: Id)
    ensures Holds(Purge(q, event), kind, other) <==> Holds(q, kind, other) && other != event
  {
    if |q| > 0 {
      var n := |q| - 1;
      PurgeHolds(q[..n], event, kind, other);
      HoldsStep(q, kind, other);
      var r := Purge(q, event);
      if q[n].event != event {
        assert r[..|r| - 1] == Purge(q[..n], event);
        HoldsStep(r, kind, other);
      } else {
        assert r == Purge(q[..n], event);
      }
    }
  }

  lemma HoldsStep(q: seq<Message>, kind: Kind, event: Id)
    requires |q| > 0
    ensures var n := |q| - 1;
      Holds(q, kind, event) <==> Holds(q[..n], kind, event) || (q[n].kind == kind && q[n].event == event)
  {
    var n := |q| - 1;
    if Holds(q, kind, event) {
      var i :| 0 <= i < |q| && q[i].kind == kind && q[i].event == event;
      if i < n { assert q[..n][i].kind == kind && q[..n][i].event == event; }
    }
    if Holds(q[..n], kind, event) {
      var i :| 0 <= i < n && q[..n][i].kind == kind && q[..n][i].event == event;
      assert q[i].kind == kind;
    }
  }

  lemma {:induction false} PurgeShape(q: seq<Message>, event: Id, live: set<Id>)
    requires OneOfEach(q) && BelongTo(q, live)
    ensures var r := Purge(q, event); OneOfEach(r) && BelongTo(r, live - {event}) && |r| <= |q|
  {
    if |q| > 0 {
      var n := |q| - 1;
      PurgeShape(q[..n], event, live);
      var front := Purge(q[..n], event);
      if q[n].event != event && !q[n].Disposable() {
        PurgeHolds(q[..n], event, q[n].kind, q[n].event);
        LastIsNew(q);
        forall i | 0 <= i < n ensures !(q[..n][i].kind == q[n].kind && q[..n][i].event == q[n].event) {
          assert q[..n][i] == q[i] && !(q[i].Twin(q[n]) && !q[i].Disposable());
        }
        assert !Holds(front, q[n].kind, q[n].event);
        forall i | 0 <= i < |front| ensures !front[i].Twin(q[n]) {}
      }
    }
  }
}
