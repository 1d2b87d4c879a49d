/** Admission in src/app/availability.py: bounded budgets, per-source counts and the paths through
    `AdmissionMiddleware._admit`.  A request is a thread of atomic steps between locks and awaits; a run is any
    interleaving of the steps of any number of requests. */
module Admission {
  import opened Prelude

  type Id = nat
  type Ip = nat

  class CapacityBudget {
    const maximum: nat
    var active: nat
    var rejected: nat

    predicate Valid()
      reads this
    {
      maximum > 0 && active <= maximum
    }

    constructor (maximum: nat)
      requires maximum > 0
      ensures Valid() && this.maximum == maximum && active == 0 && rejected == 0
    {
      this.maximum := maximum;
      active, rejected := 0, 0;
    }

    /** `acquire`: a slot is taken exactly when one is free, and a refusal is counted. */
    method Acquire() returns (ok: bool)
      requires Valid()
      modifies this
      ensures Valid() && ok == (old(active) < maximum)
      ensures active == old(active) + (if ok then 1 else 0) && rejected == old(rejected) + if ok then 0 else 1
    {
      if active >= maximum {
        rejected := rejected + 1;
        return false;
      }
      active := active + 1;
      return true;
    }

    /** `release`: false is the error for a slot nobody holds. */
    method Release() returns (ok: bool)
      requires Valid()
      modifies this`active
      ensures Valid() && ok == (old(active) > 0) && active == if ok then old(active) - 1 else old(active)
    {
      if active <= 0 { return false; }
      active := active - 1;
      return true;
    }
  }

  // ---------------------------------------------------------------- requests

  datatype Request = Request(ip: Ip, streaming: bool, asset: bool)

  /** Where a request stands. */
  datatype Phase =
    | Arrived        // passed the local rate limits
    | Budgeted       // holds a slot of its budget
    | Refused        // its source is full: the slot is about to be given back
    | Serving        // inside the try block, whatever happens there
    | Leaving        // in the finally block, its source already released
    | Gone

  datatype Thread = Thread(request: Request, phase: Phase) {
    predicate HoldsBudget() { phase.Budgeted? || phase.Refused? || phase.Serving? || phase.Leaving? }
    predicate HoldsSource() { phase.Serving? && !request.asset }
  }

  type Key = (Ip, bool)

  datatype Limits = Limits(requests: nat, streams: nat, perSource: nat, perSourceStreams: nat) {
    function Budget(streaming: bool): nat { if streaming then streams else requests }
    function Source(streaming: bool): nat { if streaming then perSourceStreams else perSource }
  }

  /** `broken` records a slot released twice or a source entry that was not there. */
  datatype Gate = Gate(
    limits: Limits, active: map<bool, nat>, rejected: nat, sources: map<Key, nat>, threads: map<Id, Thread>,
    broken: bool)

  function Open(limits: Limits): Gate { Gate(limits, map[false := 0, true := 0], 0, map[], map[], false) }

  function KeyOf(r: Request): Key { (r.ip, r.streaming) }

  function SourceCount(sources: map<Key, nat>, k: Key): nat { if k in sources then sources[k] else 0 }

  datatype Action =
    | Arrive(id: Id, request: Request)
    | AcquireBudget(id: Id)
    | ClaimSource(id: Id)
    | GiveBack(id: Id)
    | Finish(id: Id)
    | ReleaseBudget(id: Id)

  function Move(g: Gate, id: Id, phase: Phase): Gate
    requires id in g.threads
  {
    g.(threads := g.threads[id := g.threads[id].(phase := phase)])
  }

  function Release(g: Gate, streaming: bool): Gate {
    if streaming !in g.active || g.active[streaming] == 0 then g.(broken := true)
    else g.(active := g.active[streaming := g.active[streaming] - 1])
  }

  /** The source part of the finally block. */
  function DropSource(g: Gate, k: Key): Gate {
    if SourceCount(g.sources, k) == 0 then g.(broken := true)
    else if g.sources[k] == 1 then g.(sources := g.sources - {k})
    else g.(sources := g.sources[k := g.sources[k] - 1])
  }

  predicate At(g: Gate, id: Id, phase: Phase) { id in g.threads && g.threads[id].phase == phase }

  function Apply(g: Gate, a: Action): Gate {
    match a
    case Arrive(id, r) =>
      if id in g.threads then g else g.(threads := g.threads[id := Thread(r, Arrived)])
    case AcquireBudget(id) =>
      if !At(g, id, Arrived) then g
      else
        var s := g.threads[id].request.streaming;
        if s in g.active && g.active[s] < g.limits.Budget(s)
        then Move(g, id, Budgeted).(active := g.active[s := g.active[s] + 1])
        else Move(g, id, Gone).(rejected := g.rejected + 1)
    case ClaimSource(id) =>
      if !At(g, id, Budgeted) then g
      else
        var r := g.threads[id].request;
        var n := SourceCount(g.sources, KeyOf(r));
        if r.asset then Move(g, id, Serving)
        else if n < g.limits.Source(r.streaming) then Move(g, id, Serving).(sources := g.sources[KeyOf(r) := n + 1])
        else Move(g, id, Refused)
    case GiveBack(id) =>
      if !At(g, id, Refused) then g else Release(Move(g, id, Gone), g.threads[id].request.streaming)
    case Finish(id) =>
      if !At(g, id, Serving) then g
      else if g.threads[id].request.asset then Move(g, id, Leaving)
      else DropSource(Move(g, id, Leaving), KeyOf(g.threads[id].request))
    case ReleaseBudget(id) =>
      if !At(g, id, Leaving) then g else Release(Move(g, id, Gone), g.threads[id].request.streaming)
  }

  function ApplyAll(g: Gate, actions: seq<Action>): Gate
    decreases |actions|
  {
    if |actions| == 0 then g else ApplyAll(Apply(g, actions[0]), actions[1..])
  }

  // ---------------------------------------------------------------- conservation

  function BudgetHolders(threads: map<Id, Thread>, streaming: bool): set<Id> {
    set id | id in threads && threads[id].HoldsBudget() && threads[id].request.streaming == streaming
  }

  function SourceHolders(threads: map<Id, Thread>, k: Key): set<Id> {
    set id | id in threads && threads[id].HoldsSource() && KeyOf(threads[id].request) == k
  }

  /** Occupancy is the number of requests holding a slot of that kind, within the limit. */
  predicate BudgetExact(g: Gate, streaming: bool) {
    && streaming in g.active && g.active[streaming] == |BudgetHolders(g.threads, streaming)|
    && g.active[streaming] <= g.limits.Budget(streaming)
  }

  /** The count of a source is the number of its requests being served; zero is never stored. */
  predicate SourceExact(g: Gate, k: Key) {
    && SourceCount(g.sources, k) == |SourceHolders(g.threads, k)|
    && SourceCount(g.sources, k) <= g.limits.Source(k.1)
    && (k in g.sources ==> g.sources[k] > 0)
  }

  ghost predicate Exact(g: Gate) {
    BudgetExact(g, false) && BudgetExact(g, true) && (forall k: Key :: SourceExact(g, k)) && !g.broken
  }

  /** Adding or removing one element. */
  lemma Grows(a: set<Id>, b: set<Id>, id: Id)
    requires b == a + {id} && id !in a
    ensures |b| == |a| + 1
  {
  }

  /** One thread changes phase: the holders of every budget and source change by at most that thread. */
  lemma MoveHolders(threads: map<Id, Thread>, id: Id, t: Thread)
    requires id in threads ==> threads[id].request == t.request
    ensures var after := threads[id := t];
      && (forall s :: BudgetHolders(after, s) ==
            if t.request.streaming != s then BudgetHolders(threads, s)
            else if t.HoldsBudget() then BudgetHolders(threads, s) + {id} else BudgetHolders(threads, s) - {id})
      && (forall k :: SourceHolders(after, k) ==
            if KeyOf(t.request) != k then SourceHolders(threads, k)
            else if t.HoldsSource() then SourceHolders(threads, k) + {id} else SourceHolders(threads, k) - {id})
  {
  }

  lemma ArriveExact(g: Gate, id: Id, r: Request)
    requires Exact(g) && id !in g.threads
    ensures Exact(Apply(g, Arrive(id, r)))
  {
    var g' := Apply(g, Arrive(id, r));
    MoveHolders(g.threads, id, Thread(r, Arrived));
    forall s ensures BudgetHolders(g'.threads, s) == BudgetHolders(g.threads, s) {}
    forall k: Key ensures SourceExact(g', k) {
      assert SourceExact(g, k);
      assert SourceHolders(g'.threads, k) == SourceHolders(g.threads, k);
    }
  }

  /** The budget side of a step that moves one thread. */
  lemma BudgetMoves(g: Gate, g': Gate, id: Id, t: Thread, s: bool)
    requires BudgetExact(g, s) && id in g.threads && g.threads[id].request == t.request && g'.limits == g.limits
    requires g'.threads == g.threads[id := t]
    requires if t.request.streaming == s && t.HoldsBudget() != g.threads[id].HoldsBudget()
             then s in g'.active
                && (if t.HoldsBudget() then g'.active[s] == g.active[s] + 1 else g'.active[s] + 1 == g.active[s])
             else s in g'.active && g'.active[s] == g.active[s]
    requires s in g'.active && g'.active[s] <= g.limits.Budget(s)
    ensures BudgetExact(g', s)
  {
    MoveHolders(g.threads, id, t);
    var before, after := BudgetHolders(g.threads, s), BudgetHolders(g'.threads, s);
    if t.request.streaming == s {
      assert id in before <==> g.threads[id].HoldsBudget();
      if t.HoldsBudget() && id !in before { Grows(before, after, id); }
      if !t.HoldsBudget() && id in before { Grows(after, before, id); }
      if t.HoldsBudget() == g.threads[id].HoldsBudget() { assert after == before; }
    }
  }

  /** The source side. */
  lemma SourceMoves(g: Gate, g': Gate, id: Id, t: Thread, k: Key)
    requires SourceExact(g, k) && id in g.threads && g.threads[id].request == t.request && g'.limits == g.limits
    requires g'.threads == g.threads[id := t]
    requires SourceCount(g'.sources, k) ==
             if KeyOf(t.request) != k || t.HoldsSource() == g.threads[id].HoldsSource() then SourceCount(g.sources, k)
             else if t.HoldsSource() then SourceCount(g.sources, k) + 1 else SourceCount(g.sources, k) - 1
    requires SourceCount(g'.sources, k) <= g.limits.Source(k.1) && (k in g'.sources ==> g'.sources[k] > 0)
    ensures SourceExact(g', k)
  {
    MoveHolders(g.threads, id, t);
    var before, after := SourceHolders(g.threads, k), SourceHolders(g'.threads, k);
    if KeyOf(t.request) == k {
      assert id in before <==> g.threads[id].HoldsSource();
      if t.HoldsSource() && id !in before { Grows(before, after, id); }
      if !t.HoldsSource() && id in before { Grows(after, before, id); }
      if t.HoldsSource() == g.threads[id].HoldsSource() { assert after == before; }
    }
  }

  /** A thread that holds a slot or a source is counted there. */
  lemma HolderIsCounted(g: Gate, id: Id)
    requires Exact(g) && id in g.threads
    ensures var t := g.threads[id];
      && (t.HoldsBudget() ==> t.request.streaming in g.active && g.active[t.request.streaming] > 0)
      && (t.HoldsSource() ==> SourceCount(g.sources, KeyOf(t.request)) > 0)
  {
    var t := g.threads[id];
    if t.HoldsBudget() { assert id in BudgetHolders(g.threads, t.request.streaming); }
    if t.HoldsSource() {
      assert SourceExact(g, KeyOf(t.request));
      assert id in SourceHolders(g.threads, KeyOf(t.request));
    }
  }

  lemma ApplyBudget(g: Gate, a: Action, s: bool)
    requires Exact(g) && !a.Arrive? && Apply(g, a) != g
    ensures BudgetExact(Apply(g, a), s)
  {
    HolderIsCounted(g, a.id);
    BudgetMoves(g, Apply(g, a), a.id, Apply(g, a).threads[a.id], s);
  }

  lemma ApplySource(g: Gate, a: Action, k: Key)
    requires Exact(g) && !a.Arrive? && Apply(g, a) != g
    ensures SourceExact(Apply(g, a), k) && !Apply(g, a).broken
  {
    HolderIsCounted(g, a.id);
    assert SourceExact(g, k);
    SourceMoves(g, Apply(g, a), a.id, Apply(g, a).threads[a.id], k);
  }

  /** Every step of every request keeps the counts exact; nothing is released twice. */
  lemma ApplyExact(g: Gate, a: Action)
    requires Exact(g)
    ensures Exact(Apply(g, a))
  {
    if a.Arrive? {
      if a.id !in g.threads { ArriveExact(g, a.id, a.request); }
    } else if Apply(g, a) != g {
      var g' := Apply(g, a);
      ApplyBudget(g, a, false);
      ApplyBudget(g, a, true);
      ApplySource(g, a, (0, false));
      forall k: Key ensures SourceExact(g', k) { ApplySource(g, a, k); }
    }
  }

  lemma {:induction false} RunExact(g: Gate, actions: seq<Action>)
    requires Exact(g)
    ensures Exact(ApplyAll(g, actions))
    decreases |actions|
  {
    if |actions| > 0 {
      ApplyExact(g, actions[0]);
      RunExact(Apply(g, actions[0]), actions[1..]);
    }
  }

  lemma OpenExact(limits: Limits)
    ensures Exact(Open(limits))
  {
    var g := Open(limits);
    assert BudgetHolders(g.threads, false) == {} && BudgetHolders(g.threads, true) == {};
    forall k: Key ensures SourceExact(g, k) { assert SourceHolders(g.threads, k) == {}; }
  }

  /** Under every interleaving: occupancy equals the requests in flight of that kind, source counts equal that
      source's requests being served with no zero entry, all limits hold, and no slot is released twice. */
  lemma EveryRunConserves(limits: Limits, actions: seq<Action>)
    ensures Exact(ApplyAll(Open(limits), actions))
  {
    OpenExact(limits);
    RunExact(Open(limits), actions);
  }

  /** Whatever way the requests ended, once all are gone every slot is free again. */
  lemma AllGoneAllFree(limits: Limits, actions: seq<Action>)
    ensures var g := ApplyAll(Open(limits), actions);
      (forall id :: id in g.threads ==> g.threads[id].phase.Gone?) ==>
        g.active == map[false := 0, true := 0] && g.sources == map[]
  {
    var g := ApplyAll(Open(limits), actions);
    EveryRunConserves(limits, actions);
    RunKinds(Open(limits), actions);
    if forall id :: id in g.threads ==> g.threads[id].phase.Gone? {
      assert BudgetHolders(g.threads, false) == {} && BudgetHolders(g.threads, true) == {};
      forall k: Key ensures k !in g.sources {
        assert SourceExact(g, k);
        assert SourceHolders(g.threads, k) == {};
      }
    }
  }

  lemma ApplyKinds(g: Gate, a: Action)
    ensures Apply(g, a).active.Keys == g.active.Keys
  {
  }

  /** There are always exactly the two budgets. */
  lemma {:induction false} RunKinds(g: Gate, actions: seq<Action>)
    requires g.active.Keys == {false, true}
    ensures ApplyAll(g, actions).active.Keys == {false, true}
    decreases |actions|
  {
    if |actions| > 0 {
      ApplyKinds(g, actions[0]);
      RunKinds(Apply(g, actions[0]), actions[1..]);
    }
  }
}
