/** What every run of the MLS client keeps, whatever is lost and wherever it crashes. */
module MlsSafety {
  import opened Prelude
  import opened MlsRelay
  import opened MlsSpec

  /** Every envelope the native history produced, in order. */
  function SentIn(h: seq<NativeEvent>): seq<Envelope> {
    if |h| == 0 then []
    else SentIn(h[..|h| - 1]) + (if h[|h| - 1].Sent? then h[|h| - 1].envelopes else [])
  }

  function Pending(d: Data): seq<Envelope> {
    if d.outbox.Some? then d.outbox.value.envelopes else []
  }

  /** Exactly-once, in-order delivery as one equation: the rows the relay accepted
      from this device are a prefix of everything it ever produced, and that prefix
      stops at the head of the outbox or just after it (accepted, not yet recorded). */
  predicate Delivery(d: Data, r: Relay, p: Profile) {
    var sent, pending, accepted := SentIn(d.native), Pending(d), Accepted(r.log, p.device);
    && |pending| <= |sent|
    && pending == sent[|sent| - |pending|..]
    && |sent| - |pending| <= |accepted| <= |sent|
    && |accepted| <= |sent| - |pending| + 1
    && accepted == sent[..|accepted|]
  }

  /** Own envelopes carry our device and message ids that were never reused. */
  predicate OwnIds(d: Data, nextId: nat, p: Profile) {
    var sent := SentIn(d.native);
    && (forall i :: 0 <= i < |sent| ==> sent[i].sender == p.device && sent[i].id < nextId)
    && (forall i, j :: 0 <= i < j < |sent| ==> sent[i].id < sent[j].id)
    && (forall e :: e in Pending(d) ==> e.conversation == d.outbox.value.conversation)
  }

  predicate IsReception(v: NativeEvent) { v.Joined? || v.Received? }

  /** Rows took effect in strictly increasing (time, id) order, none beyond the cursor. */
  predicate Receptions(d: Data) {
    && (forall i :: 0 <= i < |d.native| && IsReception(d.native[i]) ==>
          d.native[i].conversation in d.cursors
          && !After(d.native[i].row.stamp, d.cursors[d.native[i].conversation]))
    && (forall i, j :: 0 <= i < j < |d.native| && IsReception(d.native[i]) && IsReception(d.native[j])
                       && d.native[i].conversation == d.native[j].conversation ==>
          After(d.native[j].row.stamp, d.native[i].row.stamp))
  }

  predicate Unpassed(d: Data, row: Row) {
    var c := row.envelope.conversation;
    c in d.cursors ==> After(row.stamp, d.cursors[c])
  }

  /** The relay will still show us this row and it is ours. */
  predicate AwaitsEcho(d: Data, p: Profile, row: Row) {
    row.envelope.sender == p.device && EchoExpected(p, row.envelope) && Unpassed(d, row)
  }

  predicate DigestSaved(d: Data, row: Row) {
    var key := (row.envelope.conversation, row.envelope.id);
    key in d.own && d.own[key] == Sha256(row.envelope.ciphertext)
  }

  /** Every own row still to come back has its digest, unless it heads the outbox. */
  predicate Echoes(d: Data, r: Relay, p: Profile) {
    forall i :: 0 <= i < |r.log| && AwaitsEcho(d, p, r.log[i]) && r.log[i].envelope !in Pending(d) ==>
      DigestSaved(d, r.log[i])
  }

  /** Envelopes whose delivery has been recorded. */
  function Settled(d: Data): seq<Envelope> {
    var sent, pending := SentIn(d.native), Pending(d);
    if |pending| <= |sent| then sent[..|sent| - |pending|] else []
  }

  predicate SettledId(d: Data, id: nat) {
    exists i :: 0 <= i < |Settled(d)| && Settled(d)[i].id == id
  }

  /** A saved digest belongs to an envelope whose delivery has been recorded. */
  predicate DigestsSettled(d: Data) { forall key :: key in d.own ==> SettledId(d, key.1) }

  /** Membership requests carried out so far belong to distinct operations, and once
      the pending one was carried out the relay is no longer below its epoch. */
  predicate AppliedOnce(d: Data, r: Relay, applied: seq<nat>) {
    && Distinct(applied)
    && (forall n :: n in applied ==> n <= |d.native|)
    && (d.outbox.Some? && |d.native| in applied ==>
          Epoch(r, d.outbox.value.conversation) >= d.outbox.value.epoch)
  }

  /** Everything said above about one copy of the data. */
  predicate Sound(d: Data, r: Relay, applied: seq<nat>, nextId: nat, p: Profile, honest: bool) {
    && Delivery(d, r, p)
    && OwnIds(d, nextId, p)
    && Receptions(d)
    && AppliedOnce(d, r, applied)
    && DigestsSettled(d)
    && (honest ==> Echoes(d, r, p))
  }

  predicate HonestScript(s: seq<Turn>) { forall t :: t in s ==> !t.forged }

  predicate Inv(w: World, p: Profile, honest: bool) {
    && StampsIncrease(w.relay.log)
    && Sound(w.disk, w.relay, w.applied, w.nextId, p, honest)
    && (!w.failed ==> w.data == w.disk)
    && (honest ==> HonestScript(w.script))
  }

  /** Successive contents of the file: history and recorded deliveries only grow, cursors
      never go back, and a digest that was consumed never comes back. */
  predicate Advances(a: Data, b: Data) {
    && a.native <= b.native
    && Settled(a) <= Settled(b)
    && (forall c :: c in a.cursors ==> c in b.cursors && !After(a.cursors[c], b.cursors[c]))
    && (forall key :: key in b.own ==> key in a.own || !SettledId(a, key.1))
  }

  /** How two moments of one run are related. */
  predicate Evolves(a: World, b: World) {
    Advances(a.disk, b.disk) && Extends(a.relay, b.relay) && a.applied <= b.applied && a.nextId <= b.nextId
  }

  lemma AdvancesTransitive(a: Data, b: Data, c: Data)
    requires Advances(a, b) && Advances(b, c)
    ensures Advances(a, c)
  {
    forall key | key in c.own ensures key in a.own || !SettledId(a, key.1) {
      if key !in b.own && SettledId(a, key.1) {
        var i :| 0 <= i < |Settled(a)| && Settled(a)[i].id == key.1;
        assert Settled(b)[i] == Settled(a)[i];
        assert SettledId(b, key.1);
      }
    }
  }

  lemma SentAppend(h: seq<NativeEvent>, v: NativeEvent)
    ensures SentIn(h + [v]) == SentIn(h) + (if v.Sent? then v.envelopes else [])
  {
    assert (h + [v])[..|h|] == h;
  }

  lemma ConsumedHonest(w: World, honest: bool)
    requires honest ==> HonestScript(w.script)
    ensures honest ==> HonestScript(Consumed(w).script) && !NextTurn(w).forged
  {
    if honest && |w.script| > 0 {
      assert w.script[0] in w.script;
      forall t | t in w.script[1..] ensures t in w.script {}
    }
  }

  /** A write of sound data leaves a sound file however it ends. */
  lemma SaveKeeps(w: World, p: Profile, honest: bool)
    requires StampsIncrease(w.relay.log) && !w.failed
    requires Sound(w.disk, w.relay, w.applied, w.nextId, p, honest)
    requires Sound(w.data, w.relay, w.applied, w.nextId, p, honest)
    requires honest ==> HonestScript(w.script)
    ensures Inv(Save(w).world, p, honest)
    ensures Save(w).ending.Returned? ==> Save(w).world == Consumed(w).(disk := w.data)
    ensures var w' := Save(w).world;
      w'.relay == w.relay && w'.applied == w.applied && w'.nextId == w.nextId
      && (w'.disk == w.disk || w'.disk == w.data)
  {
    ConsumedHonest(w, honest);
    var kept := Consumed(w).(data := w.disk);
    var written := Consumed(w).(disk := w.data);
    assert Inv(kept, p, honest);
    assert Inv(written, p, honest);
    match NextTurn(w).fault {
      case Fine => assert Save(w).world == written;
      case FailedBefore => assert Save(w).world == kept.(data := w.data, failed := true);
      case FailedAfter => assert Save(w).world == written.(failed := true);
      case CrashBefore => assert Save(w).world == kept.(failed := false);
      case CrashAfter => assert Save(w).world == written.(failed := false);
    }
  }

  /** The requests `flush` may make at this moment. */
  predicate Permitted(w: World, q: Request) {
    match q
    case PostEnvelope(e) => |Pending(w.disk)| > 0 && e == Pending(w.disk)[0]
    case ChangeMembership(c, m) =>
      && w.disk.outbox.Some? && c == w.disk.outbox.value.conversation
      && |w.disk.native| !in w.applied
      && Epoch(w.relay, c) + 1 >= w.disk.outbox.value.epoch
    case _ => true
  }

  lemma EpochsGrow(a: Relay, b: Relay, c: Conversation)
    requires Extends(a, b)
    ensures Epoch(a, c) <= Epoch(b, c)
  {
  }

  /** Interference keeps everything the client relies on. */
  lemma InterferenceKeeps(w: World, p: Profile, honest: bool, actions: seq<Interference>)
    requires Inv(w, p, honest)
    ensures var w' := w.(relay := InterfereAll(w.relay, actions, p.device));
      Inv(w', p, honest) && Extends(w.relay, w'.relay)
  {
    InterferenceIsHarmless(w.relay, actions, p.device);
    var r := InterfereAll(w.relay, actions, p.device);
    if w.disk.outbox.Some? { EpochsGrow(w.relay, r, w.disk.outbox.value.conversation); }
    if honest {
      EchoesExtend(w.disk, w.relay, r, p);
    }
  }

  /** Rows of others, and rows still in the outbox, do not disturb the echo invariant. */
  lemma EchoesExtend(d: Data, a: Relay, b: Relay, p: Profile)
    requires Echoes(d, a, p) && a.log <= b.log
    requires Accepted(b.log, p.device) == Accepted(a.log, p.device)
    ensures Echoes(d, b, p)
  {
    forall i | 0 <= i < |b.log| && AwaitsEcho(d, p, b.log[i]) && b.log[i].envelope !in Pending(d)
      ensures DigestSaved(d, b.log[i])
    {
      if i < |a.log| {
        assert a.log[i] == b.log[i];
      } else {
        AcceptedGrows(a.log, b.log, i, p.device);
        assert false;
      }
    }
  }

  lemma {:induction false} AcceptedGrows(a: seq<Row>, b: seq<Row>, i: nat, me: Device)
    requires a <= b && |a| <= i < |b| && b[i].envelope.sender == me
    ensures |Accepted(a, me)| < |Accepted(b, me)|
    decreases |b|
  {
    var front := b[..|b| - 1];
    if i < |b| - 1 {
      AcceptedGrows(a, front, i, me);
    } else {
      AcceptedMonotone(a, front, me);
    }
  }

  lemma {:induction false} AcceptedMonotone(a: seq<Row>, b: seq<Row>, me: Device)
    requires a <= b
    ensures |Accepted(a, me)| <= |Accepted(b, me)|
    decreases |b|
  {
    if |a| == |b| { assert a == b; } else { AcceptedMonotone(a, b[..|b| - 1], me); }
  }

  /** With fresh ids, the relay holds the head's replay key exactly when it holds the head. */
  lemma HeadStoredIffAccepted(d: Data, r: Relay, nextId: nat, p: Profile)
    requires Delivery(d, r, p) && OwnIds(d, nextId, p) && |Pending(d)| > 0
    ensures Stored(r, KeyOf(Pending(d)[0])) <==>
            |Accepted(r.log, p.device)| == |SentIn(d.native)| - |Pending(d)| + 1
  {
    var sent, pending, log := SentIn(d.native), Pending(d), r.log;
    var accepted := Accepted(log, p.device);
    var head := pending[0];
    var at := |sent| - |pending|;
    assert head == sent[at];
    if i :| 0 <= i < |log| && KeyOf(log[i].envelope) == KeyOf(head) {
      AcceptedMember(log, p.device, log[i].envelope);
      var k :| 0 <= k < |accepted| && accepted[k] == log[i].envelope;
      assert sent[k].id == head.id;
      assert k == at;
    }
    if |accepted| == at + 1 {
      assert accepted[at] == head;
      AcceptedMember(log, p.device, head);
      var i :| 0 <= i < |log| && log[i].envelope == head;
      assert KeyOf(log[i].envelope) == KeyOf(head);
    }
  }

  /** Accepting the head extends the accepted prefix by one. */
  lemma AppendHeadDelivers(d: Data, r: Relay, nextId: nat, p: Profile, stamp: Stamp)
    requires Delivery(d, r, p) && OwnIds(d, nextId, p) && |Pending(d)| > 0
    requires !Stored(r, KeyOf(Pending(d)[0]))
    ensures var r' := Append(r, Pending(d)[0], stamp);
      Delivery(d, r', p) && |Accepted(r'.log, p.device)| == |SentIn(d.native)| - |Pending(d)| + 1
  {
    var e, sent := Pending(d)[0], SentIn(d.native);
    HeadStoredIffAccepted(d, r, nextId, p);
    AcceptedAppend(r.log, Row(NextStamp(r.log, stamp), e), p.device);
    var at := |sent| - |Pending(d)|;
    assert e == sent[at];
    assert sent[..at] + [e] == sent[..at + 1];
  }

  /** The accepted head is still in the outbox, so its digest is not yet owed. */
  lemma AppendHeadEchoes(d: Data, r: Relay, p: Profile, stamp: Stamp)
    requires Echoes(d, r, p) && |Pending(d)| > 0
    ensures Echoes(d, Append(r, Pending(d)[0], stamp), p)
  {
    var log := Append(r, Pending(d)[0], stamp).log;
    forall i | 0 <= i < |log| && AwaitsEcho(d, p, log[i]) && log[i].envelope !in Pending(d)
      ensures DigestSaved(d, log[i])
    {
      if i < |r.log| { assert log[i] == r.log[i]; }
    }
  }

  lemma PostKeeps(w: World, p: Profile, stamp: Stamp, refuse: bool, honest: bool)
    requires Inv(w, p, honest) && |Pending(w.disk)| > 0
    ensures var e := Pending(w.disk)[0];
      var w' := w.(relay := Post(w.relay, e, stamp, refuse));
      && Inv(w', p, honest) && Extends(w.relay, w'.relay)
      && (!PostVerdict(w.relay, e, refuse).Refused? ==>
            |Accepted(w'.relay.log, p.device)| == |SentIn(w.disk.native)| - |Pending(w.disk)| + 1)
  {
    var e := Pending(w.disk)[0];
    HeadStoredIffAccepted(w.disk, w.relay, w.nextId, p);
    if PostVerdict(w.relay, e, refuse).Created? {
      AppendHeadDelivers(w.disk, w.relay, w.nextId, p, stamp);
      AppendKeepsOrder(w.relay, e, stamp);
      if honest { AppendHeadEchoes(w.disk, w.relay, p, stamp); }
      assert AppliedOnce(w.disk, Append(w.relay, e, stamp), w.applied);
    }
  }

  /** A change carried out for the pending operation puts the relay at its epoch. */
  lemma ChangeKeeps(w: World, p: Profile, m: Membership, honest: bool)
    requires Inv(w, p, honest) && w.disk.outbox.Some?
    requires Permitted(w, ChangeMembership(w.disk.outbox.value.conversation, m))
    requires ChangeAllowed(w.relay, w.disk.outbox.value.conversation, m.account, m.remove)
    ensures var w' := w.(relay := Change(w.relay, w.disk.outbox.value.conversation, m.account, m.remove),
                         applied := w.applied + [|w.disk.native|]);
      Inv(w', p, honest) && Extends(w.relay, w'.relay)
  {
    var applied' := w.applied + [|w.disk.native|];
    assert Distinct(applied');
    var r := Change(w.relay, w.disk.outbox.value.conversation, m.account, m.remove);
    if honest { EchoesExtend(w.disk, w.relay, r, p); }
  }

  /** Reading requests and new sessions leave rows and old epochs alone. */
  lemma ReadKeeps(w: World, p: Profile, q: Request, t: Turn, honest: bool)
    requires Inv(w, p, honest) && !q.PostEnvelope? && !q.ChangeMembership?
    ensures Inv(Served(w, p, q, t), p, honest) && Extends(w.relay, Served(w, p, q, t).relay)
  {
    if q.CreateSession? {
      var r := Serve(w.relay, q, t, p.account).0;
      assert Extends(w.relay, r);
      if w.disk.outbox.Some? { EpochsGrow(w.relay, r, w.disk.outbox.value.conversation); }
      if honest { EchoesExtend(w.disk, w.relay, r, p); }
    }
  }

  /** A request that reaches the relay keeps the invariant. */
  lemma ServedKeeps(w: World, p: Profile, q: Request, t: Turn, honest: bool)
    requires Inv(w, p, honest) && Permitted(w, q)
    ensures var w' := Served(w, p, q, t);
      Inv(w', p, honest) && Extends(w.relay, w'.relay) && w.applied <= w'.applied
  {
    match q {
      case PostEnvelope(e) => PostKeeps(w, p, t.stamp, t.refuse, honest);
      case ChangeMembership(c, m) =>
        if !t.refuse && ChangeAllowed(w.relay, c, m.account, m.remove) {
          ChangeKeeps(w, p, m, honest);
        }
      case _ => ReadKeeps(w, p, q, t, honest);
    }
  }

  lemma DisturbedKeeps(w: World, p: Profile, q: Request, honest: bool)
    requires Inv(w, p, honest) && Permitted(w, q)
    ensures Inv(Disturbed(w, p), p, honest) && Permitted(Disturbed(w, p), q)
    ensures Extends(w.relay, Disturbed(w, p).relay)
    ensures honest ==> !NextTurn(w).forged
  {
    ConsumedHonest(w, honest);
    InterferenceKeeps(Consumed(w), p, honest, NextTurn(w).interference);
    if q.ChangeMembership? { EpochsGrow(w.relay, Disturbed(w, p).relay, q.conversation); }
  }

  lemma ExtendsTransitive(a: Relay, b: Relay, c: Relay)
    requires Extends(a, b) && Extends(b, c)
    ensures Extends(a, c)
  {
  }

  lemma ReopenKeeps(w: World, p: Profile, honest: bool)
    requires Inv(w, p, honest)
    ensures Inv(Reopen(w), p, honest)
  {
  }

  /** The world an exchange leaves, before a crash is taken into account. */
  function Reached(w: World, p: Profile, q: Request): World {
    if w.failed then w
    else if NextTurn(w).fault.Effective() then Served(Disturbed(w, p), p, q, NextTurn(w))
    else Disturbed(w, p)
  }

  lemma ReachedKeeps(w: World, p: Profile, q: Request, honest: bool)
    requires Inv(w, p, honest) && Permitted(w, q)
    ensures var x := Reached(w, p, q);
      Inv(x, p, honest) && Extends(w.relay, x.relay) && w.applied <= x.applied
      && x.disk == w.disk && x.data == w.data && x.nextId == w.nextId
      && (!q.ChangeMembership? ==> x.applied == w.applied)
  {
    if !w.failed {
      DisturbedKeeps(w, p, q, honest);
      if NextTurn(w).fault.Effective() {
        ServedKeeps(Disturbed(w, p), p, q, NextTurn(w), honest);
        ExtendsTransitive(w.relay, Disturbed(w, p).relay, Served(Disturbed(w, p), p, q, NextTurn(w)).relay);
      }
    }
  }

  /** Every exchange keeps the invariant, and changes nothing but the relay, which only grows. */
  lemma ExchangeKeeps(w: World, p: Profile, q: Request, honest: bool)
    requires Inv(w, p, honest) && Permitted(w, q)
    ensures var x := Exchange(w, p, q).world;
      Inv(x, p, honest) && Evolves(w, x) && x.disk == w.disk && x.nextId == w.nextId
      && (!q.ChangeMembership? ==> x.applied == w.applied)
    ensures Exchange(w, p, q).ending.Returned? ==> !Exchange(w, p, q).world.failed
  {
    var y := Reached(w, p, q);
    ReachedKeeps(w, p, q, honest);
    ReopenKeeps(y, p, honest);
    var x := Exchange(w, p, q);
    assert x.world == y || x.world == Reopen(y);
  }

  /** A post that was not refused means the head of the outbox is now accepted. */
  lemma PostedMeansAccepted(w: World, p: Profile, e: Envelope, honest: bool)
    requires Inv(w, p, honest) && Permitted(w, PostEnvelope(e))
    requires var x := Exchange(w, p, PostEnvelope(e)); x.ending.Returned? && x.ending.value != Posted(Refused)
    ensures |Accepted(Exchange(w, p, PostEnvelope(e)).world.relay.log, p.device)|
         == |SentIn(w.disk.native)| - |Pending(w.disk)| + 1
  {
    var q, t, w1 := PostEnvelope(e), NextTurn(w), Disturbed(w, p);
    DisturbedKeeps(w, p, q, honest);
    PostKeeps(w1, p, t.stamp, t.refuse, honest);
    assert Exchange(w, p, q).world.relay == Post(w1.relay, e, t.stamp, t.refuse);
  }

  /** An honest relay's page holds only stored rows. */
  lemma PagesAreGenuine(w: World, p: Profile, c: Conversation, honest: bool)
    requires honest && HonestScript(w.script)
    requires var x := Exchange(w, p, GetRows(c)); x.ending.Returned? && x.ending.value.Page?
    ensures var x := Exchange(w, p, GetRows(c));
      forall y :: y in x.ending.value.rows ==> GenuineRow(x.world.relay, c, y)
  {
    ConsumedHonest(w, honest);
  }
}
