/** Every operation of the MLS client keeps the invariant, hence every run does. */
module MlsRuns {
  import opened Prelude
  import opened MlsRelay
  import opened MlsSpec
  import opened MlsSafety

  /** `b` is a later, sound moment of the run that went through `a`. */
  predicate Later(a: World, b: World, p: Profile, honest: bool) {
    Inv(b, p, honest) && Evolves(a, b)
  }

  lemma LaterTransitive(a: World, b: World, c: World, p: Profile, honest: bool)
    requires Later(a, b, p, honest) && Later(b, c, p, honest)
    ensures Later(a, c, p, honest)
  {
    AdvancesTransitive(a.disk, b.disk, c.disk);
    ExtendsTransitive(a.relay, b.relay, c.relay);
  }

  lemma LaterSelf(w: World, p: Profile, honest: bool)
    requires Inv(w, p, honest)
    ensures Later(w, w, p, honest)
  {
  }

  lemma FetchKeeps(w: World, p: Profile, q: Request, honest: bool)
    requires Inv(w, p, honest) && Permitted(w, q)
    ensures var x := Fetch(w, p, q);
      && Later(w, x.world, p, honest) && x.world.disk == w.disk && x.world.nextId == w.nextId
      && (x.ending.Returned? ==> !x.world.failed)
      && (!q.ChangeMembership? ==> x.world.applied == w.applied)
  {
    ExchangeKeeps(w, p, q, honest);
  }

  /** The epoch a state request reports is the relay's at that moment. */
  lemma StateIsCurrent(w: World, p: Profile, c: Conversation)
    ensures var x := Fetch(w, p, GetState(c));
      x.ending.Returned? && x.ending.value.State? ==> x.ending.value.epoch == Epoch(x.world.relay, c)
  {
  }

  /** A moment that differs only in the script, or in having reloaded the file. */
  lemma SameMoment(w: World, x: World, p: Profile, honest: bool)
    requires Inv(w, p, honest)
    requires x.disk == w.disk && x.nextId == w.nextId && x.relay == w.relay && x.applied == w.applied
    requires (!x.failed ==> x.data == x.disk) && (honest ==> HonestScript(x.script))
    ensures Later(w, x, p, honest)
  {
  }

  /** What a native call leaves alone. */
  lemma NativeFrame(w: World)
    ensures var x := CallNative(w);
      && x.world.disk == w.disk && x.world.nextId == w.nextId && x.world.relay == w.relay
      && x.world.applied == w.applied
      && (x.world.script == w.script || x.world.script == Consumed(w).script)
      && (x.world == w || x.world == Consumed(w) || (x.world.data == w.disk && !x.world.failed))
      && (x.ending.Returned? ==> !x.world.failed)
      && (x.ending.Threw? ==> x.world.data == w.data && x.world.failed == w.failed)
  {
  }

  lemma NativeKeeps(w: World, p: Profile, honest: bool)
    requires Inv(w, p, honest)
    ensures var x := CallNative(w);
      && Later(w, x.world, p, honest) && x.world.disk == w.disk && x.world.nextId == w.nextId
      && x.world.relay == w.relay && x.world.applied == w.applied
      && (x.ending.Returned? ==> !x.world.failed)
      && (x.ending.Threw? ==> x.world.data == w.data && x.world.failed == w.failed)
  {
    ConsumedHonest(w, honest);
    NativeFrame(w);
    SameMoment(w, CallNative(w).world, p, honest);
  }

  lemma DrawKeeps(w: World, p: Profile, honest: bool)
    requires Inv(w, p, honest)
    ensures Later(w, w.(nextId := w.nextId + 1), p, honest)
  {
  }

  /** A write whose data advances what the file holds is a later moment. */
  lemma SaveIsLater(w: World, p: Profile, honest: bool)
    requires StampsIncrease(w.relay.log) && !w.failed
    requires Sound(w.disk, w.relay, w.applied, w.nextId, p, honest)
    requires Sound(w.data, w.relay, w.applied, w.nextId, p, honest)
    requires honest ==> HonestScript(w.script)
    requires Advances(w.disk, w.data)
    ensures Later(w, Save(w).world, p, honest)
    ensures Save(w).ending.Returned? ==> !Save(w).world.failed && Save(w).world.disk == w.data
    ensures Save(w).world.relay == w.relay && Save(w).world.nextId == w.nextId
  {
    SaveKeeps(w, p, honest);
  }

  // ---------------------------------------------------------------- create

  lemma CreateKeeps(w: World, p: Profile, c: Conversation, honest: bool)
    requires Inv(w, p, honest)
    ensures Later(w, Create(w, p, c).world, p, honest)
  {
    LaterSelf(w, p, honest);
    if Idle(w) {
      var x := Fetch(w, p, CreateSession(c));
      FetchKeeps(w, p, CreateSession(c), honest);
      if x.ending.Returned? {
        var y := CallNative(x.world);
        NativeKeeps(x.world, p, honest);
        LaterTransitive(w, x.world, y.world, p, honest);
        if y.ending.Returned? {
          var d := y.world.data;
          var d' := d.(native := d.native + [Started(c)], groups := d.groups[c := Group(1, p.account, p.device)]);
          QuietEventSound(d, d', y.world, p, Started(c), honest);
          SaveIsLater(y.world.(data := d'), p, honest);
          LaterTransitive(w, y.world, Save(y.world.(data := d')).world, p, honest);
        }
      }
    }
  }

  /** The same recorded deliveries and no new digest. */
  lemma SettledSame(d: Data, d': Data)
    requires DigestsSettled(d) && Settled(d') == Settled(d) && d'.own.Keys <= d.own.Keys
    ensures DigestsSettled(d')
    ensures forall key :: key in d'.own ==> key in d.own || !SettledId(d, key.1)
  {
    forall key | key in d'.own ensures SettledId(d', key.1) {
      assert key in d.own;
      var i :| 0 <= i < |Settled(d)| && Settled(d)[i].id == key.1;
      assert Settled(d')[i].id == key.1;
    }
  }

  lemma ReceptionsAfterQuiet(d: Data, d': Data, v: NativeEvent)
    requires Receptions(d) && !IsReception(v)
    requires d'.native == d.native + [v] && d'.cursors == d.cursors
    ensures Receptions(d')
  {
    forall i, j | 0 <= i < j < |d'.native| && IsReception(d'.native[i]) && IsReception(d'.native[j])
                  && d'.native[i].conversation == d'.native[j].conversation
      ensures After(d'.native[j].row.stamp, d'.native[i].row.stamp)
    {
      assert d'.native[i] == d.native[i] && d'.native[j] == d.native[j];
    }
  }

  lemma EchoesUntouched(d: Data, d': Data, r: Relay, p: Profile)
    requires Echoes(d, r, p) && d.outbox.None?
    requires d'.own == d.own && d'.cursors == d.cursors
    ensures Echoes(d', r, p)
  {
    forall i | 0 <= i < |r.log| && AwaitsEcho(d', p, r.log[i]) && r.log[i].envelope !in Pending(d')
      ensures DigestSaved(d', r.log[i])
    {
      assert AwaitsEcho(d, p, r.log[i]);
    }
  }

  /** A native step that sends nothing leaves what is owed to the relay as it was. */
  lemma NothingSentSound(d: Data, d': Data, r: Relay, applied: seq<nat>, nextId: nat, p: Profile, v: NativeEvent)
    requires Delivery(d, r, p) && OwnIds(d, nextId, p) && AppliedOnce(d, r, applied) && d.outbox.None?
    requires !v.Sent? && d'.native == d.native + [v] && d'.outbox.None?
    ensures Delivery(d', r, p) && OwnIds(d', nextId, p) && AppliedOnce(d', r, applied) && Settled(d') == Settled(d)
  {
    SentAppend(d.native, v);
    assert SentIn(d'.native) == SentIn(d.native);
  }

  /** An event that sends and receives nothing disturbs nothing. */
  lemma QuietEventSound(d: Data, d': Data, w: World, p: Profile, v: NativeEvent, honest: bool)
    requires Sound(d, w.relay, w.applied, w.nextId, p, honest) && d.outbox.None?
    requires v.Started? && d' == d.(native := d.native + [v], groups := d'.groups)
    ensures Sound(d', w.relay, w.applied, w.nextId, p, honest) && Advances(d, d')
  {
    NothingSentSound(d, d', w.relay, w.applied, w.nextId, p, v);
    SettledSame(d, d');
    ReceptionsAfterQuiet(d, d', v);
    if honest { EchoesUntouched(d, d', w.relay, p); }
  }

  // ---------------------------------------------------------------- send and change_member

  /** Freshly made envelopes of one operation. */
  predicate FreshBox(box: Outbox, floor: nat, nextId: nat, p: Profile) {
    && (forall e :: e in box.envelopes ==> e.sender == p.device && e.conversation == box.conversation)
    && (forall i :: 0 <= i < |box.envelopes| ==> floor <= box.envelopes[i].id < nextId)
    && (forall i, j :: 0 <= i < j < |box.envelopes| ==> box.envelopes[i].id < box.envelopes[j].id)
  }

  lemma CommissionedDelivers(d: Data, d': Data, r: Relay, p: Profile, box: Outbox)
    requires Delivery(d, r, p) && d.outbox.None?
    requires d'.native == d.native + [Sent(box.envelopes)] && d'.outbox == Some(box)
    ensures Delivery(d', r, p) && Settled(d') == Settled(d)
  {
    SentAppend(d.native, Sent(box.envelopes));
    var sent := SentIn(d.native);
    var sent' := SentIn(d'.native);
    assert Accepted(r.log, p.device) == sent;
    assert sent'[..|sent|] == sent;
    assert sent'[|sent|..] == box.envelopes;
  }

  lemma CommissionedIds(d: Data, d': Data, nextId: nat, p: Profile, box: Outbox, floor: nat)
    requires OwnIds(d, floor, p) && FreshBox(box, floor, nextId, p) && floor <= nextId
    requires d'.native == d.native + [Sent(box.envelopes)] && d'.outbox == Some(box)
    ensures OwnIds(d', nextId, p)
  {
    SentAppend(d.native, Sent(box.envelopes));
    var sent, sent' := SentIn(d.native), SentIn(d'.native);
    forall i | 0 <= i < |sent'| ensures sent'[i].sender == p.device && sent'[i].id < nextId {
      if i >= |sent| { assert sent'[i] == box.envelopes[i - |sent|]; }
    }
  }

  lemma CommissionedSound(d: Data, d': Data, w: World, p: Profile, box: Outbox, floor: nat, honest: bool)
    requires Sound(d, w.relay, w.applied, w.nextId, p, honest) && d.outbox.None?
    requires OwnIds(d, floor, p) && FreshBox(box, floor, w.nextId, p) && floor <= w.nextId
    requires d' == d.(native := d.native + [Sent(box.envelopes)], groups := d'.groups, outbox := Some(box))
    ensures Sound(d', w.relay, w.applied, w.nextId, p, honest) && Advances(d, d')
  {
    CommissionedDelivers(d, d', w.relay, p, box);
    CommissionedIds(d, d', w.nextId, p, box, floor);
    SettledSame(d, d');
    ReceptionsAfterQuiet(d, d', Sent(box.envelopes));
    if honest { EchoesUntouched(d, d', w.relay, p); }
    assert AppliedOnce(d', w.relay, w.applied);
  }

  lemma CommissionKeeps(w: World, p: Profile, box: Outbox, group: Group, floor: nat, honest: bool)
    requires Inv(w, p, honest) && Idle(w)
    requires OwnIds(w.disk, floor, p) && FreshBox(box, floor, w.nextId, p) && floor <= w.nextId
    ensures Later(w, Commission(w, p, box, group).world, p, honest)
  {
    var d := w.data;
    var d' := d.(native := d.native + [Sent(box.envelopes)], groups := d.groups[box.conversation := group],
                 outbox := Some(box));
    CommissionedSound(d, d', w, p, box, floor, honest);
    SaveIsLater(w.(data := d'), p, honest);
    var x := Save(w.(data := d'));
    if x.ending.Returned? {
      FlushKeeps(x.world, p, honest);
      LaterTransitive(w, x.world, Flush(x.world, p).world, p, honest);
    }
  }

  /** Drawing an id and calling the helper, as `send` and `change_member` do. */
  lemma PrepareKeeps(w: World, p: Profile, honest: bool)
    requires Inv(w, p, honest)
    ensures var y := CallNative(w.(nextId := w.nextId + 1));
      && Later(w, y.world, p, honest)
      && y.world.disk == w.disk && y.world.nextId == w.nextId + 1
      && (y.ending.Returned? ==> !y.world.failed)
  {
    DrawKeeps(w, p, honest);
    var w1 := w.(nextId := w.nextId + 1);
    NativeKeeps(w1, p, honest);
    LaterTransitive(w, w1, CallNative(w1).world, p, honest);
  }

  /** A draft that may be written: drawn after everything on file, with nothing else changed. */
  predicate Drafted(w: World, x: Result<World, Draft>, p: Profile, honest: bool) {
    && Later(w, x.world, p, honest)
    && x.world.disk == w.disk && w.nextId <= x.world.nextId
    && (x.ending.Returned? ==> Idle(x.world) && FreshBox(x.ending.value.box, w.nextId, x.world.nextId, p))
  }

  lemma EncryptKeeps(w: World, p: Profile, c: Conversation, group: Group, honest: bool)
    requires Inv(w, p, honest) && Idle(w)
    ensures Drafted(w, Encrypt(w, p, c, group), p, honest)
  {
    PrepareKeeps(w, p, honest);
    EncryptFrame(w, p, c, group);
  }

  lemma EncryptFrame(w: World, p: Profile, c: Conversation, group: Group)
    ensures var x := Encrypt(w, p, c, group);
      var y := CallNative(w.(nextId := w.nextId + 1));
      && x.world == y.world && (x.ending.Returned? ==> y.ending.Returned? && y.world.data == w.data)
      && (x.ending.Returned? ==> FreshBox(x.ending.value.box, w.nextId, w.nextId + 1, p))
  {
  }

  lemma ChangeBoxIsFresh(p: Profile, c: Conversation, target: Device, remove: bool, epoch: nat, reply: NativeReply,
                         id: nat, nextId: nat)
    requires reply.NativeReply? && target in p.pins && id < nextId
    ensures FreshBox(ChangeBox(p, c, target, remove, epoch, reply, id, nextId), id,
                     if remove then nextId else nextId + 1, p)
  {
  }

  lemma ProposeKeeps(w: World, p: Profile, c: Conversation, target: Device, remove: bool, group: Group, honest: bool)
    requires Inv(w, p, honest) && Idle(w) && target in p.pins
    ensures Drafted(w, Propose(w, p, c, target, remove, group), p, honest)
  {
    PrepareKeeps(w, p, honest);
    var y := CallNative(w.(nextId := w.nextId + 1));
    var x := Propose(w, p, c, target, remove, group);
    ProposeFrame(w, p, c, target, remove, group);
    if x.world != y.world {
      DrawKeeps(y.world, p, honest);
      LaterTransitive(w, y.world, x.world, p, honest);
    }
  }

  lemma ProposeFrame(w: World, p: Profile, c: Conversation, target: Device, remove: bool, group: Group)
    requires target in p.pins
    ensures var x := Propose(w, p, c, target, remove, group);
      var y := CallNative(w.(nextId := w.nextId + 1));
      && (x.world == y.world || x.world == y.world.(nextId := y.world.nextId + 1))
      && (x.ending.Returned? ==>
            && y.ending.Returned? && y.world.data == w.data && y.world.nextId == w.nextId + 1
            && FreshBox(x.ending.value.box, w.nextId, x.world.nextId, p))
  {
    var y := CallNative(w.(nextId := w.nextId + 1));
    if y.ending.Returned? && y.ending.value.NativeReply? {
      ChangeBoxIsFresh(p, c, target, remove, group.epoch + 1, y.ending.value, w.nextId, w.nextId + 1);
    }
  }

  /** A draft made after an exchange is a draft made from before it. */
  lemma DraftedAfter(w: World, y: World, x: Result<World, Draft>, p: Profile, honest: bool)
    requires Later(w, y, p, honest) && y.disk == w.disk && y.nextId == w.nextId && Drafted(y, x, p, honest)
    ensures Drafted(w, x, p, honest)
  {
    LaterTransitive(w, y, x.world, p, honest);
  }

  lemma CheckMemberKeeps(w: World, p: Profile, c: Conversation, target: Device, remove: bool, group: Group,
                         honest: bool)
    requires Inv(w, p, honest) && Idle(w) && target in p.pins
    ensures Drafted(w, CheckMember(w, p, c, target, remove, group), p, honest)
  {
    var q := GetMember(c, p.pins[target].account);
    FetchKeeps(w, p, q, honest);
    var y := Fetch(w, p, q);
    if y.ending.Returned? {
      ProposeKeeps(y.world, p, c, target, remove, group, honest);
      DraftedAfter(w, y.world, Propose(y.world, p, c, target, remove, group), p, honest);
    }
  }

  lemma DraftTextKeeps(w: World, p: Profile, c: Conversation, text: string, honest: bool)
    requires Inv(w, p, honest)
    ensures Drafted(w, DraftText(w, p, c, text), p, honest)
  {
    LaterSelf(w, p, honest);
    if Idle(w) && 0 < |text| <= 8000 && c in w.data.groups {
      var x := Fetch(w, p, GetState(c));
      FetchKeeps(w, p, GetState(c), honest);
      if x.ending.Returned? {
        EncryptKeeps(x.world, p, c, w.data.groups[c], honest);
        DraftedAfter(w, x.world, Encrypt(x.world, p, c, w.data.groups[c]), p, honest);
      }
    }
  }

  lemma DraftChangeKeeps(w: World, p: Profile, c: Conversation, target: Device, remove: bool, honest: bool)
    requires Inv(w, p, honest)
    ensures Drafted(w, DraftChange(w, p, c, target, remove), p, honest)
  {
    LaterSelf(w, p, honest);
    if Idle(w) && c in w.data.groups && target in p.pins {
      var x := Fetch(w, p, GetState(c));
      FetchKeeps(w, p, GetState(c), honest);
      DraftChangeUnfolds(w, p, c, target, remove);
      if x.ending.Returned? {
        CheckMemberKeeps(x.world, p, c, target, remove, w.data.groups[c], honest);
        DraftedAfter(w, x.world, CheckMember(x.world, p, c, target, remove, w.data.groups[c]), p, honest);
      }
    }
  }

  lemma DraftChangeUnfolds(w: World, p: Profile, c: Conversation, target: Device, remove: bool)
    requires Idle(w) && c in w.data.groups && target in p.pins
    ensures var x := Fetch(w, p, GetState(c));
      var r := DraftChange(w, p, c, target, remove);
      || (x.ending.Returned? && r == CheckMember(x.world, p, c, target, remove, w.data.groups[c]))
      || (r.world == x.world && !r.ending.Returned?)
      || (r.world == w && !r.ending.Returned?)
  {
  }

  /** Writing a draft and delivering it. */
  lemma WriteDraftKeeps(w: World, x: Result<World, Draft>, p: Profile, honest: bool)
    requires Inv(w, p, honest) && Drafted(w, x, p, honest) && x.ending.Returned?
    ensures Later(w, Commission(x.world, p, x.ending.value.box, x.ending.value.group).world, p, honest)
  {
    CommissionKeeps(x.world, p, x.ending.value.box, x.ending.value.group, w.nextId, honest);
    LaterTransitive(w, x.world, Commission(x.world, p, x.ending.value.box, x.ending.value.group).world, p, honest);
  }

  lemma SendKeeps(w: World, p: Profile, c: Conversation, text: string, honest: bool)
    requires Inv(w, p, honest)
    ensures Later(w, Send(w, p, c, text).world, p, honest)
  {
    DraftTextKeeps(w, p, c, text, honest);
    var x := DraftText(w, p, c, text);
    if x.ending.Returned? { WriteDraftKeeps(w, x, p, honest); }
  }

  lemma ChangeMemberKeeps(w: World, p: Profile, c: Conversation, target: Device, remove: bool, honest: bool)
    requires Inv(w, p, honest)
    ensures Later(w, ChangeMember(w, p, c, target, remove).world, p, honest)
  {
    DraftChangeKeeps(w, p, c, target, remove, honest);
    var x := DraftChange(w, p, c, target, remove);
    if x.ending.Returned? { WriteDraftKeeps(w, x, p, honest); }
  }

  // ---------------------------------------------------------------- flush

  /** Own rows at two places of the log are two different envelopes of the sent history. */
  lemma {:induction false} OwnRowsDiffer(log: seq<Row>, me: Device, i: nat, j: nat) returns (a: nat, b: nat)
    requires i < j < |log| && log[i].envelope.sender == me && log[j].envelope.sender == me
    ensures a < b < |Accepted(log, me)|
    ensures Accepted(log, me)[a] == log[i].envelope && Accepted(log, me)[b] == log[j].envelope
    decreases |log|
  {
    var front := log[..|log| - 1];
    if j < |log| - 1 {
      a, b := OwnRowsDiffer(front, me, i, j);
    } else {
      AcceptedMember(front, me, log[i].envelope);
      assert front[i].envelope == log[i].envelope;
      a :| 0 <= a < |Accepted(front, me)| && Accepted(front, me)[a] == log[i].envelope;
      b := |Accepted(front, me)|;
    }
  }

  /** A message id names one own row. */
  lemma OwnRowsIncrease(d: Data, r: Relay, nextId: nat, p: Profile, i: nat, j: nat)
    requires Delivery(d, r, p) && OwnIds(d, nextId, p) && i < j < |r.log|
    requires r.log[i].envelope.sender == p.device && r.log[j].envelope.sender == p.device
    ensures r.log[i].envelope.id < r.log[j].envelope.id
  {
    var a, b := OwnRowsDiffer(r.log, p.device, i, j);
    assert SentIn(d.native)[a].id < SentIn(d.native)[b].id;
  }

  lemma OwnRowUnique(d: Data, r: Relay, nextId: nat, p: Profile, i: nat, j: nat)
    requires Delivery(d, r, p) && OwnIds(d, nextId, p)
    requires i < |r.log| && j < |r.log|
    requires r.log[i].envelope.sender == p.device && r.log[j].envelope.sender == p.device
    requires r.log[i].envelope.id == r.log[j].envelope.id
    ensures i == j
  {
    if i < j { OwnRowsIncrease(d, r, nextId, p, i, j); }
    if j < i { OwnRowsIncrease(d, r, nextId, p, j, i); }
  }

  predicate HeadAccepted(d: Data, r: Relay, p: Profile) {
    |Pending(d)| > 0 && |Accepted(r.log, p.device)| == |SentIn(d.native)| - |Pending(d)| + 1
  }

  lemma PendingSplits(pending: seq<Envelope>, e: Envelope)
    requires |pending| > 0
    ensures e in pending <==> e == pending[0] || e in pending[1..]
  {
    assert pending == [pending[0]] + pending[1..];
  }

  /** Recording the head's digest in the same write that pops it settles the echo debt. */
  lemma PoppedEchoes(d: Data, r: Relay, nextId: nat, p: Profile)
    requires Delivery(d, r, p) && OwnIds(d, nextId, p) && HeadAccepted(d, r, p) && Echoes(d, r, p)
    ensures Echoes(Popped(d, p), r, p)
  {
    var d' := Popped(d, p);
    var h := HeadRow(d, r, p);
    forall i | 0 <= i < |r.log| && AwaitsEcho(d', p, r.log[i]) && r.log[i].envelope !in Pending(d')
      ensures DigestSaved(d', r.log[i])
    {
      PoppedEcho(d, r, nextId, p, h, i);
    }
  }

  /** Where the relay keeps an accepted head. */
  lemma HeadRow(d: Data, r: Relay, p: Profile) returns (h: nat)
    requires Delivery(d, r, p) && HeadAccepted(d, r, p)
    ensures h < |r.log| && r.log[h].envelope == Pending(d)[0]
  {
    var at := |SentIn(d.native)| - |Pending(d)|;
    assert Accepted(r.log, p.device)[at] == Pending(d)[0];
    AcceptedMember(r.log, p.device, Pending(d)[0]);
    h :| 0 <= h < |r.log| && r.log[h].envelope == Pending(d)[0];
  }

  lemma PoppedEcho(d: Data, r: Relay, nextId: nat, p: Profile, h: nat, i: nat)
    requires Delivery(d, r, p) && OwnIds(d, nextId, p) && HeadAccepted(d, r, p) && Echoes(d, r, p)
    requires h < |r.log| && r.log[h].envelope == Pending(d)[0] && i < |r.log|
    requires AwaitsEcho(Popped(d, p), p, r.log[i]) && r.log[i].envelope !in Pending(Popped(d, p))
    ensures DigestSaved(Popped(d, p), r.log[i])
  {
    assert Pending(d)[0] in Pending(d);
    if r.log[i].envelope.id == Pending(d)[0].id {
      HeadStoredIffAccepted(d, r, nextId, p);
      OwnRowUnique(d, r, nextId, p, i, h);
    } else {
      PendingSplits(Pending(d), r.log[i].envelope);
      assert AwaitsEcho(d, p, r.log[i]);
    }
  }

  lemma PoppedDelivers(d: Data, r: Relay, nextId: nat, p: Profile)
    requires Delivery(d, r, p) && OwnIds(d, nextId, p) && HeadAccepted(d, r, p)
    ensures Delivery(Popped(d, p), r, p) && OwnIds(Popped(d, p), nextId, p)
  {
    PoppedOwnIds(d, nextId, p);
    PoppedDelivery(d, r, p);
  }

  lemma PoppedDelivery(d: Data, r: Relay, p: Profile)
    requires Delivery(d, r, p) && HeadAccepted(d, r, p)
    ensures Delivery(Popped(d, p), r, p)
  {
    var d', sent := Popped(d, p), SentIn(d.native);
    assert Pending(d') == Pending(d)[1..] && SentIn(d'.native) == sent;
    ShorterTail(sent, Pending(d));
  }

  lemma ShorterTail(sent: seq<Envelope>, pending: seq<Envelope>)
    requires 0 < |pending| <= |sent| && pending == sent[|sent| - |pending|..]
    ensures pending[1..] == sent[|sent| - |pending[1..]|..]
  {
  }

  lemma PoppedOwnIds(d: Data, nextId: nat, p: Profile)
    requires OwnIds(d, nextId, p) && |Pending(d)| > 0
    ensures OwnIds(Popped(d, p), nextId, p)
  {
    var d' := Popped(d, p);
    forall e | e in Pending(d') ensures e in Pending(d) {}
  }

  lemma HeadIsNext(d: Data, r: Relay, p: Profile)
    requires Delivery(d, r, p) && |Pending(d)| > 0
    ensures var sent := SentIn(d.native);
      |Settled(d)| < |sent| && Pending(d)[0] == sent[|Settled(d)|] && Settled(d) == sent[..|Settled(d)|]
  {
  }

  lemma HeadBecomesSettled(d: Data, r: Relay, p: Profile)
    requires Delivery(d, r, p) && |Pending(d)| > 0
    ensures Settled(Popped(d, p)) == Settled(d) + [Pending(d)[0]]
  {
    HeadIsNext(d, r, p);
    TakeOneMore(SentIn(d.native), |Settled(d)|);
  }

  lemma HeadIsUnsettled(d: Data, r: Relay, nextId: nat, p: Profile)
    requires Delivery(d, r, p) && OwnIds(d, nextId, p) && |Pending(d)| > 0
    ensures !SettledId(d, Pending(d)[0].id)
  {
    HeadIsNext(d, r, p);
    var at := |Settled(d)|;
    forall i | 0 <= i < |Settled(d)| ensures Settled(d)[i].id != Pending(d)[0].id {
      assert SentIn(d.native)[i].id < SentIn(d.native)[at].id;
    }
  }

  /** Recording a delivery brings its digest, and only that one. */
  lemma PoppedSettles(d: Data, r: Relay, nextId: nat, p: Profile)
    requires Delivery(d, r, p) && OwnIds(d, nextId, p) && HeadAccepted(d, r, p) && DigestsSettled(d)
    ensures DigestsSettled(Popped(d, p)) && Advances(d, Popped(d, p))
  {
    var d', head := Popped(d, p), Pending(d)[0];
    HeadBecomesSettled(d, r, p);
    HeadIsUnsettled(d, r, nextId, p);
    assert head in Pending(d);
    forall key | key in d'.own ensures SettledId(d', key.1) && (key in d.own || !SettledId(d, key.1)) {
      if key in d.own {
        var i :| 0 <= i < |Settled(d)| && Settled(d)[i].id == key.1;
        assert Settled(d')[i].id == key.1;
      } else {
        assert Settled(d')[|Settled(d)|].id == key.1;
      }
    }
  }

  lemma PoppedSound(d: Data, w: World, p: Profile, honest: bool)
    requires Sound(d, w.relay, w.applied, w.nextId, p, honest) && HeadAccepted(d, w.relay, p)
    ensures Sound(Popped(d, p), w.relay, w.applied, w.nextId, p, honest) && Advances(d, Popped(d, p))
  {
    PoppedSettles(d, w.relay, w.nextId, p);
    PoppedDelivers(d, w.relay, w.nextId, p);
    if honest { PoppedEchoes(d, w.relay, w.nextId, p); }
    assert Receptions(Popped(d, p));
    assert AppliedOnce(Popped(d, p), w.relay, w.applied);
  }

  lemma DeliverHeadKeeps(w: World, p: Profile, honest: bool)
    requires Inv(w, p, honest) && !w.failed && PendingCount(w.data) > 0
    ensures Later(w, DeliverHead(w, p).world, p, honest)
    ensures DeliverHead(w, p).ending.Returned? ==> !DeliverHead(w, p).world.failed
  {
    var e := w.data.outbox.value.envelopes[0];
    var q := PostEnvelope(e);
    var x := Exchange(w, p, q);
    ExchangeKeeps(w, p, q, honest);
    if x.ending.Returned? && (x.ending.value == Posted(Created) || x.ending.value == Posted(Duplicate)) {
      PostedMeansAccepted(w, p, e, honest);
      PoppedSound(x.world.data, x.world, p, honest);
      SaveIsLater(x.world.(data := Popped(x.world.data, p)), p, honest);
      LaterTransitive(w, x.world, Save(x.world.(data := Popped(x.world.data, p))).world, p, honest);
    }
  }

  lemma ClearedSound(d: Data, w: World, p: Profile, honest: bool)
    requires Sound(d, w.relay, w.applied, w.nextId, p, honest) && |Pending(d)| == 0
    ensures Sound(d.(outbox := None), w.relay, w.applied, w.nextId, p, honest) && Advances(d, d.(outbox := None))
  {
    var d' := d.(outbox := None);
    assert Pending(d') == Pending(d);
    assert Settled(d') == Settled(d);
    SettledSame(d, d');
    ClearedDelivers(d, d', w.relay, w.nextId, p);
    if honest { ClearedEchoes(d, d', w.relay, p); }
  }

  lemma ClearedDelivers(d: Data, d': Data, r: Relay, nextId: nat, p: Profile)
    requires Delivery(d, r, p) && OwnIds(d, nextId, p)
    requires d'.native == d.native && Pending(d') == Pending(d) == []
    ensures Delivery(d', r, p) && OwnIds(d', nextId, p)
  {
  }

  lemma ClearedEchoes(d: Data, d': Data, r: Relay, p: Profile)
    requires Echoes(d, r, p) && d'.own == d.own && d'.cursors == d.cursors && Pending(d') == Pending(d)
    ensures Echoes(d', r, p)
  {
    forall i | 0 <= i < |r.log| && AwaitsEcho(d', p, r.log[i]) && r.log[i].envelope !in Pending(d')
      ensures DigestSaved(d', r.log[i])
    {
      assert AwaitsEcho(d, p, r.log[i]);
    }
  }

  lemma {:induction false} DeliverKeeps(w: World, p: Profile, honest: bool)
    requires Inv(w, p, honest) && !w.failed
    ensures Later(w, Deliver(w, p).world, p, honest)
    decreases PendingCount(w.data)
  {
    LaterSelf(w, p, honest);
    if w.data.outbox.Some? {
      if PendingCount(w.data) == 0 {
        ClearedSound(w.data, w, p, honest);
        SaveIsLater(w.(data := w.data.(outbox := None)), p, honest);
      } else {
        DeliverHeadKeeps(w, p, honest);
        var x := DeliverHead(w, p);
        if x.ending.Returned? {
          DeliverKeeps(x.world, p, honest);
          LaterTransitive(w, x.world, Deliver(x.world, p).world, p, honest);
        }
      }
    }
  }

  lemma SettleKeeps(w: World, p: Profile, box: Outbox, epoch: nat, honest: bool)
    requires Inv(w, p, honest) && !w.failed
    requires w.disk.outbox == Some(box) && box.membership.Some? && epoch == Epoch(w.relay, box.conversation)
    ensures var x := SettleMembership(w, p, box, epoch);
      Later(w, x.world, p, honest) && (x.ending.Returned? ==> !x.world.failed)
  {
    LaterSelf(w, p, honest);
    var m := box.membership.value;
    if epoch + 1 == box.epoch || epoch == box.epoch {
      var q := ChangeMembership(box.conversation, m);
      var x := if epoch + 1 == box.epoch then Fetch(w, p, q) else Ok(w, Done);
      if epoch + 1 == box.epoch { FetchKeeps(w, p, q, honest); }
      if x.ending.Returned? {
        FetchKeeps(x.world, p, GetMember(box.conversation, m.account), honest);
        LaterTransitive(w, x.world, Fetch(x.world, p, GetMember(box.conversation, m.account)).world, p, honest);
      }
    }
  }

  lemma FlushKeeps(w: World, p: Profile, honest: bool)
    requires Inv(w, p, honest)
    ensures Later(w, Flush(w, p).world, p, honest)
  {
    LaterSelf(w, p, honest);
    if !w.failed && w.data.outbox.Some? {
      var box := w.data.outbox.value;
      var x := Fetch(w, p, GetState(box.conversation));
      FetchKeeps(w, p, GetState(box.conversation), honest);
      StateIsCurrent(w, p, box.conversation);
      if x.ending.Returned? && x.ending.value.State? {
        if box.membership.Some? {
          SettleKeeps(x.world, p, box, x.ending.value.epoch, honest);
          var y := SettleMembership(x.world, p, box, x.ending.value.epoch);
          LaterTransitive(w, x.world, y.world, p, honest);
          if y.ending.Returned? {
            DeliverKeeps(y.world, p, honest);
            LaterTransitive(w, y.world, Deliver(y.world, p).world, p, honest);
          }
        } else if x.ending.value.epoch == box.epoch {
          DeliverKeeps(x.world, p, honest);
          LaterTransitive(w, x.world, Deliver(x.world, p).world, p, honest);
        }
      }
    }
  }

  // ---------------------------------------------------------------- receive

  /** A reception beyond the cursor extends the ordered record of receptions. */
  lemma ReceptionsAfterRow(d: Data, d': Data, c: Conversation, v: NativeEvent)
    requires Receptions(d) && IsReception(v) && v.conversation == c && CursorAdvances(d, c, v.row.stamp)
    requires d'.native == d.native + [v] && d'.cursors == d.cursors[c := v.row.stamp]
    ensures Receptions(d')
  {
    forall i, j | 0 <= i < j < |d'.native| && IsReception(d'.native[i]) && IsReception(d'.native[j])
                  && d'.native[i].conversation == d'.native[j].conversation
      ensures After(d'.native[j].row.stamp, d'.native[i].row.stamp)
    {
      assert d'.native[i] == d.native[i];
      if j < |d.native| { assert d'.native[j] == d.native[j]; }
    }
    forall i | 0 <= i < |d'.native| && IsReception(d'.native[i])
      ensures d'.native[i].conversation in d'.cursors
           && !After(d'.native[i].row.stamp, d'.cursors[d'.native[i].conversation])
    {
      if i < |d.native| { assert d'.native[i] == d.native[i]; }
    }
  }

  lemma ReceptionsAfterMove(d: Data, d': Data, c: Conversation, s: Stamp)
    requires Receptions(d) && CursorAdvances(d, c, s)
    requires d'.native == d.native && d'.cursors == d.cursors[c := s]
    ensures Receptions(d')
  {
  }

  /** Moving the cursor over a foreign row owes no digest. */
  lemma EchoesAfterMove(d: Data, d': Data, r: Relay, p: Profile, c: Conversation, s: Stamp)
    requires Echoes(d, r, p) && CursorAdvances(d, c, s) && d.outbox.None? && d'.outbox.None?
    requires d'.own == d.own && d'.cursors == d.cursors[c := s]
    ensures Echoes(d', r, p)
  {
    forall i | 0 <= i < |r.log| && AwaitsEcho(d', p, r.log[i]) && r.log[i].envelope !in Pending(d')
      ensures DigestSaved(d', r.log[i])
    {
      assert AwaitsEcho(d, p, r.log[i]);
    }
  }

  /** Consuming the digest of a stored own row touches no other row's digest. */
  lemma EchoesAfterOwn(d: Data, d': Data, r: Relay, nextId: nat, p: Profile, c: Conversation, row: Row)
    requires Echoes(d, r, p) && Delivery(d, r, p) && OwnIds(d, nextId, p)
    requires CursorAdvances(d, c, row.stamp) && d.outbox.None? && d'.outbox.None?
    requires row in r.log && row.envelope.conversation == c && row.envelope.sender == p.device
    requires d'.own == d.own - {(c, row.envelope.id)} && d'.cursors == d.cursors[c := row.stamp]
    ensures Echoes(d', r, p)
  {
    var k :| 0 <= k < |r.log| && r.log[k] == row;
    forall i | 0 <= i < |r.log| && AwaitsEcho(d', p, r.log[i]) && r.log[i].envelope !in Pending(d')
      ensures DigestSaved(d', r.log[i])
    {
      assert AwaitsEcho(d, p, r.log[i]);
      if r.log[i].envelope.id == row.envelope.id {
        OwnRowUnique(d, r, nextId, p, i, k);
        assert false;
      }
    }
  }

  /** The data `_receive_one` is about to write for an own row. */
  lemma OwnRowSound(d: Data, d': Data, w: World, p: Profile, c: Conversation, row: Row, honest: bool)
    requires Sound(d, w.relay, w.applied, w.nextId, p, honest) && d.outbox.None?
    requires CursorAdvances(d, c, row.stamp) && row.envelope.sender == p.device
    requires honest ==> GenuineRow(w.relay, c, Delivered(row))
    requires d' == d.(own := d.own - {(c, row.envelope.id)}, cursors := d.cursors[c := row.stamp])
    ensures Sound(d', w.relay, w.applied, w.nextId, p, honest) && Advances(d, d')
  {
    SettledSame(d, d');
    ReceptionsAfterMove(d, d', c, row.stamp);
    if honest { EchoesAfterOwn(d, d', w.relay, w.nextId, p, c, row); }
  }

  lemma SkippedRowSound(d: Data, d': Data, w: World, p: Profile, c: Conversation, s: Stamp, honest: bool)
    requires Sound(d, w.relay, w.applied, w.nextId, p, honest) && d.outbox.None? && CursorAdvances(d, c, s)
    requires d' == d.(cursors := d.cursors[c := s])
    ensures Sound(d', w.relay, w.applied, w.nextId, p, honest) && Advances(d, d')
  {
    SettledSame(d, d');
    ReceptionsAfterMove(d, d', c, s);
    if honest { EchoesAfterMove(d, d', w.relay, p, c, s); }
  }

  lemma AbsorbedRowSound(d: Data, d': Data, w: World, p: Profile, c: Conversation, v: NativeEvent, honest: bool)
    requires Sound(d, w.relay, w.applied, w.nextId, p, honest) && d.outbox.None?
    requires IsReception(v) && v.conversation == c && CursorAdvances(d, c, v.row.stamp)
    requires d' == d.(native := d.native + [v], groups := d'.groups, cursors := d.cursors[c := v.row.stamp])
    ensures Sound(d', w.relay, w.applied, w.nextId, p, honest) && Advances(d, d')
  {
    NothingSentSound(d, d', w.relay, w.applied, w.nextId, p, v);
    SettledSame(d, d');
    ReceptionsAfterRow(d, d', c, v);
    if honest { EchoesAfterMove(d, d', w.relay, p, c, v.row.stamp); }
  }

  /** `_receive_one` keeps the invariant; when it raises while healthy it changed nothing;
      when it returns, the row's effect and its cursor were written together. */
  predicate OneReceived(w: World, x: Result<World, Option<Message>>, p: Profile, c: Conversation, s: Stamp,
                        honest: bool)
  {
    && Later(w, x.world, p, honest)
    && x.world.relay == w.relay
    && (x.ending.Threw? && !x.world.failed ==> x.world.data == w.data && x.world.disk == w.disk)
    && (x.world.disk == w.disk ||
        (CursorAdvances(w.data, c, s) && c in x.world.disk.cursors && x.world.disk.cursors[c] == s))
    && (x.ending.Returned? ==> Idle(x.world) && c in x.world.disk.cursors && x.world.disk.cursors[c] == s)
  }

  lemma AcknowledgeKeeps(w: World, p: Profile, d: Data, c: Conversation, s: Stamp, text: Option<Message>, honest: bool)
    requires Inv(w, p, honest) && Idle(w) && CursorAdvances(w.data, c, s)
    requires d.outbox.None? && Advances(w.disk, d.(cursors := d.cursors[c := s]))
    requires Sound(d.(cursors := d.cursors[c := s]), w.relay, w.applied, w.nextId, p, honest)
    ensures OneReceived(w, Acknowledge(w.(data := d), c, s, text), p, c, s, honest)
  {
    var w1 := w.(data := d.(cursors := d.cursors[c := s]));
    SaveIsLater(w1, p, honest);
    SaveFrame(w1);
    AcknowledgeUnfolds(w.(data := d), c, s, text);
    LaterOfDisk(w1, w, Save(w1).world, p, honest);
  }

  /** How a write can end. */
  lemma SaveFrame(w: World)
    requires !w.failed
    ensures var x := Save(w);
      && (x.world.disk == w.disk || x.world.disk == w.data)
      && (x.ending.Returned? ==> x.world.disk == w.data && x.world.data == w.data && !x.world.failed)
      && (x.ending.Threw? ==> x.world.failed)
  {
  }

  /** Only the file, the relay and the counters of the earlier moment matter. */
  lemma LaterOfDisk(w1: World, w: World, x: World, p: Profile, honest: bool)
    requires Later(w1, x, p, honest)
    requires w.disk == w1.disk && w.relay == w1.relay && w.applied == w1.applied && w.nextId == w1.nextId
    ensures Later(w, x, p, honest)
  {
  }

  lemma ReceiveForeignKeeps(w: World, p: Profile, c: Conversation, row: Row, ownerDevice: Device, ownerId: Account,
                            honest: bool)
    requires Inv(w, p, honest) && Idle(w) && CursorAdvances(w.data, c, row.stamp)
    ensures OneReceived(w, ReceiveForeign(w, p, c, row, ownerDevice, ownerId), p, c, row.stamp, honest)
  {
    LaterSelf(w, p, honest);
    var e := row.envelope;
    var context := Context(c, e.epoch, e.id, e.kind, e.sender);
    if e.header != context || (!e.kind.Application? && e.sender != ownerDevice) {
    } else if e.kind.Welcome? && (c in w.data.groups || e.recipientDevice != Some(p.device)) {
    } else if e.kind.Commit? && c !in w.data.groups {
      SkippedRowSound(w.data, w.data.(cursors := w.data.cursors[c := row.stamp]), w, p, c, row.stamp, honest);
      AcknowledgeKeeps(w, p, w.data, c, row.stamp, None, honest);
    } else {
      NativeKeeps(w, p, honest);
      var x := CallNative(w);
      if x.ending.Returned? {
        AdmitKeeps(x.world, p, c, row, x.ending.value, ownerDevice, ownerId, honest);
        LaterTransitive(w, x.world, Admit(x.world, p, c, row, x.ending.value, ownerDevice, ownerId).world, p, honest);
      }
    }
  }

  lemma AdmitKeeps(w: World, p: Profile, c: Conversation, row: Row, reply: NativeReply, ownerDevice: Device,
                   ownerId: Account, honest: bool)
    requires Inv(w, p, honest) && Idle(w) && CursorAdvances(w.data, c, row.stamp)
    ensures OneReceived(w, Admit(w, p, c, row, reply, ownerDevice, ownerId), p, c, row.stamp, honest)
  {
    LaterSelf(w, p, honest);
    var x := Admit(w, p, c, row, reply, ownerDevice, ownerId);
    if x != Raise(w) {
      var e := row.envelope;
      var v := if e.kind.Welcome? then Joined(c, row) else Received(c, row);
      var d := Absorb(w.data, c, v, Group(e.epoch, ownerId, ownerDevice));
      AbsorbedRowSound(w.data, d.(cursors := d.cursors[c := row.stamp]), w, p, c, v, honest);
      var text := if reply.kind == Some(Application) then Some(Message(e.sender, reply.plaintext.value)) else None;
      AcknowledgeKeeps(w, p, d, c, row.stamp, text, honest);
    }
  }

  lemma ReceiveOneKeeps(w: World, p: Profile, c: Conversation, x: Incoming, ownerDevice: Device, ownerId: Account,
                        honest: bool)
    requires Inv(w, p, honest) && Idle(w) && (honest ==> GenuineRow(w.relay, c, x))
    ensures OneReceived(w, ReceiveOne(w, p, c, x, ownerDevice, ownerId), p, c,
                        if x.Delivered? then x.row.stamp else Stamp(0, 0), honest)
  {
    LaterSelf(w, p, honest);
    if x.Malformed? || x.row.envelope.epoch < 1 || !CursorAdvances(w.data, c, x.row.stamp) {
    } else if x.row.envelope.sender == p.device {
      var key, d := (c, x.row.envelope.id), w.data;
      if key in d.own && d.own[key] == Sha256(x.row.envelope.ciphertext) {
        var d' := d.(own := d.own - {key});
        OwnRowSound(d, d'.(cursors := d'.cursors[c := x.row.stamp]), w, p, c, x.row, honest);
        AcknowledgeKeeps(w, p, d', c, x.row.stamp, None, honest);
      }
    } else {
      ReceiveForeignKeeps(w, p, c, x.row, ownerDevice, ownerId, honest);
    }
  }

  lemma {:induction false} ReceiveRowsKeeps(w: World, p: Profile, c: Conversation, rows: seq<Incoming>,
                                            ownerDevice: Device, ownerId: Account, got: seq<Message>, last: bool,
                                            honest: bool)
    requires Inv(w, p, honest) && Idle(w)
    requires honest ==> forall x :: x in rows ==> GenuineRow(w.relay, c, x)
    ensures var r := ReceiveRows(w, p, c, rows, ownerDevice, ownerId, got, last);
      Later(w, r.world, p, honest) && (r.ending.Returned? && !r.ending.value.last ==> Idle(r.world))
    decreases |rows|
  {
    LaterSelf(w, p, honest);
    if |rows| > 0 {
      assert rows[0] in rows;
      ReceiveOneKeeps(w, p, c, rows[0], ownerDevice, ownerId, honest);
      var r := ReceiveOne(w, p, c, rows[0], ownerDevice, ownerId);
      if r.ending.Returned? {
        var got' := if r.ending.value.Some? then got + [r.ending.value.value] else got;
        forall x | x in rows[1..] ensures x in rows {}
        ReceiveRowsKeeps(r.world, p, c, rows[1..], ownerDevice, ownerId, got', last, honest);
        LaterTransitive(w, r.world,
          ReceiveRows(r.world, p, c, rows[1..], ownerDevice, ownerId, got', last).world, p, honest);
      }
    }
  }

  lemma ReceivePageKeeps(w: World, p: Profile, c: Conversation, ownerDevice: Device, ownerId: Account,
                         got: seq<Message>, honest: bool)
    requires Inv(w, p, honest) && Idle(w)
    ensures var r := ReceivePage(w, p, c, ownerDevice, ownerId, got);
      Later(w, r.world, p, honest) && (r.ending.Returned? && !r.ending.value.last ==> Idle(r.world))
  {
    FetchKeeps(w, p, GetRows(c), honest);
    var r := Fetch(w, p, GetRows(c));
    if r.ending.Returned? && r.ending.value.Page? && |r.ending.value.rows| <= RECEIVE_PAGE_SIZE {
      var rows := r.ending.value.rows;
      var last := |rows| < RECEIVE_PAGE_SIZE;
      if honest { PagesAreGenuine(w, p, c, honest); }
      ReceiveRowsKeeps(r.world, p, c, rows, ownerDevice, ownerId, got, last, honest);
      LaterTransitive(w, r.world, ReceiveRows(r.world, p, c, rows, ownerDevice, ownerId, got, last).world, p, honest);
    }
  }

  /** What holds of one page, as a step between two moments, holds of all. */
  lemma {:induction false} PagesKeep(w: World, pages: nat, got: seq<Message>, page: Pager, ready: World -> bool,
                                     later: (World, World) -> bool)
    requires ready(w)
    requires forall a :: later(a, a)
    requires forall a, b, c :: later(a, b) && later(b, c) ==> later(a, c)
    requires forall v, more :: ready(v) ==>
      var r := page(v, more); later(v, r.world) && (r.ending.Returned? && !r.ending.value.last ==> ready(r.world))
    ensures later(w, Pages(w, pages, got, page).world)
    decreases pages
  {
    if pages > 0 {
      var x := page(w, got);
      if x.ending.Returned? && !x.ending.value.last {
        PagesKeep(x.world, pages - 1, x.ending.value.messages, page, ready, later);
      }
    }
  }

  /** Reading on from a sound moment leads to later moments. */
  predicate Leads(a: World, b: World, p: Profile, honest: bool) { Inv(a, p, honest) ==> Later(a, b, p, honest) }

  lemma LeadsTransitive(a: World, b: World, c: World, p: Profile, honest: bool)
    requires Leads(a, b, p, honest) && Leads(b, c, p, honest)
    ensures Leads(a, c, p, honest)
  {
    if Inv(a, p, honest) { LaterTransitive(a, b, c, p, honest); }
  }

  lemma LeadsSelf(a: World, p: Profile, honest: bool)
    ensures Leads(a, a, p, honest)
  {
    if Inv(a, p, honest) { LaterSelf(a, p, honest); }
  }

  lemma ReceivePagesKeeps(w: World, p: Profile, c: Conversation, pages: nat, ownerDevice: Device,
                          ownerId: Account, got: seq<Message>, honest: bool)
    requires Inv(w, p, honest) && Idle(w)
    ensures Later(w, ReceivePages(w, p, c, pages, ownerDevice, ownerId, got).world, p, honest)
  {
    var page := PagerOf(p, c, ownerDevice, ownerId);
    var ready := (v: World) => Inv(v, p, honest) && Idle(v);
    var later := (a: World, b: World) => Leads(a, b, p, honest);
    forall a ensures later(a, a) { LeadsSelf(a, p, honest); }
    forall a, b, d | later(a, b) && later(b, d) ensures later(a, d) { LeadsTransitive(a, b, d, p, honest); }
    forall v, more | ready(v)
      ensures var r := page(v, more);
        later(v, r.world) && (r.ending.Returned? && !r.ending.value.last ==> ready(r.world))
    {
      ReceivePageKeeps(v, p, c, ownerDevice, ownerId, more, honest);
    }
    PagesKeep(w, pages, got, page, ready, later);
  }

  lemma ReceiveKeeps(w: World, p: Profile, c: Conversation, offered: Option<Device>, honest: bool)
    requires Inv(w, p, honest)
    ensures Later(w, Receive(w, p, c, offered).world, p, honest)
  {
    LaterSelf(w, p, honest);
    if Idle(w) {
      FetchKeeps(w, p, GetState(c), honest);
      var x := Fetch(w, p, GetState(c));
      if x.ending.Returned? && x.ending.value.State? {
        var owner := TrustedOwner(x.world, p, c, offered, x.ending.value.ownerId);
        if owner.Some? {
          ReceivePagesKeeps(x.world, p, c, MAX_RECEIVE_PAGES, owner.value, x.ending.value.ownerId, [], honest);
          LaterTransitive(w, x.world,
            ReceivePages(x.world, p, c, MAX_RECEIVE_PAGES, owner.value, x.ending.value.ownerId, []).world, p, honest);
        }
      }
    }
  }

  // ---------------------------------------------------------------- runs

  predicate HonestRun(run: Run) { forall s :: s in run ==> HonestScript(s.1) }

  lemma PerformKeeps(w: World, p: Profile, command: Command, honest: bool)
    requires Inv(w, p, honest)
    ensures Later(w, Perform(w, p, command), p, honest)
  {
    match command {
      case DoCreate(c) => CreateKeeps(w, p, c, honest);
      case DoSend(c, text) => SendKeeps(w, p, c, text, honest);
      case DoChange(c, target, remove) => ChangeMemberKeeps(w, p, c, target, remove, honest);
      case DoFlush => FlushKeeps(w, p, honest);
      case DoReceive(c, offered) => ReceiveKeeps(w, p, c, offered, honest);
      case DoReopen => LaterSelf(w, p, honest);
      case Elapse(actions) => LaterSelf(w, p, honest); InterferenceKeeps(w, p, honest, actions);
    }
  }

  lemma StepKeeps(w: World, p: Profile, command: Command, script: seq<Turn>, honest: bool)
    requires Inv(w, p, honest) && (honest ==> HonestScript(script))
    ensures Later(w, Step(w, p, command, script), p, honest)
  {
    var v := w.(script := script);
    LaterSelf(w, p, honest);
    assert Later(w, v, p, honest);
    PerformKeeps(v, p, command, honest);
    LaterTransitive(w, v, Perform(v, p, command), p, honest);
  }

  lemma {:induction false} RunKeeps(w: World, p: Profile, run: Run, honest: bool)
    requires Inv(w, p, honest) && (honest ==> HonestRun(run))
    ensures Later(w, Execute(w, p, run), p, honest)
    decreases |run|
  {
    LaterSelf(w, p, honest);
    if |run| > 0 {
      assert run[0] in run;
      var w1 := Step(w, p, run[0].0, run[0].1);
      StepKeeps(w, p, run[0].0, run[0].1, honest);
      forall s | s in run[1..] ensures s in run {}
      RunKeeps(w1, p, run[1..], honest);
      LaterTransitive(w, w1, Execute(w1, p, run[1..]), p, honest);
    }
  }

  lemma NoOwnRows(log: seq<Row>, me: Device, i: nat)
    requires Accepted(log, me) == [] && i < |log|
    ensures log[i].envelope.sender != me
  {
    AcceptedMember(log, me, log[i].envelope);
  }

  lemma InitialInv(w: World, p: Profile, honest: bool)
    requires Initial(w, p)
    ensures Inv(w, p, honest)
  {
    EmptyDelivery(w.disk, w.relay, w.nextId, p);
    EmptyHistory(w.disk, w.relay);
    EmptyEchoes(w.disk, w.relay, p);
  }

  lemma EmptyDelivery(d: Data, r: Relay, nextId: nat, p: Profile)
    requires d.native == [] && d.outbox.None? && Accepted(r.log, p.device) == []
    ensures Delivery(d, r, p) && OwnIds(d, nextId, p)
  {
    assert SentIn(d.native) == [] && Pending(d) == [];
  }

  lemma EmptyHistory(d: Data, r: Relay)
    requires d.native == [] && d.own == map[] && d.outbox.None?
    ensures Receptions(d) && DigestsSettled(d) && AppliedOnce(d, r, [])
  {
  }

  lemma EmptyEchoes(d: Data, r: Relay, p: Profile)
    requires Accepted(r.log, p.device) == []
    ensures Echoes(d, r, p)
  {
    forall i | 0 <= i < |r.log| ensures !AwaitsEcho(d, p, r.log[i]) { NoOwnRows(r.log, p.device, i); }
  }
}
