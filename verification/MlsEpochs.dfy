/** Epochs start at one: over every run, no group and no envelope of the client's history has epoch zero, which the
    receiving side refuses. */
module MlsEpochs {
  import opened Prelude
  import opened MlsRelay
  import opened MlsSpec
  import opened MlsSafety
  import opened MlsRuns

  /** The envelopes of an outbox belong to its conversation and epoch, and exactly a Welcome names a device. */
  predicate Addressed(box: Outbox) {
    forall e :: e in box.envelopes ==>
      && e.epoch == box.epoch && e.conversation == box.conversation
      && (e.kind.Welcome? <==> e.recipientDevice.Some?)
  }

  predicate Positive(d: Data) {
    && (d.outbox.Some? ==> Addressed(d.outbox.value))
    && (forall c :: c in d.groups ==> d.groups[c].epoch >= 1)
    && (forall e :: e in SentIn(d.native) ==> e.epoch >= 1)
  }

  predicate Grounded(w: World) { Positive(w.data) && Positive(w.disk) }

  predicate PositiveDraft(d: Draft) {
    d.group.epoch >= 1 && Addressed(d.box) && forall e :: e in d.box.envelopes ==> e.epoch >= 1
  }

  /** Whatever keeps data and file, or reloads the one from the other, keeps both positive. */
  lemma {:induction false} SameData(w: World, x: World)
    requires Grounded(w) && x.disk == w.disk && (x.data == w.data || x.data == w.disk)
    ensures Grounded(x)
  {
  }

  lemma {:induction false} SaveGrounded(w: World)
    requires Grounded(w)
    ensures Grounded(Save(w).world)
  {
  }

  lemma {:induction false} FetchGrounded(w: World, p: Profile, q: Request)
    requires Grounded(w)
    ensures Grounded(Fetch(w, p, q).world) && Grounded(Exchange(w, p, q).world)
  {
    var x := Exchange(w, p, q).world;
    assert x.disk == w.disk && (x.data == w.data || x.data == w.disk);
    SameData(w, x);
  }

  lemma {:induction false} NativeGrounded(w: World)
    requires Grounded(w)
    ensures Grounded(CallNative(w).world)
  {
    NativeFrame(w);
  }

  lemma {:induction false} CreateGrounded(w: World, p: Profile, c: Conversation)
    requires Grounded(w)
    ensures Grounded(Create(w, p, c).world)
  {
    if Idle(w) {
      FetchGrounded(w, p, CreateSession(c));
      var x := Fetch(w, p, CreateSession(c));
      if x.ending.Returned? {
        NativeGrounded(x.world);
        var y := CallNative(x.world);
        if y.ending.Returned? {
          var d := y.world.data;
          var d' := d.(native := d.native + [Started(c)], groups := d.groups[c := Group(1, p.account, p.device)]);
          SentAppend(d.native, Started(c));
          SaveGrounded(y.world.(data := d'));
        }
      }
    }
  }

  lemma {:induction false} EncryptGrounded(w: World, p: Profile, c: Conversation, group: Group)
    requires Grounded(w) && group.epoch >= 1
    ensures var x := Encrypt(w, p, c, group);
      Grounded(x.world) && (x.ending.Returned? ==> PositiveDraft(x.ending.value))
  {
    NativeGrounded(w.(nextId := w.nextId + 1));
  }

  lemma {:induction false} DraftTextGrounded(w: World, p: Profile, c: Conversation, text: string)
    requires Grounded(w)
    ensures var x := DraftText(w, p, c, text);
      Grounded(x.world) && (x.ending.Returned? ==> PositiveDraft(x.ending.value))
  {
    FetchGrounded(w, p, GetState(c));
    var x := Fetch(w, p, GetState(c));
    if Idle(w) && c in w.data.groups && x.ending.Returned? { EncryptGrounded(x.world, p, c, w.data.groups[c]); }
  }

  lemma {:induction false} ProposeGrounded(w: World, p: Profile, c: Conversation, target: Device, remove: bool,
                                           group: Group)
    requires Grounded(w) && target in p.pins
    ensures var x := Propose(w, p, c, target, remove, group);
      Grounded(x.world) && (x.ending.Returned? ==> PositiveDraft(x.ending.value))
  {
    NativeGrounded(w.(nextId := w.nextId + 1));
  }

  lemma {:induction false} CheckMemberGrounded(w: World, p: Profile, c: Conversation, target: Device, remove: bool,
                                               group: Group)
    requires Grounded(w) && target in p.pins
    ensures var x := CheckMember(w, p, c, target, remove, group);
      Grounded(x.world) && (x.ending.Returned? ==> PositiveDraft(x.ending.value))
  {
    var q := GetMember(c, p.pins[target].account);
    FetchGrounded(w, p, q);
    var y := Fetch(w, p, q);
    if y.ending.Returned? { ProposeGrounded(y.world, p, c, target, remove, group); }
  }

  lemma {:induction false} DraftChangeGrounded(w: World, p: Profile, c: Conversation, target: Device, remove: bool)
    requires Grounded(w)
    ensures var x := DraftChange(w, p, c, target, remove);
      Grounded(x.world) && (x.ending.Returned? ==> PositiveDraft(x.ending.value))
  {
    FetchGrounded(w, p, GetState(c));
    var x := Fetch(w, p, GetState(c));
    if Idle(w) && c in w.data.groups && target in p.pins && x.ending.Returned? {
      CheckMemberGrounded(x.world, p, c, target, remove, w.data.groups[c]);
    }
  }

  lemma {:induction false} DeliverGrounded(w: World, p: Profile)
    requires Grounded(w)
    ensures Grounded(Deliver(w, p).world)
    decreases PendingCount(w.data)
  {
    if w.data.outbox.Some? {
      if PendingCount(w.data) == 0 {
        SaveGrounded(w.(data := w.data.(outbox := None)));
      } else {
        DeliverHeadGrounded(w, p);
        var r := DeliverHead(w, p);
        if !r.IsFailure() { DeliverGrounded(r.world, p); }
      }
    }
  }

  lemma {:induction false} DeliverHeadGrounded(w: World, p: Profile)
    requires Grounded(w) && PendingCount(w.data) > 0
    ensures Grounded(DeliverHead(w, p).world)
  {
    var q := PostEnvelope(w.data.outbox.value.envelopes[0]);
    FetchGrounded(w, p, q);
    var x := Exchange(w, p, q);
    if x.ending.Returned? {
      assert x.world.data == w.data;
      SaveGrounded(x.world.(data := Popped(x.world.data, p)));
    }
  }

  lemma {:induction false} SettleGrounded(w: World, p: Profile, box: Outbox, epoch: nat)
    requires Grounded(w) && box.membership.Some?
    ensures Grounded(SettleMembership(w, p, box, epoch).world)
  {
    var m := box.membership.value;
    FetchGrounded(w, p, ChangeMembership(box.conversation, m));
    var x := if epoch + 1 == box.epoch then Fetch(w, p, ChangeMembership(box.conversation, m)) else Ok(w, Done);
    if x.ending.Returned? { FetchGrounded(x.world, p, GetMember(box.conversation, m.account)); }
    SettleUnfolds(w, p, box, epoch, x);
  }

  lemma {:induction false} SettleUnfolds(w: World, p: Profile, box: Outbox, epoch: nat, x: Result<World, Response>)
    requires box.membership.Some?
    requires x == if epoch + 1 == box.epoch
                  then Fetch(w, p, ChangeMembership(box.conversation, box.membership.value)) else Ok(w, Done)
    ensures var y := SettleMembership(w, p, box, epoch).world;
      || y == w || y == x.world
      || (x.ending.Returned? && y == Fetch(x.world, p, GetMember(box.conversation, box.membership.value.account)).world)
  {
  }

  lemma {:induction false} FlushGrounded(w: World, p: Profile)
    requires Grounded(w)
    ensures Grounded(Flush(w, p).world)
  {
    if !w.failed && w.data.outbox.Some? {
      var box := w.data.outbox.value;
      FetchGrounded(w, p, GetState(box.conversation));
      var x := Fetch(w, p, GetState(box.conversation));
      if x.ending.Returned? && x.ending.value.State? {
        if box.membership.Some? {
          SettleGrounded(x.world, p, box, x.ending.value.epoch);
          DeliverGrounded(SettleMembership(x.world, p, box, x.ending.value.epoch).world, p);
        } else {
          DeliverGrounded(x.world, p);
        }
      }
    }
  }

  lemma {:induction false} CommissionGrounded(w: World, p: Profile, draft: Draft)
    requires Grounded(w) && PositiveDraft(draft)
    ensures Grounded(Commission(w, p, draft.box, draft.group).world)
  {
    var d, box := w.data, draft.box;
    var d' := d.(native := d.native + [Sent(box.envelopes)], groups := d.groups[box.conversation := draft.group],
                 outbox := Some(box));
    SentAppend(d.native, Sent(box.envelopes));
    SaveGrounded(w.(data := d'));
    var x := Save(w.(data := d'));
    if x.ending.Returned? { FlushGrounded(x.world, p); }
  }

  lemma {:induction false} AcknowledgeGrounded(w: World, c: Conversation, s: Stamp, text: Option<Message>)
    requires Grounded(w)
    ensures Grounded(Acknowledge(w, c, s, text).world)
  {
    SaveGrounded(w.(data := w.data.(cursors := w.data.cursors[c := s])));
    AcknowledgeUnfolds(w, c, s, text);
  }

  lemma {:induction false} AdmitGrounded(w: World, p: Profile, c: Conversation, row: Row, reply: NativeReply,
                                         ownerDevice: Device, ownerId: Account)
    requires Grounded(w) && row.envelope.epoch >= 1
    ensures Grounded(Admit(w, p, c, row, reply, ownerDevice, ownerId).world)
  {
    var x := Admit(w, p, c, row, reply, ownerDevice, ownerId);
    if x != Raise(w) {
      var e := row.envelope;
      var event := if e.kind.Welcome? then Joined(c, row) else Received(c, row);
      var d := Absorb(w.data, c, event, Group(e.epoch, ownerId, ownerDevice));
      SentAppend(w.data.native, event);
      var text := if reply.kind == Some(Application) then Some(Message(e.sender, reply.plaintext.value)) else None;
      AcknowledgeGrounded(w.(data := d), c, row.stamp, text);
    }
  }

  lemma {:induction false} ReceiveOneGrounded(w: World, p: Profile, c: Conversation, x: Incoming, ownerDevice: Device,
                                              ownerId: Account)
    requires Grounded(w)
    ensures Grounded(ReceiveOne(w, p, c, x, ownerDevice, ownerId).world)
  {
    if x.Malformed? || x.row.envelope.epoch < 1 || !CursorAdvances(w.data, c, x.row.stamp) {
    } else if x.row.envelope.sender == p.device {
      var key := (c, x.row.envelope.id);
      AcknowledgeGrounded(w.(data := w.data.(own := w.data.own - {key})), c, x.row.stamp, None);
    } else {
      ReceiveForeignGrounded(w, p, c, x.row, ownerDevice, ownerId);
    }
  }

  lemma {:induction false} ReceiveForeignGrounded(w: World, p: Profile, c: Conversation, row: Row, ownerDevice: Device,
                                                  ownerId: Account)
    requires Grounded(w) && row.envelope.epoch >= 1
    ensures Grounded(ReceiveForeign(w, p, c, row, ownerDevice, ownerId).world)
  {
    AcknowledgeGrounded(w, c, row.stamp, None);
    NativeGrounded(w);
    var x := CallNative(w);
    if x.ending.Returned? { AdmitGrounded(x.world, p, c, row, x.ending.value, ownerDevice, ownerId); }
  }

  lemma {:induction false} ReceiveRowsGrounded(w: World, p: Profile, c: Conversation, rows: seq<Incoming>,
                                               ownerDevice: Device, ownerId: Account, got: seq<Message>, last: bool)
    requires Grounded(w)
    ensures Grounded(ReceiveRows(w, p, c, rows, ownerDevice, ownerId, got, last).world)
    decreases |rows|
  {
    if |rows| > 0 {
      ReceiveOneGrounded(w, p, c, rows[0], ownerDevice, ownerId);
      var r := ReceiveOne(w, p, c, rows[0], ownerDevice, ownerId);
      if r.ending.Returned? {
        var got' := if r.ending.value.Some? then got + [r.ending.value.value] else got;
        ReceiveRowsGrounded(r.world, p, c, rows[1..], ownerDevice, ownerId, got', last);
      }
    }
  }

  lemma {:induction false} ReceivePageGrounded(w: World, p: Profile, c: Conversation, ownerDevice: Device,
                                               ownerId: Account, got: seq<Message>)
    requires Grounded(w)
    ensures Grounded(ReceivePage(w, p, c, ownerDevice, ownerId, got).world)
  {
    FetchGrounded(w, p, GetRows(c));
    var r := Fetch(w, p, GetRows(c));
    if r.ending.Returned? && r.ending.value.Page? {
      var rows := r.ending.value.rows;
      ReceiveRowsGrounded(r.world, p, c, rows, ownerDevice, ownerId, got, |rows| < RECEIVE_PAGE_SIZE);
    }
  }

  lemma {:induction false} ReceivePagesGrounded(w: World, p: Profile, c: Conversation, pages: nat, ownerDevice: Device,
                                                ownerId: Account, got: seq<Message>)
    requires Grounded(w)
    ensures Grounded(ReceivePages(w, p, c, pages, ownerDevice, ownerId, got).world)
  {
    var page := PagerOf(p, c, ownerDevice, ownerId);
    var ready := (v: World) => Grounded(v);
    var later := (a: World, b: World) => Grounded(a) ==> Grounded(b);
    forall v, more | ready(v)
      ensures var r := page(v, more);
        later(v, r.world) && (r.ending.Returned? && !r.ending.value.last ==> ready(r.world))
    {
      ReceivePageGrounded(v, p, c, ownerDevice, ownerId, more);
    }
    PagesKeep(w, pages, got, page, ready, later);
  }

  lemma {:induction false} ReceiveGrounded(w: World, p: Profile, c: Conversation, offered: Option<Device>)
    requires Grounded(w)
    ensures Grounded(Receive(w, p, c, offered).world)
  {
    FetchGrounded(w, p, GetState(c));
    var x := Fetch(w, p, GetState(c));
    if Idle(w) && x.ending.Returned? && x.ending.value.State? {
      var owner := TrustedOwner(x.world, p, c, offered, x.ending.value.ownerId);
      if owner.Some? {
        ReceivePagesGrounded(x.world, p, c, MAX_RECEIVE_PAGES, owner.value, x.ending.value.ownerId, []);
      }
    }
  }

  lemma {:induction false} PerformGrounded(w: World, p: Profile, command: Command)
    requires Grounded(w)
    ensures Grounded(Perform(w, p, command))
  {
    match command
    case DoCreate(c) => CreateGrounded(w, p, c);
    case DoSend(c, text) =>
      DraftTextGrounded(w, p, c, text);
      var x := DraftText(w, p, c, text);
      if x.ending.Returned? { CommissionGrounded(x.world, p, x.ending.value); }
    case DoChange(c, target, remove) =>
      DraftChangeGrounded(w, p, c, target, remove);
      var x := DraftChange(w, p, c, target, remove);
      if x.ending.Returned? { CommissionGrounded(x.world, p, x.ending.value); }
    case DoFlush => FlushGrounded(w, p);
    case DoReceive(c, offered) => ReceiveGrounded(w, p, c, offered);
    case DoReopen =>
    case Elapse(_) =>
  }

  /** Over every run the epochs of all groups and of everything ever sent are at least one. */
  lemma {:induction false} EpochsStartAtOne(w: World, p: Profile, run: Run)
    requires Grounded(w)
    ensures Grounded(Execute(w, p, run))
    decreases |run|
  {
    if |run| > 0 {
      PerformGrounded(w.(script := run[0].1), p, run[0].0);
      EpochsStartAtOne(Step(w, p, run[0].0, run[0].1), p, run[1..]);
    }
  }

  /** Hence every row this device got accepted has one. */
  lemma {:induction false} OwnRowHasEpoch(w: World, p: Profile, run: Run, row: Row)
    requires Initial(w, p)
    requires row in Execute(w, p, run).relay.log && row.envelope.sender == p.device
    ensures row.envelope.epoch >= 1
  {
    var v := Execute(w, p, run);
    EpochsStartAtOne(w, p, run);
    InitialInv(w, p, false);
    RunKeeps(w, p, run, false);
    var accepted := Accepted(v.relay.log, p.device);
    AcceptedMember(v.relay.log, p.device, row.envelope);
    var i :| 0 <= i < |accepted| && accepted[i] == row.envelope;
    assert SentIn(v.disk.native)[i] == row.envelope;
    assert row.envelope in SentIn(v.disk.native);
  }
}
