/** clients/mls_client.py in its own form: an object whose methods update `data` in
    place, write the vault and talk to the relay.  Every method does exactly what
    MlsSpec says, so the theorems about runs are theorems about this object. */
module MlsClientObject {
  import opened Prelude
  import opened MlsRelay
  import opened MlsSpec

  class MlsClient {
    const profile: Profile
    var data: Data
    var disk: Data
    var failed: bool
    var relay: Relay
    var applied: seq<nat>
    var nextId: nat
    var script: seq<Turn>

    constructor (profile: Profile, relay: Relay, script: seq<Turn>)
      ensures this.profile == profile
      ensures Now() == World(Data([], map[], map[], None, map[]), Data([], map[], map[], None, map[]),
                             false, relay, [], 0, script)
    {
      this.profile := profile;
      data := Data([], map[], map[], None, map[]);
      disk := Data([], map[], map[], None, map[]);
      failed, applied, nextId := false, [], 0;
      this.relay, this.script := relay, script;
    }

    /** The state of the object, the vault file and the relay. */
    function Now(): World
      reads this
    {
      World(data, disk, failed, relay, applied, nextId, script)
    }

    /** The fault of the next action, taken off the script. */
    method Next() returns (t: Turn)
      modifies this`script
      ensures t == NextTurn(old(Now())) && Now() == Consumed(old(Now()))
    {
      if |script| == 0 {
        t := Turn([], CrashBefore, Stamp(0, 0), true, NativeRefused, [], false);
      } else {
        t := script[0];
        script := script[1..];
      }
    }

    /** Close and open the profile, or come back after a crash. */
    method Open()
      modifies this`data, this`failed
      ensures Now() == Reopen(old(Now()))
    {
      data, failed := disk, false;
    }

    method SaveVault() returns (end: Ending<()>)
      modifies this`data, this`disk, this`failed, this`script
      ensures Result(Now(), end) == Save(old(Now()))
    {
      if failed { return Threw; }
      var t := Next();
      if t.fault.Effective() { disk := data; }
      if t.fault.Crashes() {
        Open();
        return Died;
      }
      if t.fault.Fine? { return Returned(()); }
      failed := true;
      return Threw;
    }

    method Request(q: Request) returns (end: Ending<Response>)
      modifies this
      ensures Result(Now(), end) == Exchange(old(Now()), profile, q)
    {
      if failed { return Threw; }
      var t := Next();
      relay := InterfereAll(relay, t.interference, profile.device);
      var (relay', response) := Serve(relay, q, t, profile.account);
      if t.fault.Effective() {
        relay := relay';
        if q.ChangeMembership? && response.Done? { applied := applied + [|disk.native|]; }
      }
      if t.fault.Crashes() {
        Open();
        return Died;
      }
      if t.fault.Fine? { return Returned(response); }
      return Threw;
    }

    method Get(q: Request) returns (end: Ending<Response>)
      modifies this
      ensures Result(Now(), end) == Fetch(old(Now()), profile, q)
    {
      end := Request(q);
      if end.Returned? && end.value.HttpError? { end := Threw; }
    }

    method Native() returns (end: Ending<NativeReply>)
      modifies this
      ensures Result(Now(), end) == CallNative(old(Now()))
    {
      if failed { return Threw; }
      var t := Next();
      if t.fault.Crashes() {
        Open();
        return Died;
      }
      if !t.fault.Fine? || t.native.NativeRefused? { return Threw; }
      return Returned(t.native);
    }

    method Settle(box: Outbox, epoch: nat) returns (end: Ending<()>)
      requires box.membership.Some?
      modifies this
      ensures Result(Now(), end) == SettleMembership(old(Now()), profile, box, epoch)
    {
      var m := box.membership.value;
      if epoch + 1 == box.epoch {
        var r := Get(ChangeMembership(box.conversation, m));
        if !r.Returned? { return if r.Died? then Died else Threw; }
      } else if epoch != box.epoch {
        return Threw;
      }
      var r := Get(GetMember(box.conversation, m.account));
      if !r.Returned? { return if r.Died? then Died else Threw; }
      if r.value.MemberIs? && Acknowledged(m, box.epoch, r.value.member) { return Returned(()); }
      return Threw;
    }

    /** The `while pending["envelopes"]` loop and the write that clears the outbox. */
    method DeliverOutbox() returns (end: Ending<()>)
      requires data.outbox.Some?
      modifies this
      ensures Result(Now(), end) == Deliver(old(Now()), profile)
    {
      while |data.outbox.value.envelopes| > 0
        invariant data.outbox.Some?
        invariant Deliver(Now(), profile) == Deliver(old(Now()), profile)
        decreases PendingCount(data)
      {
        var envelope := data.outbox.value.envelopes[0];
        var r := Request(PostEnvelope(envelope));
        if !r.Returned? { return if r.Died? then Died else Threw; }
        if r.value != Posted(Created) && r.value != Posted(Duplicate) { return Threw; }
        var box := data.outbox.value;
        if EchoExpected(profile, envelope) {
          data := data.(own := data.own[(box.conversation, envelope.id) := Sha256(envelope.ciphertext)]);
        }
        data := data.(outbox := Some(box.(envelopes := box.envelopes[1..])));
        var saved := SaveVault();
        if !saved.Returned? { return saved; }
      }
      data := data.(outbox := None);
      end := SaveVault();
    }

    method FlushOutbox() returns (end: Ending<()>)
      modifies this
      ensures Result(Now(), end) == Flush(old(Now()), profile)
    {
      if failed { return Threw; }
      if data.outbox.None? { return Returned(()); }
      var box := data.outbox.value;
      var r := Get(GetState(box.conversation));
      if !r.Returned? { return if r.Died? then Died else Threw; }
      if !r.value.State? { return Threw; }
      if box.membership.Some? {
        var settled := Settle(box, r.value.epoch);
        if !settled.Returned? { return settled; }
      } else if r.value.epoch != box.epoch {
        return Threw;
      }
      end := DeliverOutbox();
    }

    /** Native state, exact ciphertext and intent in one write, then the first delivery attempt. */
    method CommissionOutbox(box: Outbox, group: Group) returns (end: Ending<()>)
      modifies this
      ensures Result(Now(), end) == Commission(old(Now()), profile, box, group)
    {
      data := data.(native := data.native + [Sent(box.envelopes)]);
      data := data.(groups := data.groups[box.conversation := group]);
      data := data.(outbox := Some(box));
      end := SaveVault();
      if end.Returned? { end := FlushOutbox(); }
    }

    method SendText(conversation: Conversation, text: string) returns (end: Ending<()>)
      modifies this
      ensures Result(Now(), end) == Send(old(Now()), profile, conversation, text)
    {
      var d := MakeText(conversation, text);
      if !d.Returned? { return if d.Died? then Died else Threw; }
      end := CommissionOutbox(d.value.box, d.value.group);
    }

    method MakeText(conversation: Conversation, text: string) returns (end: Ending<Draft>)
      modifies this
      ensures Result(Now(), end) == DraftText(old(Now()), profile, conversation, text)
    {
      if failed || data.outbox.Some? || |text| == 0 || |text| > 8000 { return Threw; }
      if conversation !in data.groups { return Threw; }
      var group := data.groups[conversation];
      var r := Get(GetState(conversation));
      if !r.Returned? { return if r.Died? then Died else Threw; }
      if !r.value.State? || r.value.epoch != group.epoch { return Threw; }
      end := EncryptText(conversation, group);
    }

    method EncryptText(conversation: Conversation, group: Group) returns (end: Ending<Draft>)
      modifies this
      ensures Result(Now(), end) == Encrypt(old(Now()), profile, conversation, group)
    {
      var id := nextId;
      nextId := nextId + 1;
      var n := Native();
      if !n.Returned? { return if n.Died? then Died else Threw; }
      if !n.value.NativeReply? || n.value.epoch + 1 != group.epoch { return Threw; }
      var e := MakeEnvelope(profile, conversation, group.epoch, Application, id, None, n.value.message);
      return Returned(Draft(Outbox(conversation, group.epoch, None, [e]), group));
    }

    method AlterMember(conversation: Conversation, target: Device, remove: bool) returns (end: Ending<()>)
      modifies this
      ensures Result(Now(), end) == ChangeMember(old(Now()), profile, conversation, target, remove)
    {
      var d := MakeChange(conversation, target, remove);
      if !d.Returned? { return if d.Died? then Died else Threw; }
      end := CommissionOutbox(d.value.box, d.value.group);
    }

    method MakeChange(conversation: Conversation, target: Device, remove: bool) returns (end: Ending<Draft>)
      modifies this
      ensures Result(Now(), end) == DraftChange(old(Now()), profile, conversation, target, remove)
    {
      if failed || data.outbox.Some? { return Threw; }
      if conversation !in data.groups || data.groups[conversation].ownerDevice != profile.device
         || target !in profile.pins {
        return Threw;
      }
      var group := data.groups[conversation];
      var r := Get(GetState(conversation));
      if !r.Returned? { return if r.Died? then Died else Threw; }
      if !r.value.State? || r.value.epoch != group.epoch { return Threw; }
      end := CheckTarget(conversation, target, remove, group);
    }

    method CheckTarget(conversation: Conversation, target: Device, remove: bool, group: Group)
      returns (end: Ending<Draft>)
      requires target in profile.pins
      modifies this
      ensures Result(Now(), end) == CheckMember(old(Now()), profile, conversation, target, remove, group)
    {
      var m := Get(GetMember(conversation, profile.pins[target].account));
      if !m.Returned? { return if m.Died? then Died else Threw; }
      if !m.value.MemberIs? || (m.value.member.Some? && m.value.member.value.active) != remove { return Threw; }
      end := ProposeChange(conversation, target, remove, group);
    }

    method ProposeChange(conversation: Conversation, target: Device, remove: bool, group: Group)
      returns (end: Ending<Draft>)
      requires target in profile.pins
      modifies this
      ensures Result(Now(), end) == Propose(old(Now()), profile, conversation, target, remove, group)
    {
      var id := nextId;
      nextId := nextId + 1;
      var n := Native();
      if !n.Returned? { return if n.Died? then Died else Threw; }
      if !n.value.NativeReply? || !RosterAccepted(profile, n.value.members) || n.value.epoch != group.epoch {
        return Threw;
      }
      var box := ChangeBox(profile, conversation, target, remove, group.epoch + 1, n.value, id, nextId);
      nextId := if remove then nextId else nextId + 1;
      return Returned(Draft(box, group.(epoch := group.epoch + 1)));
    }

    /** The cursor moves and everything is written at once. */
    method MoveCursor(conversation: Conversation, stamp: Stamp, text: Option<Message>)
      returns (end: Ending<Option<Message>>)
      modifies this
      ensures Result(Now(), end) == Acknowledge(old(Now()), conversation, stamp, text)
    {
      data := data.(cursors := data.cursors[conversation := stamp]);
      var saved := SaveVault();
      if !saved.Returned? { return if saved.Died? then Died else Threw; }
      return Returned(text);
    }

    method TakeForeign(conversation: Conversation, row: Row, ownerDevice: Device, ownerId: Account)
      returns (end: Ending<Option<Message>>)
      modifies this
      ensures Result(Now(), end) == ReceiveForeign(old(Now()), profile, conversation, row, ownerDevice, ownerId)
    {
      var e := row.envelope;
      var context := Context(conversation, e.epoch, e.id, e.kind, e.sender);
      if e.header != context || (!e.kind.Application? && e.sender != ownerDevice) { return Threw; }
      if e.kind.Welcome? && (conversation in data.groups || e.recipientDevice != Some(profile.device)) { return Threw; }
      if e.kind.Commit? && conversation !in data.groups {
        end := MoveCursor(conversation, row.stamp, None);
        return;
      }
      var n := Native();
      if !n.Returned? { return if n.Died? then Died else Threw; }
      var reply := n.value;
      if e.kind.Welcome? {
        if !reply.NativeReply? || reply.welcomeSender != ownerDevice { return Threw; }
      } else if !Authenticated(reply, row, context) {
        return Threw;
      }
      if !ResultAccepted(profile, reply, row) { return Threw; }
      var text: Option<Message> := None;
      if reply.kind == Some(Application) { text := Some(Message(e.sender, reply.plaintext.value)); }
      data := Absorb(data, conversation,
                     if e.kind.Welcome? then Joined(conversation, row) else Received(conversation, row),
                     Group(e.epoch, ownerId, ownerDevice));
      end := MoveCursor(conversation, row.stamp, text);
    }

    method TakeRow(conversation: Conversation, x: Incoming, ownerDevice: Device, ownerId: Account)
      returns (end: Ending<Option<Message>>)
      modifies this
      ensures Result(Now(), end) == ReceiveOne(old(Now()), profile, conversation, x, ownerDevice, ownerId)
    {
      if x.Malformed? || x.row.envelope.epoch < 1 || !CursorAdvances(data, conversation, x.row.stamp) { return Threw; }
      if x.row.envelope.sender == profile.device {
        var key := (conversation, x.row.envelope.id);
        if key !in data.own || data.own[key] != Sha256(x.row.envelope.ciphertext) { return Threw; }
        data := data.(own := data.own - {key});
        end := MoveCursor(conversation, x.row.stamp, None);
      } else {
        end := TakeForeign(conversation, x.row, ownerDevice, ownerId);
      }
    }

    /** The rows of one page, in order. */
    method TakeRows(conversation: Conversation, rows: seq<Incoming>, ownerDevice: Device, ownerId: Account,
                    got: seq<Message>, last: bool) returns (end: Ending<Batch>)
      modifies this
      ensures Result(Now(), end) ==
        ReceiveRows(old(Now()), profile, conversation, rows, ownerDevice, ownerId, got, last)
    {
      var messages, i := got, 0;
      while i < |rows|
        invariant 0 <= i <= |rows|
        invariant ReceiveRows(Now(), profile, conversation, rows[i..], ownerDevice, ownerId, messages, last)
               == ReceiveRows(old(Now()), profile, conversation, rows, ownerDevice, ownerId, got, last)
      {
        assert rows[i..][0] == rows[i] && rows[i..][1..] == rows[i + 1..];
        var r := TakeRow(conversation, rows[i], ownerDevice, ownerId);
        if r.Died? { return Died; }
        if r.Threw? {
          if |messages| == 0 { return Threw; }
          return Returned(Batch(messages, true, true));
        }
        if r.value.Some? { messages := messages + [r.value.value]; }
        i := i + 1;
      }
      return Returned(Batch(messages, false, last));
    }

    method TakePage(conversation: Conversation, ownerDevice: Device, ownerId: Account, got: seq<Message>)
      returns (end: Ending<Batch>)
      modifies this
      ensures Result(Now(), end) == ReceivePage(old(Now()), profile, conversation, ownerDevice, ownerId, got)
    {
      var r := Get(GetRows(conversation));
      if r.Died? { return Died; }
      if !r.Returned? || !r.value.Page? || |r.value.rows| > RECEIVE_PAGE_SIZE {
        if |got| == 0 { return Threw; }
        return Returned(Batch(got, true, true));
      }
      end := TakeRows(conversation, r.value.rows, ownerDevice, ownerId, got, |r.value.rows| < RECEIVE_PAGE_SIZE);
    }

    method ReceiveAll(conversation: Conversation, offered: Option<Device>) returns (end: Ending<Batch>)
      modifies this
      ensures Result(Now(), end) == Receive(old(Now()), profile, conversation, offered)
    {
      if failed || data.outbox.Some? { return Threw; }
      var r := Get(GetState(conversation));
      if !r.Returned? { return if r.Died? then Died else Threw; }
      if !r.value.State? { return Threw; }
      var owner := TrustedOwner(Now(), profile, conversation, offered, r.value.ownerId);
      if owner.None? { return Threw; }
      end := TakePages(conversation, owner.value, r.value.ownerId, MAX_RECEIVE_PAGES);
    }

    /** One page of the batch that `goal` describes. */
    method NextPage(conversation: Conversation, ownerDevice: Device, ownerId: Account, messages: seq<Message>,
                    ghost pages: nat, ghost page: Pager, ghost goal: Result<World, Batch>)
      returns (end: Ending<Batch>)
      requires pages > 0 && Fetches(page, profile, conversation, ownerDevice, ownerId)
      requires Pages(Now(), pages, messages, page) == goal
      modifies this
      ensures if end.Returned? && !end.value.last then Pages(Now(), pages - 1, end.value.messages, page) == goal
              else Result(Now(), end) == goal
    {
      ghost var before := Now();
      end := TakePage(conversation, ownerDevice, ownerId, messages);
      assert Asked(before, messages);
      PagesTurn(before, pages, messages, page, Result(Now(), end));
    }

    /** The page loop, for any name of what fetches a page. */
    method TurnPages(conversation: Conversation, ownerDevice: Device, ownerId: Account, limit: nat, ghost page: Pager)
      returns (end: Ending<Batch>)
      requires Fetches(page, profile, conversation, ownerDevice, ownerId)
      modifies this
      ensures Result(Now(), end) == Pages(old(Now()), limit, [], page)
    {
      ghost var goal := Pages(Now(), limit, [], page);
      var messages: seq<Message>, pages := [], limit;
      while pages > 0
        invariant pages >= 0 && Pages(Now(), pages, messages, page) == goal
      {
        var r := NextPage(conversation, ownerDevice, ownerId, messages, pages, page, goal);
        if !r.Returned? || r.value.last { return r; }
        messages, pages := r.value.messages, pages - 1;
      }
      return Returned(Batch(messages, true, true));
    }

    /** At most `limit` pages; a short page or an error ends the batch. */
    method TakePages(conversation: Conversation, ownerDevice: Device, ownerId: Account, limit: nat)
      returns (end: Ending<Batch>)
      modifies this
      ensures Result(Now(), end) ==
        ReceivePages(old(Now()), profile, conversation, limit, ownerDevice, ownerId, [])
    {
      end := TurnPages(conversation, ownerDevice, ownerId, limit,
                       PagerOf(profile, conversation, ownerDevice, ownerId));
    }
  }
}
