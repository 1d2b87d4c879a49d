/** clients/mls_client.py as functions on a world: the client's volatile data,
    the vault file, the relay, and a script that decides every fault, every
    interference and every answer the client cannot predict.  Quantifying over
    scripts quantifies over every schedule of lost responses, crashes and retries. */
module MlsSpec {
  import opened Prelude
  import opened MlsRelay

  datatype Pin = Pin(account: Account, signingKey: string)

  /** The part of a profile no modelled operation changes. */
  datatype Profile = Profile(device: Device, account: Account, signingKey: string, pins: map<Device, Pin>)

  datatype Group = Group(epoch: nat, ownerId: Account, ownerDevice: Device)

  datatype Membership = Membership(account: Account, remove: bool)

  datatype Outbox = Outbox(
    conversation: Conversation, epoch: nat, membership: Option<Membership>, envelopes: seq<Envelope>)

  /** OpenMLS state, kept as the history of operations that produced it. */
  datatype NativeEvent =
    | Started(conversation: Conversation)
    | Sent(envelopes: seq<Envelope>)
    | Joined(conversation: Conversation, row: Row)
    | Received(conversation: Conversation, row: Row)

  /** SHA-256 of a ciphertext, symbolically. */
  datatype Digest = Sha256(of: string)

  datatype Data = Data(
    native: seq<NativeEvent>, groups: map<Conversation, Group>, cursors: map<Conversation, Stamp>,
    outbox: Option<Outbox>, own: map<(Conversation, nat), Digest>)

  datatype NativeReply =
    | NativeRefused
    | NativeReply(
        epoch: nat, members: seq<(Device, string)>, active: bool, kind: Option<Kind>, sender: Device,
        aad: Context, welcomeSender: Device, message: string, welcome: string, plaintext: Option<string>)

  /** One row of a page, as the client parses it. */
  datatype Incoming = Malformed | Delivered(row: Row)

  datatype Turn = Turn(
    interference: seq<Interference>, fault: Fault, stamp: Stamp, refuse: bool,
    native: NativeReply, page: seq<Incoming>, forged: bool)

  /** `applied` records, for each membership request the relay carried out for
      this device, the length of the durable history at that moment: the number
      of the pending operation that made the request. */
  datatype World = World(
    data: Data, disk: Data, failed: bool, relay: Relay, applied: seq<nat>, nextId: nat, script: seq<Turn>)

  /** An exhausted script means the process dies at its next action. */
  function NextTurn(w: World): Turn {
    if |w.script| == 0
    then Turn([], CrashBefore, Stamp(0, 0), true, NativeRefused, [], false)
    else w.script[0]
  }

  function Consumed(w: World): World {
    if |w.script| == 0 then w else w.(script := w.script[1..])
  }

  /** Opening the profile loads the vault file and forgets everything volatile. */
  function Reopen(w: World): World { w.(data := w.disk, failed := false) }

  /** `EncryptedVault.save`: one atomic replacement, and a failure poisons the client. */
  function Save(w: World): Result<World, ()> {
    if w.failed then Raise(w)
    else
      var t, w1 := NextTurn(w), Consumed(w);
      var w2 := if t.fault.Effective() then w1.(disk := w1.data) else w1;
      if t.fault.Crashes() then Result(Reopen(w2), Died)
      else if t.fault.Fine? then Ok(w2, ())
      else Raise(w2.(failed := true))
  }

  datatype Request =
    | GetState(conversation: Conversation)
    | GetMember(conversation: Conversation, account: Account)
    | ChangeMembership(conversation: Conversation, membership: Membership)
    | PostEnvelope(envelope: Envelope)
    | GetRows(conversation: Conversation)
    | CreateSession(conversation: Conversation)

  datatype Response =
    | State(epoch: nat, ownerId: Account)
    | MemberIs(member: Option<Member>)
    | Done
    | Posted(verdict: Verdict)
    | Page(rows: seq<Incoming>)
    | HttpError

  predicate GenuineRow(r: Relay, c: Conversation, x: Incoming) {
    x.Delivered? && x.row in r.log && x.row.envelope.conversation == c
  }

  /** What an honest relay answers: only rows it stores. */
  function Genuine(r: Relay, c: Conversation, page: seq<Incoming>): (g: seq<Incoming>)
    ensures forall x :: x in g ==> GenuineRow(r, c, x)
  {
    if |page| == 0 then []
    else (if GenuineRow(r, c, page[0]) then [page[0]] else []) + Genuine(r, c, page[1..])
  }

  function Serve(r: Relay, q: Request, t: Turn, account: Account): (Relay, Response) {
    match q
    case PostEnvelope(e) => (Post(r, e, t.stamp, t.refuse), Posted(PostVerdict(r, e, t.refuse)))
    case GetState(c) =>
      if t.refuse || c !in r.owners then (r, HttpError) else (r, State(Epoch(r, c), r.owners[c]))
    case GetMember(c, a) =>
      if t.refuse then (r, HttpError)
      else (r, MemberIs(if (c, a) in r.members then Some(r.members[(c, a)]) else None))
    case ChangeMembership(c, m) =>
      if t.refuse || !ChangeAllowed(r, c, m.account, m.remove) then (r, HttpError)
      else (Change(r, c, m.account, m.remove), Done)
    case GetRows(c) =>
      if t.refuse then (r, HttpError) else (r, Page(if t.forged then t.page else Genuine(r, c, t.page)))
    case CreateSession(c) =>
      if t.refuse || c in r.epochs then (r, HttpError)
      else (r.(epochs := r.epochs[c := 1], owners := r.owners[c := account]), Done)
  }

  /** Others act, then the relay looks at our request. */
  function Disturbed(w: World, p: Profile): World {
    Consumed(w).(relay := InterfereAll(w.relay, NextTurn(w).interference, p.device))
  }

  /** The relay's side of a request that reaches it. */
  function Served(w: World, p: Profile, q: Request, t: Turn): World {
    var (relay, response) := Serve(w.relay, q, t, p.account);
    w.(relay := relay,
       applied := if q.ChangeMembership? && response.Done? then w.applied + [|w.disk.native|] else w.applied)
  }

  /** `_request_response`: refused while poisoned, otherwise one faulty exchange. */
  function Exchange(w: World, p: Profile, q: Request): Result<World, Response> {
    if w.failed then Raise(w)
    else
      var t, w1 := NextTurn(w), Disturbed(w, p);
      var w2 := if t.fault.Effective() then Served(w1, p, q, t) else w1;
      if t.fault.Crashes() then Result(Reopen(w2), Died)
      else if t.fault.Fine? then Ok(w2, Serve(w1.relay, q, t, p.account).1)
      else Raise(w2)
  }

  /** `request`: an HTTP error raises. */
  function Fetch(w: World, p: Profile, q: Request): Result<World, Response> {
    var (w1, response) :- Exchange(w, p, q);
    if response.HttpError? then Raise(w1) else Ok(w1, response)
  }

  /** A call of the native helper; it may refuse, and the process may die in it. */
  function CallNative(w: World): Result<World, NativeReply> {
    if w.failed then Raise(w)
    else
      var t, w1 := NextTurn(w), Consumed(w);
      if t.fault.Crashes() then Result(Reopen(w1), Died)
      else if !t.fault.Fine? || t.native.NativeRefused? then Raise(w1)
      else Ok(w1, t.native)
  }

  predicate Idle(w: World) { !w.failed && w.data.outbox.None? }

  /** `_roster`: a nonempty list of devices, each with exactly the pinned key. */
  predicate RosterAccepted(p: Profile, members: seq<(Device, string)>) {
    && |members| > 0
    && forall m :: m in members ==>
         if m.0 in p.pins then p.pins[m.0].signingKey == m.1
         else m.0 == p.device && p.signingKey == m.1
  }

  function MakeEnvelope(p: Profile, c: Conversation, epoch: nat, kind: Kind, id: nat,
                        recipient: Option<Device>, ciphertext: string): Envelope {
    Envelope(p.device, recipient, c, epoch, kind, id, Context(c, epoch, id, kind, p.device), ciphertext)
  }

  /** `create`: a session of our own, and its first native state. */
  function Create(w: World, p: Profile, c: Conversation): Result<World, ()> {
    if !Idle(w) then Raise(w)
    else
      var (w1, _) :- Fetch(w, p, CreateSession(c));
      var (w2, _) :- CallNative(w1);
      Save(w2.(data := w2.data.(
        native := w2.data.native + [Started(c)],
        groups := w2.data.groups[c := Group(1, p.account, p.device)])))
  }

  /** The tail shared by `send` and `change_member`: native state, exact
      ciphertext and intent go into one write before any request. */
  function Commission(w: World, p: Profile, box: Outbox, group: Group): Result<World, ()> {
    var (w1, _) :- Save(w.(data := w.data.(
      native := w.data.native + [Sent(box.envelopes)],
      groups := w.data.groups[box.conversation := group],
      outbox := Some(box))));
    Flush(w1, p)
  }

  /** What `send` and `change_member` are about to write: the envelopes with their intent, and the group. */
  datatype Draft = Draft(box: Outbox, group: Group)

  function Send(w: World, p: Profile, c: Conversation, text: string): Result<World, ()> {
    var (w1, d) :- DraftText(w, p, c, text);
    Commission(w1, p, d.box, d.group)
  }

  /** `send` up to its write. */
  function DraftText(w: World, p: Profile, c: Conversation, text: string): Result<World, Draft> {
    if !Idle(w) || |text| == 0 || |text| > 8000 || c !in w.data.groups then Raise(w)
    else
      var (w1, state) :- Fetch(w, p, GetState(c));
      if !state.State? || state.epoch != w.data.groups[c].epoch then Raise(w1)
      else Encrypt(w1, p, c, w.data.groups[c])
  }

  /** `send` once the relay's epoch is known to be the group's. */
  function Encrypt(w: World, p: Profile, c: Conversation, group: Group): Result<World, Draft> {
    var id := w.nextId;
    var (w1, reply) :- CallNative(w.(nextId := id + 1));
    if !reply.NativeReply? || reply.epoch + 1 != group.epoch then Raise(w1)
    else
      var e := MakeEnvelope(p, c, group.epoch, Application, id, None, reply.message);
      Ok(w1, Draft(Outbox(c, group.epoch, None, [e]), group))
  }

  function ChangeMember(w: World, p: Profile, c: Conversation, target: Device, remove: bool): Result<World, ()> {
    var (w1, d) :- DraftChange(w, p, c, target, remove);
    Commission(w1, p, d.box, d.group)
  }

  /** `change_member` up to its write. */
  function DraftChange(w: World, p: Profile, c: Conversation, target: Device, remove: bool): Result<World, Draft> {
    if !Idle(w) || c !in w.data.groups || w.data.groups[c].ownerDevice != p.device || target !in p.pins
    then Raise(w)
    else
      var group := w.data.groups[c];
      var (w1, state) :- Fetch(w, p, GetState(c));
      if !state.State? || state.epoch != group.epoch then Raise(w1)
      else CheckMember(w1, p, c, target, remove, group)
  }

  /** The target must be active exactly when it is to be removed. */
  function CheckMember(w: World, p: Profile, c: Conversation, target: Device, remove: bool, group: Group)
    : Result<World, Draft>
    requires target in p.pins
  {
    var (w1, members) :- Fetch(w, p, GetMember(c, p.pins[target].account));
    if !members.MemberIs? || (members.member.Some? && members.member.value.active) != remove then Raise(w1)
    else Propose(w1, p, c, target, remove, group)
  }

  /** `change_member` once the relay is known to be ready for it. */
  function Propose(w: World, p: Profile, c: Conversation, target: Device, remove: bool, group: Group)
    : Result<World, Draft>
    requires target in p.pins
  {
    var id := w.nextId;
    var (w1, reply) :- CallNative(w.(nextId := id + 1));
    if !reply.NativeReply? || !RosterAccepted(p, reply.members) || reply.epoch != group.epoch then Raise(w1)
    else
      Ok(w1.(nextId := if remove then w1.nextId else w1.nextId + 1),
         Draft(ChangeBox(p, c, target, remove, group.epoch + 1, reply, id, w1.nextId),
               group.(epoch := group.epoch + 1)))
  }

  /** Commit first, then the Welcome an added device needs. */
  function ChangeBox(p: Profile, c: Conversation, target: Device, remove: bool, epoch: nat,
                     reply: NativeReply, id: nat, nextId: nat): Outbox
    requires target in p.pins && reply.NativeReply?
  {
    var commit := MakeEnvelope(p, c, epoch, Commit, id, None, reply.message);
    var welcome := MakeEnvelope(p, c, epoch, Welcome, nextId, Some(target), reply.welcome);
    Outbox(c, epoch, Some(Membership(p.pins[target].account, remove)), if remove then [commit] else [commit, welcome])
  }

  /** What the acknowledgement of a membership change must show. */
  predicate Acknowledged(m: Membership, epoch: nat, found: Option<Member>) {
    && found.Some?
    && found.value.active == !m.remove
    && (if m.remove then found.value.removed == Some(epoch) else found.value.joined == epoch)
  }

  /** The membership part of `flush`: request the change only at the epoch just
      below the pending one, then insist on the matching acknowledgement. */
  function SettleMembership(w: World, p: Profile, box: Outbox, epoch: nat): Result<World, ()>
    requires box.membership.Some?
  {
    var m := box.membership.value;
    if epoch + 1 != box.epoch && epoch != box.epoch then Raise(w)
    else
      var (w1, _) :- if epoch + 1 == box.epoch then Fetch(w, p, ChangeMembership(box.conversation, m))
                     else Ok(w, Done);
      var (w2, found) :- Fetch(w1, p, GetMember(box.conversation, m.account));
      if found.MemberIs? && Acknowledged(m, box.epoch, found.member) then Ok(w2, ()) else Raise(w2)
  }

  predicate EchoExpected(p: Profile, e: Envelope) {
    e.recipientDevice.None? || e.recipientDevice == Some(p.device)
  }

  /** Drop the acknowledged head; remember its digest when it will come back to us. */
  function Popped(d: Data, p: Profile): Data
    requires d.outbox.Some? && |d.outbox.value.envelopes| > 0
  {
    var box := d.outbox.value;
    var e := box.envelopes[0];
    d.(outbox := Some(box.(envelopes := box.envelopes[1..])),
       own := if EchoExpected(p, e) then d.own[(box.conversation, e.id) := Sha256(e.ciphertext)] else d.own)
  }

  function PendingCount(d: Data): nat {
    if d.outbox.Some? then |d.outbox.value.envelopes| else 0
  }

  /** The delivery loop of `flush`. */
  function Deliver(w: World, p: Profile): Result<World, ()>
    decreases PendingCount(w.data)
  {
    if w.data.outbox.None? then Raise(w)
    else if PendingCount(w.data) == 0 then Save(w.(data := w.data.(outbox := None)))
    else
      var r := DeliverHead(w, p);
      if r.IsFailure() then r else Deliver(r.world, p)
  }

  /** One turn of that loop: post the head, accept 201 or the duplicate verdict, save. */
  function DeliverHead(w: World, p: Profile): (r: Result<World, ()>)
    requires PendingCount(w.data) > 0
    ensures r.ending.Returned? ==> r.world.data.outbox.Some? && PendingCount(r.world.data) == PendingCount(w.data) - 1
  {
    var (w1, response) :- Exchange(w, p, PostEnvelope(w.data.outbox.value.envelopes[0]));
    if response != Posted(Created) && response != Posted(Duplicate) then Raise(w1)
    else Save(w1.(data := Popped(w1.data, p)))
  }

  function Flush(w: World, p: Profile): Result<World, ()> {
    if w.failed then Raise(w)
    else if w.data.outbox.None? then Ok(w, ())
    else
      var box := w.data.outbox.value;
      var (w1, state) :- Fetch(w, p, GetState(box.conversation));
      if !state.State? then Raise(w1)
      else if box.membership.Some? then
        var (w2, _) :- SettleMembership(w1, p, box, state.epoch);
        Deliver(w2, p)
      else if state.epoch != box.epoch then Raise(w1)
      else Deliver(w1, p)
  }

  datatype Message = Message(sender: Device, text: string)

  /** The effect of an authenticated row on the data, before its cursor is moved. */
  function Absorb(d: Data, c: Conversation, event: NativeEvent, group: Group): Data {
    d.(native := d.native + [event], groups := d.groups[c := group])
  }

  function Acknowledge(w: World, c: Conversation, stamp: Stamp, text: Option<Message>): Result<World, Option<Message>> {
    var (w1, _) :- Save(w.(data := w.data.(cursors := w.data.cursors[c := stamp])));
    Ok(w1, text)
  }

  /** Checks on a native result that apply to a join and to a received message alike. */
  predicate ResultAccepted(p: Profile, reply: NativeReply, row: Row) {
    && reply.NativeReply?
    && RosterAccepted(p, reply.members)
    && reply.epoch + 1 == row.envelope.epoch
    && reply.active
    && (reply.kind == Some(Application) ==> reply.plaintext.Some?)
  }

  predicate Authenticated(reply: NativeReply, row: Row, context: Context) {
    && reply.NativeReply?
    && reply.kind == Some(row.envelope.kind)
    && reply.sender == row.envelope.sender
    && reply.aad == context
  }

  predicate CursorAdvances(d: Data, c: Conversation, s: Stamp) {
    c in d.cursors ==> After(s, d.cursors[c])
  }

  /** `_receive_one`. */
  function ReceiveOne(w: World, p: Profile, c: Conversation, x: Incoming, ownerDevice: Device, ownerId: Account)
    : Result<World, Option<Message>>
  {
    if x.Malformed? || x.row.envelope.epoch < 1 || !CursorAdvances(w.data, c, x.row.stamp) then Raise(w)
    else if x.row.envelope.sender == p.device then
      var key := (c, x.row.envelope.id);
      if key !in w.data.own || w.data.own[key] != Sha256(x.row.envelope.ciphertext) then Raise(w)
      else Acknowledge(w.(data := w.data.(own := w.data.own - {key})), c, x.row.stamp, None)
    else ReceiveForeign(w, p, c, x.row, ownerDevice, ownerId)
  }

  /** The part of `_receive_one` for a row another device sent. */
  function ReceiveForeign(w: World, p: Profile, c: Conversation, row: Row, ownerDevice: Device, ownerId: Account)
    : Result<World, Option<Message>>
  {
    var e := row.envelope;
    var context := Context(c, e.epoch, e.id, e.kind, e.sender);
    if e.header != context || (!e.kind.Application? && e.sender != ownerDevice) then Raise(w)
    else if e.kind.Welcome? && (c in w.data.groups || e.recipientDevice != Some(p.device)) then Raise(w)
    else if e.kind.Commit? && c !in w.data.groups then Acknowledge(w, c, row.stamp, None)
    else
      var (w1, reply) :- CallNative(w);
      Admit(w1, p, c, row, reply, ownerDevice, ownerId)
  }

  /** The checks on the helper's answer, and the effect of a row that passes them. */
  function Admit(w: World, p: Profile, c: Conversation, row: Row, reply: NativeReply, ownerDevice: Device,
                 ownerId: Account): Result<World, Option<Message>>
  {
    var e := row.envelope;
    if !(if e.kind.Welcome? then reply.NativeReply? && reply.welcomeSender == ownerDevice
         else Authenticated(reply, row, Context(c, e.epoch, e.id, e.kind, e.sender)))
       || !ResultAccepted(p, reply, row)
    then Raise(w)
    else
      var text := if reply.kind == Some(Application) then Some(Message(e.sender, reply.plaintext.value)) else None;
      var event := if e.kind.Welcome? then Joined(c, row) else Received(c, row);
      var d := Absorb(w.data, c, event, Group(e.epoch, ownerId, ownerDevice));
      Acknowledge(w.(data := d), c, row.stamp, text)
  }

  const MAX_RECEIVE_PAGES: nat := 100
  const RECEIVE_PAGE_SIZE: nat := 100

  /** The messages gathered so far; `stopped` after an error, `last` when no page follows. */
  datatype Batch = Batch(messages: seq<Message>, stopped: bool, last: bool)

  /** An error keeps the messages already saved, and is raised only when there are none. */
  function Interrupted(w: World, got: seq<Message>): Result<World, Batch> {
    if |got| == 0 then Raise(w) else Ok(w, Batch(got, true, true))
  }

  /** Rows of one page in order. */
  function ReceiveRows(w: World, p: Profile, c: Conversation, rows: seq<Incoming>, ownerDevice: Device,
                       ownerId: Account, got: seq<Message>, last: bool): Result<World, Batch>
    decreases |rows|
  {
    if |rows| == 0 then Ok(w, Batch(got, false, last))
    else
      var r := ReceiveOne(w, p, c, rows[0], ownerDevice, ownerId);
      if r.ending.Died? then Result(r.world, Died)
      else if r.ending.Threw? then Interrupted(r.world, got)
      else
        var got' := if r.ending.value.Some? then got + [r.ending.value.value] else got;
        ReceiveRows(r.world, p, c, rows[1..], ownerDevice, ownerId, got', last)
  }

  function ReceivePage(w: World, p: Profile, c: Conversation, ownerDevice: Device, ownerId: Account,
                       got: seq<Message>): Result<World, Batch>
  {
    var r := Fetch(w, p, GetRows(c));
    if r.ending.Died? then Result(r.world, Died)
    else if !r.ending.Returned? || !r.ending.value.Page? || |r.ending.value.rows| > RECEIVE_PAGE_SIZE then
      Interrupted(r.world, got)
    else
      var rows := r.ending.value.rows;
      ReceiveRows(r.world, p, c, rows, ownerDevice, ownerId, got, |rows| < RECEIVE_PAGE_SIZE)
  }

  type Pager = (World, seq<Message>) -> Result<World, Batch>

  function PagerOf(p: Profile, c: Conversation, ownerDevice: Device, ownerId: Account): Pager {
    (w: World, got: seq<Message>) => ReceivePage(w, p, c, ownerDevice, ownerId, got)
  }

  /** The page loop of `receive`, over any way to fetch and process one page. */
  function Pages(w: World, pages: nat, got: seq<Message>, page: Pager): Result<World, Batch>
    decreases pages
  {
    if pages == 0 then Ok(w, Batch(got, true, true))
    else
      var (w1, batch) :- page(w, got);
      if batch.last then Ok(w1, batch) else Pages(w1, pages - 1, batch.messages, page)
  }

  predicate Asked(w: World, got: seq<Message>) { true }

  /** A pager that answers as `ReceivePage` does whenever it is asked. */
  ghost predicate Fetches(page: Pager, p: Profile, c: Conversation, ownerDevice: Device, ownerId: Account) {
    forall w: World, got: seq<Message> {:trigger Asked(w, got)} ::
      Asked(w, got) ==> page(w, got) == ReceivePage(w, p, c, ownerDevice, ownerId, got)
  }

  lemma PagesTurn(w: World, pages: nat, got: seq<Message>, page: Pager, x: Result<World, Batch>)
    requires pages > 0 && x == page(w, got)
    ensures Pages(w, pages, got, page) ==
      if x.ending.Returned? && !x.ending.value.last then Pages(x.world, pages - 1, x.ending.value.messages, page) else x
  {
  }

  function ReceivePages(w: World, p: Profile, c: Conversation, pages: nat, ownerDevice: Device,
                        ownerId: Account, got: seq<Message>): Result<World, Batch>
  {
    Pages(w, pages, got, PagerOf(p, c, ownerDevice, ownerId))
  }

  /** The owner device `receive` trusts: the group's own, or the pinned one offered for a join. */
  function TrustedOwner(w: World, p: Profile, c: Conversation, offered: Option<Device>, ownerId: Account)
    : Option<Device>
  {
    if c in w.data.groups then Some(w.data.groups[c].ownerDevice)
    else if offered.Some? && offered.value in p.pins && p.pins[offered.value].account == ownerId then offered
    else None
  }

  function Receive(w: World, p: Profile, c: Conversation, offered: Option<Device>): Result<World, Batch> {
    if !Idle(w) then Raise(w)
    else
      var (w1, state) :- Fetch(w, p, GetState(c));
      if !state.State? then Raise(w1)
      else
        var owner := TrustedOwner(w1, p, c, offered, state.ownerId);
        if owner.None? then Raise(w1)
        else ReceivePages(w1, p, c, MAX_RECEIVE_PAGES, owner.value, state.ownerId, [])
  }

  /** What a user can ask of an open profile, and what happens around it. */
  datatype Command =
    | DoCreate(conversation: Conversation)
    | DoSend(conversation: Conversation, text: string)
    | DoChange(conversation: Conversation, target: Device, remove: bool)
    | DoFlush
    | DoReceive(conversation: Conversation, offered: Option<Device>)
    | DoReopen
    | Elapse(interference: seq<Interference>)

  /** One command, under a fresh script. */
  function Step(w: World, p: Profile, command: Command, script: seq<Turn>): World {
    Perform(w.(script := script), p, command)
  }

  function Perform(w: World, p: Profile, command: Command): World {
    match command
    case DoCreate(c) => Create(w, p, c).world
    case DoSend(c, text) => Send(w, p, c, text).world
    case DoChange(c, target, remove) => ChangeMember(w, p, c, target, remove).world
    case DoFlush => Flush(w, p).world
    case DoReceive(c, offered) => Receive(w, p, c, offered).world
    case DoReopen => Reopen(w)
    case Elapse(actions) => w.(relay := InterfereAll(w.relay, actions, p.device))
  }

  type Run = seq<(Command, seq<Turn>)>

  function Execute(w: World, p: Profile, run: Run): World
    decreases |run|
  {
    if |run| == 0 then w
    else Execute(Step(w, p, run[0].0, run[0].1), p, run[1..])
  }

  /** A new profile against a relay that has never heard from this device. */
  predicate Initial(w: World, p: Profile) {
    && w.disk == Data([], map[], map[], None, map[])
    && w.data == w.disk && !w.failed
    && w.applied == [] && w.script == []
    && Accepted(w.relay.log, p.device) == []
    && StampsIncrease(w.relay.log)
  }

  // ---------------------------------------------------------------- one step of the definitions above

  lemma AcknowledgeUnfolds(w: World, c: Conversation, s: Stamp, text: Option<Message>)
    ensures var x := Save(w.(data := w.data.(cursors := w.data.cursors[c := s])));
      Acknowledge(w, c, s, text) ==
        Result(x.world, if x.ending.Returned? then Returned(text) else if x.ending.Threw? then Threw else Died)
  {
  }
}
