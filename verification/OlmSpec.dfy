/** clients/e2ee_client.py as functions on a world, with every fault and every answer
    the client cannot predict taken from a script. */
module OlmSpec {
  import opened Prelude

  type Device = string
  type Conversation = string

  /** The bound plaintext: routing context and text. */
  datatype Body = Body(conversation: Conversation, sender: Device, recipient: Device, epoch: nat, id: nat, text: string)

  /** A place on a sending chain.  Chains are named by their random ratchet key. */
  datatype Position = Position(chain: nat, index: nat)

  /** Olm encryption is determined by the position and the plaintext. */
  datatype Ciphertext = Ciphertext(at: Position, body: Body)

  datatype Envelope = Envelope(
    id: nat, sender: Device, recipient: Device, conversation: Conversation, epoch: nat,
    ratchet: nat, curveKey: string, ciphertext: Ciphertext)

  datatype Ratchet = Ratchet(id: nat, next: Position)

  /** A pinned peer and the one-time prekey fetched for it, if still unused. */
  datatype Peer = Peer(signedPrekey: string, oneTimePrekey: Option<nat>)

  type RatchetKey = (Conversation, Device, nat)

  datatype Stamp = Stamp(time: int, id: int)

  datatype Data = Data(
    peers: map<Device, Peer>, sessions: map<RatchetKey, Ratchet>, active: map<(Conversation, Device), RatchetKey>,
    outbox: Option<Envelope>, cursors: map<Conversation, Stamp>)

  /** What the Olm library makes of an incoming message. */
  datatype Opening = OlmRefused | Opened(session: nat, newChain: bool, body: Body)

  datatype Row = Row(stamp: Stamp, envelope: Envelope, opening: Opening)

  datatype Turn = Turn(
    others: seq<Envelope>, fault: Fault, refuse: bool, epoch: nat, prekey: Option<nat>, rows: Option<seq<Row>>)

  /** `log` is what the relay accepted, `wire` every envelope that left this device,
      `prepared` the envelopes that were ever in the vault's outbox. */
  datatype World = World(
    data: Data, disk: Data, failed: bool, log: seq<Envelope>, wire: seq<Envelope>, prepared: seq<Envelope>,
    nextId: nat, nextChain: nat, script: seq<Turn>)

  datatype Profile = Profile(device: Device, curveKey: string)

  function NextTurn(w: World): Turn {
    if |w.script| == 0 then Turn([], CrashBefore, true, 0, None, None) else w.script[0]
  }

  function Consumed(w: World): World {
    if |w.script| == 0 then w else w.(script := w.script[1..])
  }

  function Reopen(w: World): World { w.(data := w.disk, failed := false) }

  /** What the file holds after a write: `entry` names the envelope the write makes durable. */
  function Written(w: World, entry: Option<Envelope>): World {
    w.(disk := w.data, prepared := Recorded(w.prepared, entry))
  }

  function Recorded(prepared: seq<Envelope>, entry: Option<Envelope>): seq<Envelope> {
    if entry.Some? then prepared + [entry.value] else prepared
  }

  /** `_save`: one atomic replacement; any failure poisons the client. */
  function Save(w: World, entry: Option<Envelope>): Result<World, ()> {
    if w.failed then Raise(w)
    else
      var t, w1 := NextTurn(w), Consumed(w);
      var w2 := if t.fault.Effective() then Written(w1, entry) else w1;
      if t.fault.Crashes() then Result(Reopen(w2), Died)
      else if t.fault.Fine? then Ok(w2, ())
      else Raise(w2.(failed := true))
  }

  /** Nobody else posts as this device, and the relay keeps one envelope per replay key. */
  function AddOthers(log: seq<Envelope>, others: seq<Envelope>, me: Device): seq<Envelope>
    decreases |others|
  {
    if |others| == 0 then log
    else AddOthers(if others[0].sender == me then log else log + [others[0]], others[1..], me)
  }

  predicate Stored(log: seq<Envelope>, e: Envelope) {
    exists i :: 0 <= i < |log| && log[i].sender == e.sender && log[i].recipient == e.recipient && log[i].id == e.id
  }

  datatype Verdict = Created | Duplicate | Refused

  function PostVerdict(log: seq<Envelope>, e: Envelope, refuse: bool): Verdict {
    if refuse then Refused else if Stored(log, e) then Duplicate else Created
  }

  function Disturbed(w: World, p: Profile): World {
    Consumed(w).(log := AddOthers(w.log, NextTurn(w).others, p.device))
  }

  /** A request that changes nothing at the relay: routing state, a prekey bundle, a page. */
  function Ask(w: World, p: Profile): Result<World, Turn> {
    if w.failed then Raise(w)
    else
      var t, w1 := NextTurn(w), Disturbed(w, p);
      if t.fault.Crashes() then Result(Reopen(w1), Died)
      else if t.fault.Fine? && !t.refuse then Ok(w1, t)
      else Raise(w1)
  }

  /** The POST of one envelope. */
  function Deliver(w: World, p: Profile, e: Envelope): Result<World, Verdict> {
    if w.failed then Raise(w)
    else
      var t, w1 := NextTurn(w), Disturbed(w, p);
      var verdict := PostVerdict(w1.log, e, t.refuse);
      var w2 := if t.fault.Effective()
                then w1.(wire := w1.wire + [e], log := if verdict.Created? then w1.log + [e] else w1.log)
                else w1;
      if t.fault.Crashes() then Result(Reopen(w2), Died)
      else if t.fault.Fine? then Ok(w2, verdict)
      else Raise(w2)
  }

  const MAX_CLIENT_SESSIONS: nat := 256

  /** Fetch a fresh prekey for a pinned peer and save it, as `pin_peer` does inside `prepare`. */
  function Repin(w: World, p: Profile, peer: Device): Result<World, ()>
    requires peer in w.data.peers
  {
    var (w1, bundle) :- Ask(w, p);
    if peer !in w1.data.peers then Raise(w1)
    else
      var pinned := w1.data.peers[peer].(oneTimePrekey := bundle.prekey);
      Save(w1.(data := w1.data.(peers := w1.data.peers[peer := pinned])), None)
  }

  /** The ratchet `prepare` encrypts with: the active one, or a new outbound one that
      uses up the peer's one-time prekey (so far only in memory). */
  function ChooseRatchet(w: World, p: Profile, c: Conversation, peer: Device): Result<World, (RatchetKey, Ratchet)>
    requires peer in w.data.peers
  {
    if (c, peer) in w.data.active then
      var key := w.data.active[(c, peer)];
      if key in w.data.sessions then Ok(w, (key, w.data.sessions[key])) else Raise(w)
    else
      var (w1, _) :- if w.data.peers[peer].oneTimePrekey.Some? then Ok(w, ()) else Repin(w, p, peer);
      StartRatchet(w1, c, peer)
  }

  /** An outbound session from the peer's one-time prekey, which is used up. */
  function StartRatchet(w: World, c: Conversation, peer: Device): Result<World, (RatchetKey, Ratchet)> {
    if peer !in w.data.peers || w.data.peers[peer].oneTimePrekey.None? then Raise(w)
    else
      var d := w.data.(peers := w.data.peers[peer := w.data.peers[peer].(oneTimePrekey := None)]);
      Ok(w.(data := d, nextChain := w.nextChain + 1),
         ((c, peer, w.nextChain), Ratchet(w.nextChain, Position(w.nextChain, 0))))
  }

  /** Encrypt, advance the ratchet and fill the outbox: all of it in the next write. */
  function Encrypted(d: Data, key: RatchetKey, ratchet: Ratchet, e: Envelope): Data {
    d.(sessions := d.sessions[key := ratchet.(next := Position(ratchet.next.chain, ratchet.next.index + 1))],
       active := d.active[(key.0, key.1) := key],
       outbox := Some(e))
  }

  function MakeEnvelope(p: Profile, c: Conversation, peer: Device, epoch: nat, id: nat, ratchet: Ratchet, text: string)
    : Envelope
  {
    Envelope(id, p.device, peer, c, epoch, ratchet.id, p.curveKey,
             Ciphertext(ratchet.next, Body(c, p.device, peer, epoch, id, text)))
  }

  function EncryptAndSave(w: World, p: Profile, c: Conversation, peer: Device, epoch: nat, key: RatchetKey,
                          ratchet: Ratchet, text: string): Result<World, ()>
  {
    if |w.data.sessions| >= MAX_CLIENT_SESSIONS && key !in w.data.sessions then Raise(w)
    else
      var e := MakeEnvelope(p, c, peer, epoch, w.nextId, ratchet, text);
      Save(w.(nextId := w.nextId + 1, data := Encrypted(w.data, key, ratchet, e)), Some(e))
  }

  function Prepare(w: World, p: Profile, c: Conversation, peer: Device, text: string): Result<World, ()> {
    if w.failed || |text| == 0 || |text| > 8000 || w.data.outbox.Some? || peer !in w.data.peers then Raise(w)
    else
      var (w1, state) :- Ask(w, p);
      if peer !in w1.data.peers then Raise(w1)
      else
        var (w2, chosen) :- ChooseRatchet(w1, p, c, peer);
        EncryptAndSave(w2, p, c, peer, state.epoch, chosen.0, chosen.1, text)
  }

  function Flush(w: World, p: Profile): Result<World, ()> {
    if w.failed then Raise(w)
    else if w.data.outbox.None? then Ok(w, ())
    else
      var (w1, verdict) :- Deliver(w, p, w.data.outbox.value);
      if verdict.Refused? then Raise(w1)
      else Save(w1.(data := w1.data.(outbox := None)), None)
  }

  function SendText(w: World, p: Profile, c: Conversation, peer: Device, text: string): Result<World, ()> {
    var (w1, _) :- Prepare(w, p, c, peer, text);
    Flush(w1, p)
  }

  /** The ratchet after a message was opened: a new remote key starts a new sending chain. */
  function Turned(w: World, ratchet: Ratchet, newChain: bool): Ratchet {
    if newChain then ratchet.(next := Position(w.nextChain, 0)) else ratchet
  }

  predicate BodyExpected(p: Profile, c: Conversation, e: Envelope, b: Body) {
    && b.conversation == c && b.sender == e.sender && b.recipient == p.device
    && b.epoch == e.epoch && b.id == e.id && |b.text| <= 8000
  }

  /** `decrypt` with `persist=False`: all checks first, then the in-memory update. */
  function Decrypt(w: World, p: Profile, c: Conversation, row: Row): Result<World, string> {
    var e, o := row.envelope, row.opening;
    var key := (c, e.sender, e.ratchet);
    if w.failed || e.sender !in w.data.peers || e.recipient != p.device then Raise(w)
    else if e.curveKey != w.data.peers[e.sender].signedPrekey || o.OlmRefused? then Raise(w)
    else if key !in w.data.sessions && |w.data.sessions| >= MAX_CLIENT_SESSIONS then Raise(w)
    else if o.session != e.ratchet || !BodyExpected(p, c, e, o.body) then Raise(w)
    else
      var ratchet := if key in w.data.sessions then Turned(w, w.data.sessions[key], o.newChain)
                     else Ratchet(e.ratchet, Position(w.nextChain, 0));
      Ok(w.(nextChain := w.nextChain + 1,
            data := w.data.(sessions := w.data.sessions[key := ratchet],
                            active := w.data.active[(c, e.sender) := key])),
         o.body.text)
  }

  /** `decrypt` as a caller outside `receive` uses it, with `persist=True`: the turned ratchet is saved, the cursor
      stays. */
  function DecryptAndSave(w: World, p: Profile, c: Conversation, row: Row): Result<World, string> {
    var (w1, text) :- Decrypt(w, p, c, row);
    var (w2, _) :- Save(w1, None);
    Ok(w2, text)
  }

  function ReceiveOne(w: World, p: Profile, c: Conversation, row: Row): Result<World, string> {
    var (w1, text) :- Decrypt(w, p, c, row);
    var (w2, _) :- Save(w1.(data := w1.data.(cursors := w1.data.cursors[c := row.stamp])), None);
    Ok(w2, text)
  }

  const RECEIVE_PAGE_SIZE: nat := 100

  /** Rows of one page; `last` tells that no page follows. */
  datatype Batch = Batch(texts: seq<string>, last: bool)

  function Interrupted(w: World, got: seq<string>): Result<World, Batch> {
    if |got| == 0 then Raise(w) else Ok(w, Batch(got, true))
  }

  function ReceiveRows(w: World, p: Profile, c: Conversation, rows: seq<Row>, got: seq<string>, last: bool)
    : Result<World, Batch>
    decreases |rows|
  {
    if |rows| == 0 then Ok(w, Batch(got, last))
    else
      var r := ReceiveOne(w, p, c, rows[0]);
      if r.ending.Died? then Result(r.world, Died)
      else if r.ending.Threw? then Interrupted(r.world, got)
      else ReceiveRows(r.world, p, c, rows[1..], got + [r.ending.value], last)
  }

  type Pager = (World, seq<string>) -> Result<World, Batch>

  function PagerOf(p: Profile, c: Conversation): Pager { (w: World, got: seq<string>) => ReceivePage(w, p, c, got) }

  /** The page loop of `receive`, over any way to fetch and process one page. */
  function Pages(w: World, pages: nat, got: seq<string>, page: Pager): Result<World, Batch>
    decreases pages
  {
    if pages == 0 then Ok(w, Batch(got, true))
    else
      var (w1, batch) :- page(w, got);
      if batch.last then Ok(w1, batch) else Pages(w1, pages - 1, batch.texts, page)
  }

  function ReceivePages(w: World, p: Profile, c: Conversation, pages: nat, got: seq<string>): Result<World, Batch> {
    Pages(w, pages, got, PagerOf(p, c))
  }

  /** One page: what was already decrypted is returned when a later page cannot be had. */
  function ReceivePage(w: World, p: Profile, c: Conversation, got: seq<string>): Result<World, Batch> {
    var r := Ask(w, p);
    if r.ending.Died? then Result(r.world, Died)
    else if r.ending.Threw? || r.ending.value.rows.None? || |r.ending.value.rows.value| > RECEIVE_PAGE_SIZE then
      Interrupted(r.world, got)
    else
      ReceiveRows(r.world, p, c, r.ending.value.rows.value, got, |r.ending.value.rows.value| < RECEIVE_PAGE_SIZE)
  }

  datatype Command =
    | DoPin(peer: Device, signedPrekey: string)
    | DoPrepare(conversation: Conversation, peer: Device, text: string)
    | DoFlush
    | DoSend(conversation: Conversation, peer: Device, text: string)
    | DoDecrypt(conversation: Conversation, row: Row)
    | DoReceive(conversation: Conversation, pages: nat)
    | DoReopen

  /** `pin_peer` on its own: a changed key is refused, a new peer is saved. */
  function Pin(w: World, p: Profile, peer: Device, signedPrekey: string): Result<World, ()> {
    var (w1, bundle) :- Ask(w, p);
    if peer in w1.data.peers && w1.data.peers[peer].signedPrekey != signedPrekey then Raise(w1)
    else if |w1.data.peers| >= MAX_CLIENT_SESSIONS && peer !in w1.data.peers then Raise(w1)
    else Save(w1.(data := w1.data.(peers := w1.data.peers[peer := Peer(signedPrekey, bundle.prekey)])), None)
  }

  function Perform(w: World, p: Profile, command: Command): World {
    match command
    case DoPin(peer, key) => Pin(w, p, peer, key).world
    case DoPrepare(c, peer, text) => Prepare(w, p, c, peer, text).world
    case DoFlush => Flush(w, p).world
    case DoSend(c, peer, text) => SendText(w, p, c, peer, text).world
    case DoDecrypt(c, row) => DecryptAndSave(w, p, c, row).world
    case DoReceive(c, pages) => ReceivePages(w, p, c, pages, []).world
    case DoReopen => Reopen(w)
  }

  function Step(w: World, p: Profile, command: Command, script: seq<Turn>): World {
    Perform(w.(script := script), p, command)
  }

  type Run = seq<(Command, seq<Turn>)>

  function Execute(w: World, p: Profile, run: Run): World
    decreases |run|
  {
    if |run| == 0 then w else Execute(Step(w, p, run[0].0, run[0].1), p, run[1..])
  }

  predicate Initial(w: World, p: Profile) {
    && w.disk == Data(map[], map[], map[], None, map[])
    && w.data == w.disk && !w.failed
    && w.wire == [] && w.prepared == []
    && (forall e :: e in w.log ==> e.sender != p.device)
  }
}
