/** clients/e2ee_client.py in its own form: `PrivateClient` over an `EncryptedVault`, updated in
    place.  Each method does exactly what OlmSpec says. */
module OlmClientObject {
  import opened Prelude
  import opened OlmSpec

  class PrivateClient {
    const profile: Profile
    var data: Data
    var disk: Data
    var failed: bool
    var log: seq<Envelope>
    var wire: seq<Envelope>
    var prepared: seq<Envelope>
    var nextId: nat
    var nextChain: nat
    var script: seq<Turn>

    constructor (profile: Profile, log: seq<Envelope>, script: seq<Turn>)
      ensures this.profile == profile
      ensures Now() == World(Data(map[], map[], map[], None, map[]), Data(map[], map[], map[], None, map[]), false,
                             log, [], [], 0, 0, script)
    {
      this.profile := profile;
      data := Data(map[], map[], map[], None, map[]);
      disk := Data(map[], map[], map[], None, map[]);
      failed, wire, prepared, nextId, nextChain := false, [], [], 0, 0;
      this.log, this.script := log, script;
    }

    function Now(): World
      reads this
    {
      World(data, disk, failed, log, wire, prepared, nextId, nextChain, script)
    }

    method Next() returns (t: Turn)
      modifies this`script
      ensures t == NextTurn(old(Now())) && Now() == Consumed(old(Now()))
    {
      if |script| == 0 {
        t := Turn([], CrashBefore, true, 0, None, None);
      } else {
        t := script[0];
        script := script[1..];
      }
    }

    method Open()
      modifies this`data, this`failed
      ensures Now() == Reopen(old(Now()))
    {
      data, failed := disk, false;
    }

    method SaveVault(entry: Option<Envelope>) returns (end: Ending<()>)
      modifies this
      ensures Result(Now(), end) == Save(old(Now()), entry)
    {
      if failed { return Threw; }
      var t := Next();
      if t.fault.Effective() {
        disk := data;
        if entry.Some? { prepared := prepared + [entry.value]; }
      }
      if t.fault.Crashes() {
        Open();
        return Died;
      }
      if t.fault.Fine? { return Returned(()); }
      failed := true;
      return Threw;
    }

    /** A reading request. */
    method Get() returns (end: Ending<Turn>)
      modifies this
      ensures Result(Now(), end) == Ask(old(Now()), profile)
    {
      if failed { return Threw; }
      var t := Next();
      log := AddOthers(log, t.others, profile.device);
      if t.fault.Crashes() {
        Open();
        return Died;
      }
      if t.fault.Fine? && !t.refuse { return Returned(t); }
      return Threw;
    }

    method Post(e: Envelope) returns (end: Ending<Verdict>)
      modifies this
      ensures Result(Now(), end) == Deliver(old(Now()), profile, e)
    {
      if failed { return Threw; }
      var t := Next();
      log := AddOthers(log, t.others, profile.device);
      var verdict := PostVerdict(log, e, t.refuse);
      if t.fault.Effective() {
        wire := wire + [e];
        if verdict.Created? { log := log + [e]; }
      }
      if t.fault.Crashes() {
        Open();
        return Died;
      }
      if t.fault.Fine? { return Returned(verdict); }
      return Threw;
    }

    method RepinPeer(peer: Device) returns (end: Ending<()>)
      requires peer in data.peers
      modifies this
      ensures Result(Now(), end) == Repin(old(Now()), profile, peer)
    {
      var r := Get();
      if !r.Returned? { return if r.Died? then Died else Threw; }
      data := data.(peers := data.peers[peer := data.peers[peer].(oneTimePrekey := r.value.prekey)]);
      end := SaveVault(None);
    }

    method PickRatchet(c: Conversation, peer: Device) returns (end: Ending<(RatchetKey, Ratchet)>)
      requires peer in data.peers
      modifies this
      ensures Result(Now(), end) == ChooseRatchet(old(Now()), profile, c, peer)
    {
      if (c, peer) in data.active {
        var key := data.active[(c, peer)];
        if key !in data.sessions { return Threw; }
        return Returned((key, data.sessions[key]));
      }
      if data.peers[peer].oneTimePrekey.None? {
        var r := RepinPeer(peer);
        if !r.Returned? { return if r.Died? then Died else Threw; }
        if peer !in data.peers { return Threw; }
      }
      if data.peers[peer].oneTimePrekey.None? { return Threw; }
      var chain := nextChain;
      nextChain := nextChain + 1;
      data := data.(peers := data.peers[peer := data.peers[peer].(oneTimePrekey := None)]);
      return Returned(((c, peer, chain), Ratchet(chain, Position(chain, 0))));
    }

    method PrepareText(c: Conversation, peer: Device, text: string) returns (end: Ending<()>)
      modifies this
      ensures Result(Now(), end) == Prepare(old(Now()), profile, c, peer, text)
    {
      if failed || |text| == 0 || |text| > 8000 || data.outbox.Some? || peer !in data.peers { return Threw; }
      var r := Get();
      if !r.Returned? { return if r.Died? then Died else Threw; }
      var chosen := PickRatchet(c, peer);
      if !chosen.Returned? { return if chosen.Died? then Died else Threw; }
      end := EncryptText(c, peer, r.value.epoch, chosen.value.0, chosen.value.1, text);
    }

    /** Advanced ratchet, active session and outbox change together and are written once. */
    method EncryptText(c: Conversation, peer: Device, epoch: nat, key: RatchetKey, ratchet: Ratchet, text: string)
      returns (end: Ending<()>)
      modifies this
      ensures Result(Now(), end) == EncryptAndSave(old(Now()), profile, c, peer, epoch, key, ratchet, text)
    {
      if |data.sessions| >= MAX_CLIENT_SESSIONS && key !in data.sessions { return Threw; }
      var e := MakeEnvelope(profile, c, peer, epoch, nextId, ratchet, text);
      nextId := nextId + 1;
      var advanced := ratchet.(next := Position(ratchet.next.chain, ratchet.next.index + 1));
      data := data.(sessions := data.sessions[key := advanced]);
      data := data.(active := data.active[(key.0, key.1) := key]);
      data := data.(outbox := Some(e));
      end := SaveVault(Some(e));
    }

    method FlushOutbox() returns (end: Ending<()>)
      modifies this
      ensures Result(Now(), end) == Flush(old(Now()), profile)
    {
      if failed { return Threw; }
      if data.outbox.None? { return Returned(()); }
      var r := Post(data.outbox.value);
      if !r.Returned? { return if r.Died? then Died else Threw; }
      if r.value.Refused? { return Threw; }
      data := data.(outbox := None);
      end := SaveVault(None);
    }

    method DecryptRow(c: Conversation, row: Row) returns (end: Ending<string>)
      modifies this`data, this`nextChain
      ensures Result(Now(), end) == Decrypt(old(Now()), profile, c, row)
    {
      var e, o := row.envelope, row.opening;
      var key := (c, e.sender, e.ratchet);
      if failed || e.sender !in data.peers || e.recipient != profile.device { return Threw; }
      if e.curveKey != data.peers[e.sender].signedPrekey || o.OlmRefused? { return Threw; }
      var ratchet := Ratchet(e.ratchet, Position(nextChain, 0));
      if key in data.sessions {
        ratchet := data.sessions[key];
        if o.newChain { ratchet := ratchet.(next := Position(nextChain, 0)); }
      } else if |data.sessions| >= MAX_CLIENT_SESSIONS {
        return Threw;
      }
      if o.session != e.ratchet || !BodyExpected(profile, c, e, o.body) { return Threw; }
      data := data.(sessions := data.sessions[key := ratchet]);
      data := data.(active := data.active[(c, e.sender) := key]);
      nextChain := nextChain + 1;
      return Returned(o.body.text);
    }

    /** `decrypt` with its default `persist=True`. */
    method DecryptAlone(c: Conversation, row: Row) returns (end: Ending<string>)
      modifies this
      ensures Result(Now(), end) == DecryptAndSave(old(Now()), profile, c, row)
    {
      end := DecryptRow(c, row);
      if !end.Returned? { return; }
      var saved := SaveVault(None);
      if !saved.Returned? { return if saved.Died? then Died else Threw; }
    }

    method TakeRow(c: Conversation, row: Row) returns (end: Ending<string>)
      modifies this
      ensures Result(Now(), end) == ReceiveOne(old(Now()), profile, c, row)
    {
      var text := DecryptRow(c, row);
      if !text.Returned? { return text; }
      data := data.(cursors := data.cursors[c := row.stamp]);
      var saved := SaveVault(None);
      if !saved.Returned? { return if saved.Died? then Died else Threw; }
      return text;
    }

    method TakeRows(c: Conversation, rows: seq<Row>, got: seq<string>, last: bool) returns (end: Ending<Batch>)
      modifies this
      ensures Result(Now(), end) == ReceiveRows(old(Now()), profile, c, rows, got, last)
    {
      var texts, i := got, 0;
      while i < |rows|
        invariant 0 <= i <= |rows|
        invariant ReceiveRows(Now(), profile, c, rows[i..], texts, last)
               == ReceiveRows(old(Now()), profile, c, rows, got, last)
      {
        assert rows[i..][0] == rows[i] && rows[i..][1..] == rows[i + 1..];
        var r := TakeRow(c, rows[i]);
        if r.Died? { return Died; }
        if r.Threw? {
          if |texts| == 0 { return Threw; }
          return Returned(Batch(texts, true));
        }
        texts, i := texts + [r.value], i + 1;
      }
      return Returned(Batch(texts, last));
    }

    method TakePage(c: Conversation, texts: seq<string>) returns (end: Ending<Batch>)
      modifies this
      ensures Result(Now(), end) == ReceivePage(old(Now()), profile, c, texts)
    {
      var r := Get();
      if r.Died? { return Died; }
      if r.Threw? || r.value.rows.None? || |r.value.rows.value| > RECEIVE_PAGE_SIZE {
        if |texts| == 0 { return Threw; }
        return Returned(Batch(texts, true));
      }
      end := TakeRows(c, r.value.rows.value, texts, |r.value.rows.value| < RECEIVE_PAGE_SIZE);
    }

    /** The `for _ in range(100)` loop of `receive`, with its page limit as a parameter. */
    method ReceiveAll(c: Conversation, limit: nat) returns (end: Ending<Batch>)
      modifies this
      ensures Result(Now(), end) == ReceivePages(old(Now()), profile, c, limit, [])
    {
      ghost var page := PagerOf(profile, c);
      var texts: seq<string>, pages := [], limit;
      while pages > 0
        invariant pages >= 0
        invariant Pages(Now(), pages, texts, page) == Pages(old(Now()), limit, [], page)
      {
        ghost var before := Now();
        var batch := TakePage(c, texts);
        assert Result(Now(), batch) == page(before, texts);
        if !batch.Returned? { return batch; }
        if batch.value.last { return batch; }
        texts, pages := batch.value.texts, pages - 1;
      }
      return Returned(Batch(texts, true));
    }
  }
}
