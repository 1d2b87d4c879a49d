/** What every run of the one-to-one client keeps: no ratchet position is used twice on the
    wire, and prepared ciphertexts are delivered once, in order. */
module OlmSafety {
  import opened Prelude
  import opened OlmSpec

  /** Chain and index of a sending position never used before. */
  predicate Unused(prepared: seq<Envelope>, at: Position) {
    forall i :: 0 <= i < |prepared| && prepared[i].ciphertext.at.chain == at.chain ==>
      prepared[i].ciphertext.at.index < at.index
  }

  /** Every ratchet is ahead of everything ever prepared, and no two share a chain. */
  predicate Fresh(d: Data, prepared: seq<Envelope>, nextChain: nat) {
    && (forall k :: k in d.sessions ==> d.sessions[k].next.chain < nextChain && Unused(prepared, d.sessions[k].next))
    && (forall k, l :: k in d.sessions && l in d.sessions && k != l ==>
          d.sessions[k].next.chain != d.sessions[l].next.chain)
  }

  /** Prepared envelopes are ours, carry increasing ids and pairwise different positions. */
  predicate Ledger(prepared: seq<Envelope>, nextId: nat, nextChain: nat, me: Device) {
    && (forall i :: 0 <= i < |prepared| ==>
          prepared[i].sender == me && prepared[i].id < nextId && prepared[i].ciphertext.at.chain < nextChain)
    && (forall i, j :: 0 <= i < j < |prepared| ==>
          prepared[i].id < prepared[j].id && prepared[i].ciphertext.at != prepared[j].ciphertext.at)
  }

  function OwnIn(log: seq<Envelope>, me: Device): seq<Envelope> {
    if |log| == 0 then []
    else OwnIn(log[..|log| - 1], me) + (if log[|log| - 1].sender == me then [log[|log| - 1]] else [])
  }

  /** The relay holds everything prepared, except possibly the envelope still in the outbox. */
  predicate Delivery(d: Data, log: seq<Envelope>, prepared: seq<Envelope>, me: Device) {
    var own := OwnIn(log, me);
    && |own| <= |prepared| && own == prepared[..|own|]
    && (if d.outbox.None? then |own| == |prepared|
        else |prepared| > 0 && d.outbox.value == prepared[|prepared| - 1] && |own| >= |prepared| - 1)
  }

  predicate Sound(d: Data, log: seq<Envelope>, wire: seq<Envelope>, prepared: seq<Envelope>, nextId: nat,
                  nextChain: nat, me: Device) {
    && Fresh(d, prepared, nextChain)
    && Ledger(prepared, nextId, nextChain, me)
    && Delivery(d, log, prepared, me)
    && (forall e :: e in wire ==> e in prepared)
  }

  predicate SoundWorld(d: Data, w: World, p: Profile) {
    Sound(d, w.log, w.wire, w.prepared, w.nextId, w.nextChain, p.device)
  }

  /** Memory and file agree on everything but unused peer prekeys. */
  predicate Agree(a: Data, b: Data) {
    a.sessions == b.sessions && a.active == b.active && a.outbox == b.outbox && a.cursors == b.cursors
  }

  predicate Inv(w: World, p: Profile) {
    SoundWorld(w.disk, w, p) && (!w.failed ==> Agree(w.data, w.disk))
  }

  predicate Evolves(a: World, b: World) {
    && a.prepared <= b.prepared && a.wire <= b.wire && a.log <= b.log
    && a.nextId <= b.nextId && a.nextChain <= b.nextChain
  }

  predicate Later(a: World, b: World, p: Profile) { Inv(b, p) && Evolves(a, b) }

  lemma OwnAppend(log: seq<Envelope>, e: Envelope, me: Device)
    ensures OwnIn(log + [e], me) == OwnIn(log, me) + (if e.sender == me then [e] else [])
  {
    assert (log + [e])[..|log|] == log;
  }

  lemma {:induction false} OwnMember(log: seq<Envelope>, me: Device, e: Envelope)
    ensures e in OwnIn(log, me) <==> e in log && e.sender == me
  {
    if |log| > 0 {
      var front := log[..|log| - 1];
      OwnMember(front, me, e);
      assert log == front + [log[|log| - 1]];
    }
  }

  lemma {:induction false} OthersAreHarmless(log: seq<Envelope>, others: seq<Envelope>, me: Device)
    ensures OwnIn(AddOthers(log, others, me), me) == OwnIn(log, me)
    ensures log <= AddOthers(log, others, me)
    decreases |others|
  {
    if |others| > 0 {
      if others[0].sender != me { OwnAppend(log, others[0], me); }
      OthersAreHarmless(if others[0].sender == me then log else log + [others[0]], others[1..], me);
    }
  }

  lemma SoundAgrees(a: Data, b: Data, w: World, p: Profile)
    requires SoundWorld(a, w, p) && Agree(a, b)
    ensures SoundWorld(b, w, p)
  {
  }

  lemma DisturbedKeeps(w: World, p: Profile)
    requires Inv(w, p)
    ensures Later(w, Disturbed(w, p), p)
  {
    OthersAreHarmless(w.log, NextTurn(w).others, p.device);
  }

  lemma AskKeeps(w: World, p: Profile)
    requires Inv(w, p)
    ensures var x := Ask(w, p);
      && Later(w, x.world, p)
      && (x.ending.Returned? ==> !x.world.failed && x.world.data == w.data && x.world.disk == w.disk)
  {
    if !w.failed { DisturbedKeeps(w, p); }
  }

  /** A write of sound data leaves a sound file however it ends. */
  lemma SaveKeeps(w: World, p: Profile, entry: Option<Envelope>)
    requires !w.failed && SoundWorld(w.disk, w, p)
    requires Sound(w.data, w.log, w.wire, Recorded(w.prepared, entry), w.nextId, w.nextChain, p.device)
    ensures Later(w, Save(w, entry).world, p)
    ensures Save(w, entry).ending.Returned? ==> Save(w, entry).world == Written(Consumed(w), entry)
  {
    SaveFrame(w, entry);
    SavedLater(w, Save(w, entry).world, entry, p);
  }

  /** How a write can end. */
  lemma SaveFrame(w: World, entry: Option<Envelope>)
    requires !w.failed
    ensures var x := Save(w, entry);
      && x.world.log == w.log && x.world.wire == w.wire && x.world.nextId == w.nextId
      && x.world.nextChain == w.nextChain
      && ((x.world.disk == w.disk && x.world.prepared == w.prepared)
          || (x.world.disk == w.data && x.world.prepared == Recorded(w.prepared, entry)))
      && (!x.world.failed ==> x.world.data == x.world.disk)
      && (x.ending.Returned? ==> x.world == Written(Consumed(w), entry))
      && (x.ending.Threw? ==> x.world.failed)
  {
  }

  lemma SavedLater(w: World, x: World, entry: Option<Envelope>, p: Profile)
    requires SoundWorld(w.disk, w, p)
    requires Sound(w.data, w.log, w.wire, Recorded(w.prepared, entry), w.nextId, w.nextChain, p.device)
    requires x.log == w.log && x.wire == w.wire && x.nextId == w.nextId && x.nextChain == w.nextChain
    requires (x.disk == w.disk && x.prepared == w.prepared)
          || (x.disk == w.data && x.prepared == Recorded(w.prepared, entry))
    requires !x.failed ==> x.data == x.disk
    ensures Later(w, x, p)
  {
  }

  lemma LaterTransitive(a: World, b: World, c: World, p: Profile)
    requires Later(a, b, p) && Later(b, c, p)
    ensures Later(a, c, p)
  {
  }

  lemma ReopenKeeps(a: World, w: World, p: Profile)
    requires Later(a, w, p)
    ensures Later(a, Reopen(w), p)
  {
  }

  lemma DrawIdKeeps(d: Data, w: World, p: Profile)
    requires SoundWorld(d, w, p)
    ensures Sound(d, w.log, w.wire, w.prepared, w.nextId + 1, w.nextChain, p.device)
  {
  }

  // ---------------------------------------------------------------- prepare

  lemma PeersOnlyKeeps(w: World, p: Profile, peers: map<Device, Peer>)
    requires Inv(w, p) && !w.failed
    ensures var x := Save(w.(data := w.data.(peers := peers)), None);
      Later(w, x.world, p) && (x.ending.Returned? ==> !x.world.failed && Agree(x.world.data, w.data))
  {
    var d := w.data.(peers := peers);
    SoundAgrees(w.disk, d, w, p);
    SaveKeeps(w.(data := d), p, None);
  }

  lemma RepinKeeps(w: World, p: Profile, peer: Device)
    requires Inv(w, p) && peer in w.data.peers
    ensures var x := Repin(w, p, peer);
      Later(w, x.world, p) && (x.ending.Returned? ==> !x.world.failed && Agree(x.world.data, w.data))
  {
    AskKeeps(w, p);
    var x := Ask(w, p);
    if x.ending.Returned? && peer in x.world.data.peers {
      var peers := x.world.data.peers[peer := x.world.data.peers[peer].(oneTimePrekey := x.ending.value.prekey)];
      PeersOnlyKeeps(x.world, p, peers);
      LaterTransitive(w, x.world, Repin(w, p, peer).world, p);
    }
  }

  /** The chosen ratchet is ahead of everything prepared and shares its chain with no other session. */
  predicate Chosen(w: World, key: RatchetKey, ratchet: Ratchet) {
    && ratchet.next.chain < w.nextChain && Unused(w.prepared, ratchet.next)
    && (forall k :: k in w.data.sessions && k != key ==> w.data.sessions[k].next.chain != ratchet.next.chain)
  }

  /** Drawing a chain key: nothing known uses it. */
  lemma NewChainIsUnused(w: World, p: Profile, d: Data)
    requires SoundWorld(d, w, p)
    ensures Unused(w.prepared, Position(w.nextChain, 0))
    ensures SoundWorld(d, w.(nextChain := w.nextChain + 1), p)
  {
  }

  lemma ChooseKeeps(w: World, p: Profile, c: Conversation, peer: Device)
    requires Inv(w, p) && !w.failed && peer in w.data.peers
    ensures var x := ChooseRatchet(w, p, c, peer);
      && Later(w, x.world, p)
      && (x.ending.Returned? ==> !x.world.failed && x.world.data.outbox == w.data.outbox
                                 && Chosen(x.world, x.ending.value.0, x.ending.value.1))
  {
    SoundAgrees(w.disk, w.data, w, p);
    if (c, peer) !in w.data.active {
      var x := if w.data.peers[peer].oneTimePrekey.Some? then Ok(w, ()) else Repin(w, p, peer);
      if w.data.peers[peer].oneTimePrekey.None? { RepinKeeps(w, p, peer); }
      if x.ending.Returned? {
        StartKeeps(x.world, p, c, peer);
        LaterTransitive(w, x.world, StartRatchet(x.world, c, peer).world, p);
      }
    }
  }

  lemma StartKeeps(w: World, p: Profile, c: Conversation, peer: Device)
    requires Inv(w, p) && !w.failed
    ensures var x := StartRatchet(w, c, peer);
      && Later(w, x.world, p)
      && (x.ending.Returned? ==> !x.world.failed && x.world.data.outbox == w.data.outbox
                                 && Chosen(x.world, x.ending.value.0, x.ending.value.1))
  {
    NewChainIsUnused(w, p, w.disk);
    SoundAgrees(w.disk, w.data, w, p);
  }

  lemma PreparedFresh(d: Data, prepared: seq<Envelope>, nextChain: nat, key: RatchetKey, ratchet: Ratchet, e: Envelope)
    requires Fresh(d, prepared, nextChain) && ratchet.next.chain < nextChain && e.ciphertext.at == ratchet.next
    requires Unused(prepared, ratchet.next)
    requires forall k :: k in d.sessions && k != key ==> d.sessions[k].next.chain != ratchet.next.chain
    ensures Fresh(Encrypted(d, key, ratchet, e), prepared + [e], nextChain)
  {
    var d', prepared' := Encrypted(d, key, ratchet, e), prepared + [e];
    forall k | k in d'.sessions ensures Unused(prepared', d'.sessions[k].next) {
      forall i | 0 <= i < |prepared'| && prepared'[i].ciphertext.at.chain == d'.sessions[k].next.chain
        ensures prepared'[i].ciphertext.at.index < d'.sessions[k].next.index
      {
        if i < |prepared| { assert prepared'[i] == prepared[i]; }
      }
    }
  }

  lemma PreparedLedger(prepared: seq<Envelope>, nextId: nat, nextChain: nat, me: Device, e: Envelope)
    requires Ledger(prepared, nextId, nextChain, me) && Unused(prepared, e.ciphertext.at)
    requires e.sender == me && e.id == nextId && e.ciphertext.at.chain < nextChain
    ensures Ledger(prepared + [e], nextId + 1, nextChain, me)
  {
  }

  lemma PreparedDelivery(d: Data, d': Data, log: seq<Envelope>, prepared: seq<Envelope>, me: Device, e: Envelope)
    requires Delivery(d, log, prepared, me) && d.outbox.None? && d'.outbox == Some(e)
    ensures Delivery(d', log, prepared + [e], me)
  {
    assert (prepared + [e])[..|prepared|] == prepared;
  }

  lemma PreparedSound(w: World, p: Profile, key: RatchetKey, ratchet: Ratchet, e: Envelope)
    requires Inv(w, p) && !w.failed && w.data.outbox.None? && Chosen(w, key, ratchet)
    requires e.sender == p.device && e.id == w.nextId && e.ciphertext.at == ratchet.next
    ensures Sound(Encrypted(w.data, key, ratchet, e), w.log, w.wire, Recorded(w.prepared, Some(e)), w.nextId + 1,
                  w.nextChain, p.device)
  {
    SoundAgrees(w.disk, w.data, w, p);
    PreparedFresh(w.data, w.prepared, w.nextChain, key, ratchet, e);
    PreparedLedger(w.prepared, w.nextId, w.nextChain, p.device, e);
    PreparedDelivery(w.data, Encrypted(w.data, key, ratchet, e), w.log, w.prepared, p.device, e);
  }

  lemma PreparedSaveKeeps(w: World, p: Profile, key: RatchetKey, ratchet: Ratchet, e: Envelope)
    requires Inv(w, p) && !w.failed && w.data.outbox.None? && Chosen(w, key, ratchet)
    requires e.sender == p.device && e.id == w.nextId && e.ciphertext.at == ratchet.next
    ensures var x := Save(w.(nextId := w.nextId + 1, data := Encrypted(w.data, key, ratchet, e)), Some(e));
      Later(w, x.world, p) && (x.ending.Returned? ==> !x.world.failed)
  {
    PreparedSound(w, p, key, ratchet, e);
    DrawIdKeeps(w.disk, w, p);
    SaveKeeps(w.(nextId := w.nextId + 1, data := Encrypted(w.data, key, ratchet, e)), p, Some(e));
  }

  lemma EncryptKeeps(w: World, p: Profile, c: Conversation, peer: Device, epoch: nat, key: RatchetKey,
                     ratchet: Ratchet, text: string)
    requires Inv(w, p) && !w.failed && w.data.outbox.None? && Chosen(w, key, ratchet)
    ensures var x := EncryptAndSave(w, p, c, peer, epoch, key, ratchet, text);
      Later(w, x.world, p) && (x.ending.Returned? ==> !x.world.failed)
  {
    if |w.data.sessions| < MAX_CLIENT_SESSIONS || key in w.data.sessions {
      var e := MakeEnvelope(p, c, peer, epoch, w.nextId, ratchet, text);
      var w1 := w.(nextId := w.nextId + 1, data := Encrypted(w.data, key, ratchet, e));
      PreparedSaveKeeps(w, p, key, ratchet, e);
      assert EncryptAndSave(w, p, c, peer, epoch, key, ratchet, text) == Save(w1, Some(e));
    }
  }

  lemma PrepareKeeps(w: World, p: Profile, c: Conversation, peer: Device, text: string)
    requires Inv(w, p)
    ensures var x := Prepare(w, p, c, peer, text);
      Later(w, x.world, p) && (x.ending.Returned? ==> !x.world.failed)
  {
    if !(w.failed || |text| == 0 || |text| > 8000 || w.data.outbox.Some? || peer !in w.data.peers) {
      AskKeeps(w, p);
      var x := Ask(w, p);
      if x.ending.Returned? {
        ChooseKeeps(x.world, p, c, peer);
        var y := ChooseRatchet(x.world, p, c, peer);
        LaterTransitive(w, x.world, y.world, p);
        if y.ending.Returned? {
          var key, ratchet := y.ending.value.0, y.ending.value.1;
          EncryptKeeps(y.world, p, c, peer, x.ending.value.epoch, key, ratchet, text);
          LaterTransitive(w, y.world,
            EncryptAndSave(y.world, p, c, peer, x.ending.value.epoch, key, ratchet, text).world, p);
        }
      }
    }
  }

  // ---------------------------------------------------------------- flush

  /** The relay holds the outbox's replay key exactly when it holds that very envelope. */
  lemma PendingStoredIffAccepted(d: Data, w: World, p: Profile)
    requires SoundWorld(d, w, p) && d.outbox.Some?
    ensures Stored(w.log, d.outbox.value) <==> |OwnIn(w.log, p.device)| == |w.prepared|
  {
    var own, e, n := OwnIn(w.log, p.device), d.outbox.value, |w.prepared|;
    if i :| 0 <= i < |w.log| && w.log[i].sender == e.sender && w.log[i].recipient == e.recipient
              && w.log[i].id == e.id {
      OwnMember(w.log, p.device, w.log[i]);
      var k :| 0 <= k < |own| && own[k] == w.log[i];
      assert w.prepared[k].id == w.prepared[n - 1].id;
    }
    if |own| == n {
      assert own[n - 1] == e;
      OwnMember(w.log, p.device, e);
      var i :| 0 <= i < |w.log| && w.log[i] == e;
    }
  }

  /** A post of the outbox that reaches the relay. */
  function Reached(w: World, e: Envelope, refuse: bool): World {
    w.(wire := w.wire + [e], log := if PostVerdict(w.log, e, refuse).Created? then w.log + [e] else w.log)
  }

  lemma ReachedKeeps(w: World, p: Profile, refuse: bool)
    requires Inv(w, p) && w.disk.outbox.Some?
    ensures var e := w.disk.outbox.value;
      var w' := Reached(w, e, refuse);
      Later(w, w', p)
      && (!PostVerdict(w.log, e, refuse).Refused? ==> |OwnIn(w'.log, p.device)| == |w'.prepared|)
  {
    var e, n := w.disk.outbox.value, |w.prepared|;
    PendingStoredIffAccepted(w.disk, w, p);
    assert e in w.prepared;
    if PostVerdict(w.log, e, refuse).Created? {
      OwnAppend(w.log, e, p.device);
      TakeOneMore(w.prepared, n - 1);
      assert w.prepared[..n] == w.prepared;
    }
  }

  /** The world after the POST of the outbox, before a crash is taken into account. */
  function Posted(w: World, p: Profile): World
    requires w.data.outbox.Some?
  {
    var w1 := Disturbed(w, p);
    if NextTurn(w).fault.Effective() then Reached(w1, w.data.outbox.value, NextTurn(w).refuse) else w1
  }

  lemma PostedKeeps(w: World, p: Profile)
    requires Inv(w, p) && !w.failed && w.data.outbox.Some?
    ensures Later(w, Posted(w, p), p)
    ensures Posted(w, p).data == w.data && Posted(w, p).disk == w.disk && !Posted(w, p).failed
    ensures NextTurn(w).fault.Effective() ==>
      PostVerdict(Disturbed(w, p).log, w.data.outbox.value, NextTurn(w).refuse).Refused? ||
      |OwnIn(Posted(w, p).log, p.device)| == |Posted(w, p).prepared|
  {
    DisturbedKeeps(w, p);
    if NextTurn(w).fault.Effective() {
      ReachedKeeps(Disturbed(w, p), p, NextTurn(w).refuse);
      LaterTransitive(w, Disturbed(w, p), Posted(w, p), p);
    }
  }

  /** A post that was not refused means the relay now holds everything prepared. */
  lemma DeliverKeeps(w: World, p: Profile)
    requires Inv(w, p) && !w.failed && w.data.outbox.Some?
    ensures var x := Deliver(w, p, w.data.outbox.value);
      && Later(w, x.world, p)
      && (x.ending.Returned? ==> !x.world.failed && x.world.data == w.data && x.world.disk == w.disk)
      && (x.ending.Returned? && !x.ending.value.Refused? ==>
            |OwnIn(x.world.log, p.device)| == |x.world.prepared|)
  {
    PostedKeeps(w, p);
    ReopenKeeps(w, Posted(w, p), p);
    var x := Deliver(w, p, w.data.outbox.value);
    assert x.world == if NextTurn(w).fault.Crashes() then Reopen(Posted(w, p)) else Posted(w, p);
  }

  lemma FlushKeeps(w: World, p: Profile)
    requires Inv(w, p)
    ensures Later(w, Flush(w, p).world, p)
  {
    if !w.failed && w.data.outbox.Some? {
      DeliverKeeps(w, p);
      var x := Deliver(w, p, w.data.outbox.value);
      if x.ending.Returned? && !x.ending.value.Refused? {
        var d := x.world.data.(outbox := None);
        SoundAgrees(x.world.disk, x.world.data, x.world, p);
        assert SoundWorld(d, x.world, p);
        SaveKeeps(x.world.(data := d), p, None);
        LaterTransitive(w, x.world, Save(x.world.(data := d), None).world, p);
      }
    }
  }

  // ---------------------------------------------------------------- receive

  /** Turning a ratchet onto an unused chain keeps every session fresh. */
  lemma TurnedFresh(d: Data, d': Data, w: World, p: Profile, key: RatchetKey, ratchet: Ratchet)
    requires SoundWorld(d, w, p)
    requires ratchet.next == Position(w.nextChain, 0) || (key in d.sessions && ratchet.next == d.sessions[key].next)
    requires d'.sessions == d.sessions[key := ratchet] && d'.outbox == d.outbox
    ensures SoundWorld(d', w.(nextChain := w.nextChain + 1), p)
  {
    NewChainIsUnused(w, p, d);
  }

  lemma ReceiveOneKeeps(w: World, p: Profile, c: Conversation, row: Row)
    requires Inv(w, p)
    ensures var x := ReceiveOne(w, p, c, row);
      && Later(w, x.world, p)
      && (x.ending.Returned? ==> !x.world.failed)
      && (x.ending.Threw? && !x.world.failed ==> x.world == w)
  {
    var x := Decrypt(w, p, c, row);
    ReceiveOneUnfolds(w, p, c, row);
    if x.ending.Returned? {
      var d := x.world.data.(cursors := x.world.data.cursors[c := row.stamp]);
      DecryptSound(w, p, c, row);
      assert x.world.(data := d) == w.(nextChain := w.nextChain + 1, data := d);
      TurnedSaveKeeps(w, p, d);
    }
  }

  lemma DecryptAndSaveKeeps(w: World, p: Profile, c: Conversation, row: Row)
    requires Inv(w, p)
    ensures var x := DecryptAndSave(w, p, c, row);
      && Later(w, x.world, p)
      && (x.ending.Returned? ==> !x.world.failed)
      && (x.ending.Threw? && !x.world.failed ==> x.world == w)
  {
    var x := Decrypt(w, p, c, row);
    DecryptAndSaveUnfolds(w, p, c, row);
    if x.ending.Returned? {
      DecryptSound(w, p, c, row);
      assert x.world == w.(nextChain := w.nextChain + 1, data := x.world.data);
      TurnedSaveKeeps(w, p, x.world.data);
    }
  }

  lemma DecryptAndSaveUnfolds(w: World, p: Profile, c: Conversation, row: Row)
    ensures var x := Decrypt(w, p, c, row);
      var r := DecryptAndSave(w, p, c, row);
      if x.ending.Returned? then
        var y := Save(x.world, None);
        r.world == y.world && (r.ending.Returned? <==> y.ending.Returned?) && (r.ending.Threw? <==> y.ending.Threw?)
      else r == Result(w, Threw)
  {
  }

  lemma ReceiveOneUnfolds(w: World, p: Profile, c: Conversation, row: Row)
    ensures var x := Decrypt(w, p, c, row);
      var r := ReceiveOne(w, p, c, row);
      if x.ending.Returned? then
        var y := Save(x.world.(data := x.world.data.(cursors := x.world.data.cursors[c := row.stamp])), None);
        r.world == y.world && (r.ending.Returned? <==> y.ending.Returned?) && (r.ending.Threw? <==> y.ending.Threw?)
      else r == Result(w, Threw)
  {
  }

  /** Writing sound data after a chain number was drawn. */
  lemma TurnedSaveKeeps(w: World, p: Profile, d: Data)
    requires Inv(w, p) && !w.failed && SoundWorld(d, w.(nextChain := w.nextChain + 1), p)
    ensures var x := Save(w.(nextChain := w.nextChain + 1, data := d), None);
      Later(w, x.world, p) && (x.ending.Returned? ==> !x.world.failed) && (x.ending.Threw? ==> x.world.failed)
  {
    NewChainIsUnused(w, p, w.disk);
    SaveKeeps(w.(nextChain := w.nextChain + 1, data := d), p, None);
  }

  /** The data a decrypted row is about to write. */
  lemma DecryptSound(w: World, p: Profile, c: Conversation, row: Row)
    requires Inv(w, p) && Decrypt(w, p, c, row).ending.Returned?
    ensures var x := Decrypt(w, p, c, row).world;
      && x == w.(nextChain := w.nextChain + 1, data := x.data) && !w.failed
      && SoundWorld(x.data.(cursors := x.data.cursors[c := row.stamp]), w.(nextChain := w.nextChain + 1), p)
  {
    var x := Decrypt(w, p, c, row).world;
    var e, o := row.envelope, row.opening;
    var key := (c, e.sender, e.ratchet);
    var ratchet := if key in w.data.sessions then Turned(w, w.data.sessions[key], o.newChain)
                   else Ratchet(e.ratchet, Position(w.nextChain, 0));
    SoundAgrees(w.disk, w.data, w, p);
    TurnedFresh(w.data, x.data.(cursors := x.data.cursors[c := row.stamp]), w, p, key, ratchet);
  }

  lemma {:induction false} ReceiveRowsKeeps(w: World, p: Profile, c: Conversation, rows: seq<Row>, got: seq<string>,
                                            last: bool)
    requires Inv(w, p)
    ensures Later(w, ReceiveRows(w, p, c, rows, got, last).world, p)
    decreases |rows|
  {
    if |rows| > 0 {
      ReceiveOneKeeps(w, p, c, rows[0]);
      var r := ReceiveOne(w, p, c, rows[0]);
      if r.ending.Returned? {
        ReceiveRowsKeeps(r.world, p, c, rows[1..], got + [r.ending.value], last);
        LaterTransitive(w, r.world, ReceiveRows(r.world, p, c, rows[1..], got + [r.ending.value], last).world, p);
      }
    }
  }

  lemma ReceivePageKeeps(w: World, p: Profile, c: Conversation, got: seq<string>)
    requires Inv(w, p)
    ensures Later(w, ReceivePage(w, p, c, got).world, p)
  {
    AskKeeps(w, p);
    var r := Ask(w, p);
    if r.ending.Returned? && r.ending.value.rows.Some? && |r.ending.value.rows.value| <= RECEIVE_PAGE_SIZE {
      var rows := r.ending.value.rows.value;
      ReceiveRowsKeeps(r.world, p, c, rows, got, |rows| < RECEIVE_PAGE_SIZE);
      LaterTransitive(w, r.world, ReceivePage(w, p, c, got).world, p);
    }
  }

  ghost predicate PagerKeeps(page: Pager, p: Profile) {
    forall w: World, got: seq<string> :: Inv(w, p) ==> Later(w, page(w, got).world, p)
  }

  lemma {:induction false} PagesKeep(w: World, pages: nat, got: seq<string>, page: Pager, p: Profile)
    requires Inv(w, p) && PagerKeeps(page, p)
    ensures Later(w, Pages(w, pages, got, page).world, p)
    decreases pages
  {
    if pages > 0 {
      var x := page(w, got);
      assert Later(w, x.world, p);
      if x.ending.Returned? && !x.ending.value.last {
        PagesKeep(x.world, pages - 1, x.ending.value.texts, page, p);
        LaterTransitive(w, x.world, Pages(w, pages, got, page).world, p);
      }
    }
  }

  lemma ReceivePagesKeeps(w: World, p: Profile, c: Conversation, pages: nat, got: seq<string>)
    requires Inv(w, p)
    ensures Later(w, ReceivePages(w, p, c, pages, got).world, p)
  {
    var page := PagerOf(p, c);
    forall v: World, more: seq<string> | Inv(v, p) ensures Later(v, page(v, more).world, p) {
      ReceivePageKeeps(v, p, c, more);
    }
    PagesKeep(w, pages, got, page, p);
  }

  // ---------------------------------------------------------------- runs

  lemma PinKeeps(w: World, p: Profile, peer: Device, signedPrekey: string)
    requires Inv(w, p)
    ensures Later(w, Pin(w, p, peer, signedPrekey).world, p)
  {
    AskKeeps(w, p);
    var x := Ask(w, p);
    if x.ending.Returned? {
      PeersOnlyKeeps(x.world, p, x.world.data.peers[peer := Peer(signedPrekey, x.ending.value.prekey)]);
      LaterTransitive(w, x.world, Pin(w, p, peer, signedPrekey).world, p);
    }
  }

  lemma PerformKeeps(w: World, p: Profile, command: Command)
    requires Inv(w, p)
    ensures Later(w, Perform(w, p, command), p)
  {
    match command {
      case DoPin(peer, key) => PinKeeps(w, p, peer, key);
      case DoPrepare(c, peer, text) => PrepareKeeps(w, p, c, peer, text);
      case DoFlush => FlushKeeps(w, p);
      case DoSend(c, peer, text) =>
        PrepareKeeps(w, p, c, peer, text);
        var x := Prepare(w, p, c, peer, text);
        if x.ending.Returned? {
          FlushKeeps(x.world, p);
          LaterTransitive(w, x.world, Flush(x.world, p).world, p);
        }
      case DoDecrypt(c, row) => DecryptAndSaveKeeps(w, p, c, row);
      case DoReceive(c, pages) => ReceivePagesKeeps(w, p, c, pages, []);
      case DoReopen =>
    }
  }

  lemma {:induction false} RunKeeps(w: World, p: Profile, run: Run)
    requires Inv(w, p)
    ensures Later(w, Execute(w, p, run), p)
    decreases |run|
  {
    if |run| > 0 {
      var v := w.(script := run[0].1);
      PerformKeeps(v, p, run[0].0);
      var w1 := Step(w, p, run[0].0, run[0].1);
      RunKeeps(w1, p, run[1..]);
      LaterTransitive(w, w1, Execute(w1, p, run[1..]), p);
    }
  }

  lemma InitialInv(w: World, p: Profile)
    requires Initial(w, p)
    ensures Inv(w, p)
  {
    if OwnIn(w.log, p.device) != [] {
      OwnMember(w.log, p.device, OwnIn(w.log, p.device)[0]);
    }
  }
}
