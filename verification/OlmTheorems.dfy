/** The promises of clients/e2ee_client.py, over every run from a new profile. */
module OlmTheorems {
  import opened Prelude
  import opened OlmSpec
  import opened OlmSafety

  /** Whatever fails, crashes or is retried, one ratchet position never leaves the device
      with two different ciphertexts or envelopes. */
  lemma NoRatchetReuseOnTheWire(w: World, p: Profile, run: Run, a: Envelope, b: Envelope)
    requires Initial(w, p)
    requires a in Execute(w, p, run).wire && b in Execute(w, p, run).wire && a.ciphertext.at == b.ciphertext.at
    ensures a == b
  {
    InitialInv(w, p);
    RunKeeps(w, p, run);
    var v := Execute(w, p, run);
    var i :| 0 <= i < |v.prepared| && v.prepared[i] == a;
    var j :| 0 <= j < |v.prepared| && v.prepared[j] == b;
  }

  /** The relay's rows from this device are what was prepared, in order and once each; an empty
      durable outbox means nothing is missing. */
  lemma PreparedIsDeliveredOnce(w: World, p: Profile, run: Run)
    requires Initial(w, p)
    ensures var v := Execute(w, p, run);
      var own := OwnIn(v.log, p.device);
      && own <= v.prepared && |v.prepared| <= |own| + 1
      && Distinct(own)
      && (v.disk.outbox.None? ==> own == v.prepared)
  {
    InitialInv(w, p);
    RunKeeps(w, p, run);
    var v := Execute(w, p, run);
    var own := OwnIn(v.log, p.device);
    forall i, j | 0 <= i < j < |own| ensures own[i] != own[j] {
      assert own[i] == v.prepared[i] && own[j] == v.prepared[j];
    }
  }

  /** A delivery attempt posts nothing but the envelope the vault file holds. */
  lemma PostsTheDurableOutbox(w: World, p: Profile, run: Run, script: seq<Turn>)
    requires Initial(w, p)
    ensures var v := Execute(w, p, run);
      var x := Step(v, p, DoFlush, script);
      x.wire == v.wire || (v.disk.outbox.Some? && x.wire == v.wire + [v.disk.outbox.value])
  {
    InitialInv(w, p);
    RunKeeps(w, p, run);
    FlushPosts(Execute(w, p, run).(script := script), p);
  }

  lemma FlushPosts(v: World, p: Profile)
    requires !v.failed ==> Agree(v.data, v.disk)
    ensures var x := Flush(v, p).world;
      x.wire == v.wire || (v.disk.outbox.Some? && x.wire == v.wire + [v.disk.outbox.value])
  {
  }

  /** A turn in which the exchange or the write simply succeeds; others may post meanwhile. */
  predicate Calm(t: Turn) { t.fault.Fine? && !t.refuse }

  /** Progress: after any run, reopening the profile and one undisturbed delivery empty the durable outbox, and the
      relay then holds everything that was ever prepared. */
  lemma RetryDelivers(w: World, p: Profile, run: Run, script: seq<Turn>)
    requires Initial(w, p) && |script| >= 2 && Calm(script[0]) && Calm(script[1])
    ensures var v := Execute(w, p, run);
      var x := Flush(Reopen(v).(script := script), p);
      && x.ending.Returned? && x.world.disk.outbox.None?
      && x.world.prepared == v.prepared && OwnIn(x.world.log, p.device) == v.prepared
  {
    InitialInv(w, p);
    RunKeeps(w, p, run);
    var u := Reopen(Execute(w, p, run)).(script := script);
    FlushKeeps(u, p);
    CalmFlush(u, p);
    var x := Flush(u, p);
    assert x.world.prepared[..|x.world.prepared|] == x.world.prepared;
  }

  lemma CalmFlush(u: World, p: Profile)
    requires !u.failed && u.data == u.disk && |u.script| >= 2 && Calm(u.script[0]) && Calm(u.script[1])
    ensures var x := Flush(u, p);
      x.ending.Returned? && x.world.disk.outbox.None? && x.world.prepared == u.prepared
  {
    if u.data.outbox.Some? {
      var y := Deliver(u, p, u.data.outbox.value);
      assert y.ending.Returned? && y.world.data == u.data && y.world.prepared == u.prepared && !y.world.failed;
      assert y.world.script == u.script[1..] && y.world.script[0] == u.script[1];
    }
  }

  lemma {:induction false} ExecuteSplit(w: World, p: Profile, a: Run, b: Run)
    ensures Execute(w, p, a + b) == Execute(Execute(w, p, a), p, b)
    decreases |a|
  {
    if |a| == 0 {
      assert a + b == b;
    } else {
      assert (a + b)[1..] == a[1..] + b;
      ExecuteSplit(Step(w, p, a[0].0, a[0].1), p, a[1..], b);
    }
  }

  /** A durable ciphertext is never forgotten: later it is still prepared, and it is either
      at the relay or in the durable outbox. */
  lemma DurableCiphertextSurvives(w: World, p: Profile, a: Run, b: Run, e: Envelope)
    requires Initial(w, p) && Execute(w, p, a).disk.outbox == Some(e)
    ensures var v := Execute(w, p, a + b);
      v.disk.outbox == Some(e) || e in v.log
  {
    InitialInv(w, p);
    RunKeeps(w, p, a);
    var u := Execute(w, p, a);
    RunKeeps(u, p, b);
    ExecuteSplit(w, p, a, b);
    PendingOrDelivered(u, Execute(u, p, b), p, e);
  }

  lemma PendingOrDelivered(u: World, v: World, p: Profile, e: Envelope)
    requires Inv(u, p) && Later(u, v, p) && u.disk.outbox == Some(e)
    ensures v.disk.outbox == Some(e) || e in v.log
  {
    var n, own := |u.prepared|, OwnIn(v.log, p.device);
    assert v.prepared[n - 1] == e;
    if n - 1 < |own| {
      assert own[n - 1] == e;
      OwnMember(v.log, p.device, e);
    }
  }

  /** After a failed save nothing reaches the wire, the relay or the vault until reopening. */
  lemma PoisonedClientIsSilent(w: World, p: Profile, command: Command, script: seq<Turn>)
    requires w.failed && !command.DoReopen? && (command.DoReceive? ==> command.pages > 0)
    ensures Step(w, p, command, script) == w.(script := script)
  {
  }

  /** The data with the turned ratchet of a row's session. */
  function RatchetEffect(w: World, c: Conversation, row: Row): Data
    requires row.opening.Opened?
  {
    var e := row.envelope;
    var key := (c, e.sender, e.ratchet);
    var ratchet := if key in w.data.sessions then Turned(w, w.data.sessions[key], row.opening.newChain)
                   else Ratchet(e.ratchet, Position(w.nextChain, 0));
    w.data.(sessions := w.data.sessions[key := ratchet], active := w.data.active[(c, e.sender) := key])
  }

  /** The data with the turned ratchet and the row's cursor. */
  function RowEffect(w: World, c: Conversation, row: Row): Data
    requires row.opening.Opened?
  {
    RatchetEffect(w, c, row).(cursors := w.data.cursors[c := row.stamp])
  }

  /** A refused row changes nothing.  An accepted one reaches the file as turned ratchet and cursor together, or, when
      the write fails or the process dies, not at all; returning means it is there. */
  lemma ReceptionIsAtomic(w: World, p: Profile, run: Run, script: seq<Turn>, c: Conversation, row: Row)
    requires Initial(w, p)
    ensures var v := Execute(w, p, run).(script := script);
      var x := ReceiveOne(v, p, c, row);
      && (x.ending.Threw? && !x.world.failed ==> x.world == v)
      && (x.world.disk == v.disk || (row.opening.Opened? && x.world.disk == RowEffect(v, c, row)))
      && (x.ending.Returned? ==> row.opening.Opened? && x.world.disk == RowEffect(v, c, row))
  {
    InitialInv(w, p);
    RunKeeps(w, p, run);
    var v := Execute(w, p, run).(script := script);
    ReceiveOneKeeps(v, p, c, row);
    OneRowOneWrite(v, p, c, row);
  }

  lemma OneRowOneWrite(v: World, p: Profile, c: Conversation, row: Row)
    ensures var x := ReceiveOne(v, p, c, row);
      && (x.world.disk == v.disk || (row.opening.Opened? && x.world.disk == RowEffect(v, c, row)))
      && (x.ending.Returned? ==> row.opening.Opened? && x.world.disk == RowEffect(v, c, row))
  {
  }

  /** Decrypting outside `receive` saves the turned ratchet alone or nothing, and leaves every cursor where it was. */
  lemma DecryptionIsAtomic(w: World, p: Profile, run: Run, script: seq<Turn>, c: Conversation, row: Row)
    requires Initial(w, p)
    ensures var v := Execute(w, p, run).(script := script);
      var x := DecryptAndSave(v, p, c, row);
      && (x.ending.Threw? && !x.world.failed ==> x.world == v)
      && (x.world.disk == v.disk || (row.opening.Opened? && x.world.disk == RatchetEffect(v, c, row)))
      && (x.ending.Returned? ==> row.opening.Opened? && x.world.disk == RatchetEffect(v, c, row))
      && x.world.disk.cursors == v.disk.cursors
  {
    InitialInv(w, p);
    RunKeeps(w, p, run);
    DecryptAndSaveKeeps(Execute(w, p, run).(script := script), p, c, row);
  }
}
