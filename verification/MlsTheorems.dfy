/** The promises of clients/mls_client.py, over every run from a new profile. */
module MlsTheorems {
  import opened Prelude
  import opened MlsRelay
  import opened MlsSpec
  import opened MlsSafety
  import opened MlsRuns
  import opened MlsEpochs

  /** What the relay accepted from this device is a prefix of what the durable native
      history produced, each envelope once; nothing is missing once the outbox is empty. */
  lemma ExactlyOnceInOrder(w: World, p: Profile, run: Run)
    requires Initial(w, p)
    ensures var v := Execute(w, p, run);
      var sent, accepted := SentIn(v.disk.native), Accepted(v.relay.log, p.device);
      && accepted <= sent
      && Distinct(accepted)
      && |sent| <= |accepted| + |Pending(v.disk)|
      && (v.disk.outbox.None? ==> accepted == sent)
  {
    InitialInv(w, p, false);
    RunKeeps(w, p, run, false);
    var v := Execute(w, p, run);
    var sent, accepted := SentIn(v.disk.native), Accepted(v.relay.log, p.device);
    forall i, j | 0 <= i < j < |accepted| ensures accepted[i] != accepted[j] {
      assert accepted[i] == sent[i] && accepted[j] == sent[j];
    }
  }

  lemma {:induction false} EventInSent(h: seq<NativeEvent>, k: nat) returns (at: nat)
    requires k < |h| && h[k].Sent?
    ensures at + |h[k].envelopes| <= |SentIn(h)|
    ensures SentIn(h)[at..at + |h[k].envelopes|] == h[k].envelopes
    decreases |h|
  {
    var front := h[..|h| - 1];
    if k < |h| - 1 {
      at := EventInSent(front, k);
      assert SentIn(h)[at..at + |h[k].envelopes|] == SentIn(front)[at..at + |h[k].envelopes|];
    } else {
      at := |SentIn(front)|;
    }
  }

  /** Within one operation a later envelope (the Welcome) is accepted only after
      every earlier one (the Commit). */
  lemma CommitBeforeWelcome(w: World, p: Profile, run: Run, k: nat, i: nat, j: nat)
    requires Initial(w, p)
    requires var h := Execute(w, p, run).disk.native; k < |h| && h[k].Sent? && i < j < |h[k].envelopes|
    ensures var v := Execute(w, p, run);
      var es, accepted := v.disk.native[k].envelopes, Accepted(v.relay.log, p.device);
      es[j] in accepted ==> exists a, b :: 0 <= a < b < |accepted| && accepted[a] == es[i] && accepted[b] == es[j]
  {
    InitialInv(w, p, false);
    RunKeeps(w, p, run, false);
    var v := Execute(w, p, run);
    var es, sent, accepted := v.disk.native[k].envelopes, SentIn(v.disk.native), Accepted(v.relay.log, p.device);
    if es[j] in accepted {
      var at := EventInSent(v.disk.native, k);
      assert sent[at + i] == es[i] && sent[at + j] == es[j] by {
        assert sent[at..at + |es|][i] == es[i] && sent[at..at + |es|][j] == es[j];
      }
      var b :| 0 <= b < |accepted| && accepted[b] == es[j];
      assert sent[b].id == sent[at + j].id;
      assert b == at + j;
      assert accepted[at + i] == es[i];
    }
  }

  /** The membership requests the relay carried out belong to pairwise different
      operations, so one pending change moves the epoch at most once. */
  lemma EpochAdvancesOncePerChange(w: World, p: Profile, run: Run)
    requires Initial(w, p)
    ensures Distinct(Execute(w, p, run).applied)
  {
    InitialInv(w, p, false);
    RunKeeps(w, p, run, false);
  }

  /** A script under which the next action simply succeeds. */
  const SMOOTH: seq<Turn> := [Turn([], Fine, Stamp(0, 0), false, NativeRefused, [], false)]

  /** An own row with its digest saved is accepted and uses the digest up. */
  lemma SavedDigestAcceptsEcho(v: World, p: Profile, row: Row, ownerDevice: Device, ownerId: Account)
    requires Idle(v) && DigestSaved(v.data, row) && AwaitsEcho(v.data, p, row) && row.envelope.epoch >= 1
    ensures var c := row.envelope.conversation;
      var x := ReceiveOne(v.(script := SMOOTH), p, c, Delivered(row), ownerDevice, ownerId);
      && x.ending == Returned(None)
      && x.world.disk == v.data.(own := v.data.own - {(c, row.envelope.id)}, cursors := v.data.cursors[c := row.stamp])
  {
  }

  /** Against an honest relay, whenever receiving is allowed every own row that is still
      to come back is recognised: serving it next is accepted, moves the cursor onto it and
      consumes exactly its digest. */
  lemma HonestEchoIsRecognised(w: World, p: Profile, run: Run, row: Row, ownerDevice: Device, ownerId: Account)
    requires Initial(w, p) && HonestRun(run)
    requires var v := Execute(w, p, run);
      Idle(v) && row in v.relay.log && AwaitsEcho(v.data, p, row)
    ensures var v := Execute(w, p, run);
      var c := row.envelope.conversation;
      var x := ReceiveOne(v.(script := SMOOTH), p, c, Delivered(row), ownerDevice, ownerId);
      && x.ending == Returned(None)
      && x.world.disk == v.data.(own := v.data.own - {(c, row.envelope.id)}, cursors := v.data.cursors[c := row.stamp])
  {
    InitialInv(w, p, true);
    RunKeeps(w, p, run, true);
    var v := Execute(w, p, run);
    assert DigestSaved(v.data, row) by {
      var i :| 0 <= i < |v.relay.log| && v.relay.log[i] == row;
      assert v.relay.log[i].envelope !in Pending(v.disk);
    }
    OwnRowHasEpoch(w, p, run, row);
    SavedDigestAcceptsEcho(v, p, row, ownerDevice, ownerId);
  }

  lemma {:induction false} ExecuteSplit(w: World, p: Profile, a: Run, b: Run)
    ensures Execute(w, p, a + b) == Execute(Execute(w, p, a), p, b)
    decreases |a|
  {
    if |a| == 0 {
      assert a + b == b;
    } else {
      assert (a + b)[1..] == a[1..] + b;
      ExecuteSplit(Step(w, p, a[0].0, a[0].1), p, a[1..], b);
    }
  }

  /** Nothing the vault once held is forked or undone: the native history only grows, rows and
      epochs of the relay stay, cursors never move back. */
  lemma DurableHistoryOnlyGrows(w: World, p: Profile, a: Run, b: Run)
    requires Initial(w, p)
    ensures Evolves(Execute(w, p, a), Execute(w, p, a + b))
  {
    InitialInv(w, p, false);
    RunKeeps(w, p, a, false);
    RunKeeps(Execute(w, p, a), p, b, false);
    ExecuteSplit(w, p, a, b);
  }

  /** A digest consumed by its echo is never saved again. */
  lemma DigestConsumedOnce(w: World, p: Profile, a: Run, b: Run, key: (Conversation, nat))
    requires Initial(w, p)
    requires SettledId(Execute(w, p, a).disk, key.1) && key !in Execute(w, p, a).disk.own
    ensures key !in Execute(w, p, a + b).disk.own
  {
    DurableHistoryOnlyGrows(w, p, a, b);
  }

  /** Whatever rows a relay serves, forged or not, rows take effect in strictly increasing
      (time, id) order per conversation: none takes effect twice. */
  lemma NoRowTakesEffectTwice(w: World, p: Profile, run: Run, i: nat, j: nat)
    requires Initial(w, p)
    requires var h := Execute(w, p, run).disk.native;
      i < j < |h| && IsReception(h[i]) && IsReception(h[j]) && h[i].conversation == h[j].conversation
    ensures var h := Execute(w, p, run).disk.native;
      After(h[j].row.stamp, h[i].row.stamp) && h[i].row != h[j].row
  {
    InitialInv(w, p, false);
    RunKeeps(w, p, run, false);
  }

  /** The data with the effect of a row and its cursor: an own row uses up its digest, a Commit for a group we are not
      in is passed over, and any other row enters the native history and its group. */
  function RowEffect(d: Data, p: Profile, c: Conversation, row: Row, ownerDevice: Device, ownerId: Account): Data {
    var e := row.envelope;
    var d1 := if e.sender == p.device then d.(own := d.own - {(c, e.id)})
              else if e.kind.Commit? && c !in d.groups then d
              else Absorb(d, c, if e.kind.Welcome? then Joined(c, row) else Received(c, row),
                          Group(e.epoch, ownerId, ownerDevice));
    d1.(cursors := d1.cursors[c := row.stamp])
  }

  /** A row either takes effect together with its cursor in one write, or the file stays as it is: nothing in between,
      however the write ends.  Returning means it took effect; raising while healthy means nothing changed. */
  lemma ReceptionIsAtomic(w: World, p: Profile, run: Run, script: seq<Turn>, c: Conversation, x: Incoming,
                          ownerDevice: Device, ownerId: Account)
    requires Initial(w, p) && Idle(Execute(w, p, run))
    ensures var v := Execute(w, p, run).(script := script);
      var y := ReceiveOne(v, p, c, x, ownerDevice, ownerId);
      && (y.ending.Threw? && !y.world.failed ==> y.world.data == v.data && y.world.disk == v.disk)
      && (y.world.disk == v.disk
          || (x.Delivered? && CursorAdvances(v.disk, c, x.row.stamp)
              && y.world.disk == RowEffect(v.disk, p, c, x.row, ownerDevice, ownerId)))
      && (y.ending.Returned? ==>
            x.Delivered? && y.world.disk == RowEffect(v.disk, p, c, x.row, ownerDevice, ownerId))
  {
    InitialInv(w, p, false);
    RunKeeps(w, p, run, false);
    var v := Execute(w, p, run).(script := script);
    assert v.data == v.disk;
    OneRowOneWrite(v, p, c, x, ownerDevice, ownerId);
  }

  lemma OneRowOneWrite(v: World, p: Profile, c: Conversation, x: Incoming, ownerDevice: Device, ownerId: Account)
    requires Idle(v)
    ensures var y := ReceiveOne(v, p, c, x, ownerDevice, ownerId);
      && (y.ending.Threw? && !y.world.failed ==> y.world.data == v.data && y.world.disk == v.disk)
      && (y.world.disk == v.disk
          || (x.Delivered? && CursorAdvances(v.data, c, x.row.stamp)
              && y.world.disk == RowEffect(v.data, p, c, x.row, ownerDevice, ownerId)))
      && (y.ending.Returned? ==>
            x.Delivered? && y.world.disk == RowEffect(v.data, p, c, x.row, ownerDevice, ownerId))
  {
    if x.Delivered? {
      if x.row.envelope.sender != p.device {
        OneForeignWrite(v, p, c, x.row, ownerDevice, ownerId);
      } else {
        AcknowledgeWrites(v, v.data.(own := v.data.own - {(c, x.row.envelope.id)}), c, x.row.stamp, None);
      }
    }
  }

  /** The file after a step that may have written `d`, and how the step ended. */
  predicate AllOrNothing(w: World, y: Result<World, Option<Message>>, d: Data) {
    && (y.ending.Threw? && !y.world.failed ==> y.world.data == w.data && y.world.disk == w.disk)
    && (y.world.disk == w.disk || y.world.disk == d) && (y.ending.Returned? ==> y.world.disk == d)
  }

  lemma AcknowledgeWrites(w: World, d: Data, c: Conversation, s: Stamp, text: Option<Message>)
    requires !w.failed
    ensures AllOrNothing(w, Acknowledge(w.(data := d), c, s, text), d.(cursors := d.cursors[c := s]))
  {
  }

  lemma AdmitWrites(w: World, p: Profile, c: Conversation, row: Row, reply: NativeReply, ownerDevice: Device,
                    ownerId: Account)
    requires !w.failed && row.envelope.sender != p.device && (row.envelope.kind.Commit? ==> c in w.data.groups)
    ensures AllOrNothing(w, Admit(w, p, c, row, reply, ownerDevice, ownerId),
                         RowEffect(w.data, p, c, row, ownerDevice, ownerId))
  {
    var e := row.envelope;
    var text := if reply.NativeReply? && reply.kind == Some(Application) && reply.plaintext.Some?
                then Some(Message(e.sender, reply.plaintext.value)) else None;
    var d := Absorb(w.data, c, if e.kind.Welcome? then Joined(c, row) else Received(c, row),
                    Group(e.epoch, ownerId, ownerDevice));
    AcknowledgeWrites(w, d, c, row.stamp, text);
  }

  lemma OneForeignWrite(v: World, p: Profile, c: Conversation, row: Row, ownerDevice: Device, ownerId: Account)
    requires Idle(v) && row.envelope.sender != p.device
    ensures AllOrNothing(v, ReceiveForeign(v, p, c, row, ownerDevice, ownerId),
                         RowEffect(v.data, p, c, row, ownerDevice, ownerId))
  {
    NativeFrame(v);
    AcknowledgeWrites(v, v.data, c, row.stamp, None);
    var x := CallNative(v);
    if x.ending.Returned? && (row.envelope.kind.Commit? ==> c in v.data.groups) {
      AdmitWrites(x.world, p, c, row, x.ending.value, ownerDevice, ownerId);
    }
  }

  /** After a failed save no operation reaches the relay or the vault until the profile is reopened. */
  lemma PoisonedClientIsSilent(w: World, p: Profile, command: Command, script: seq<Turn>)
    requires w.failed && !command.DoReopen? && !command.Elapse?
    ensures Step(w, p, command, script) == w.(script := script)
  {
  }
}
