/** Delivery makes progress: when a retry of `flush` goes through, and what it has achieved then. */
module MlsProgress {
  import opened Prelude
  import opened MlsRelay
  import opened MlsSpec
  import opened MlsSafety
  import opened MlsRuns
  import opened MlsEpochs

  /** A turn in which nobody interferes and the action succeeds. */
  predicate Calm(t: Turn) { t.interference == [] && t.fault.Fine? && !t.refuse }

  /** The next `n` actions are undisturbed. */
  predicate CalmFor(script: seq<Turn>, n: nat) {
    n <= |script| && forall i :: 0 <= i < n ==> Calm(script[i])
  }

  function MemberOf(r: Relay, c: Conversation, a: Account): Option<Member> {
    if (c, a) in r.members then Some(r.members[(c, a)]) else None
  }

  /** The relay is ready for an outbox: at its epoch, for a membership change with the matching member row; or one epoch
      below, with the change allowed. */
  predicate Ready(r: Relay, box: Outbox) {
    var c := box.conversation;
    && c in r.owners
    && if box.membership.None? then Epoch(r, c) == box.epoch
       else
         var m := box.membership.value;
         || (Epoch(r, c) == box.epoch && Acknowledged(m, box.epoch, MemberOf(r, c, m.account)))
         || (Epoch(r, c) + 1 == box.epoch && ChangeAllowed(r, c, m.account, m.remove))
  }

  /** An undisturbed exchange. */
  lemma CalmExchange(w: World, p: Profile, q: Request)
    requires !w.failed && CalmFor(w.script, 1)
    ensures var x := Exchange(w, p, q);
      var (relay, response) := Serve(w.relay, q, w.script[0], p.account);
      && x.ending == Returned(response) && x.world.relay == relay && x.world.script == w.script[1..]
      && x.world.data == w.data && x.world.disk == w.disk && !x.world.failed
  {
    assert Calm(w.script[0]);
  }

  lemma CalmSave(w: World)
    requires !w.failed && CalmFor(w.script, 1)
    ensures Save(w) == Ok(w.(disk := w.data, script := w.script[1..]), ())
  {
    assert Calm(w.script[0]);
  }

  lemma CalmRest(script: seq<Turn>, n: nat)
    requires CalmFor(script, n + 1)
    ensures CalmFor(script[1..], n) && Calm(script[0])
  {
    forall i | 0 <= i < n ensures Calm(script[1..][i]) { assert script[1..][i] == script[i + 1]; }
  }

  /** The change that was asked for is the one acknowledged. */
  lemma ChangeIsAcknowledged(r: Relay, c: Conversation, m: Membership)
    requires ChangeAllowed(r, c, m.account, m.remove)
    ensures var r' := Change(r, c, m.account, m.remove);
      Epoch(r', c) == Epoch(r, c) + 1 && Acknowledged(m, Epoch(r, c) + 1, MemberOf(r', c, m.account))
  {
  }

  /** What settling a membership change leaves untouched. */
  predicate SameClient(w: World, x: World) { x.data == w.data && x.disk == w.disk && x.failed == w.failed }

  /** The membership part goes through exactly if the relay is ready, and brings it to the outbox's epoch. */
  lemma CalmSettle(w: World, p: Profile, box: Outbox, n: nat)
    requires !w.failed && CalmFor(w.script, n + 2) && box.membership.Some? && box.conversation in w.relay.owners
    ensures var x := SettleMembership(w, p, box, Epoch(w.relay, box.conversation));
      && (x.ending.Returned? <==> Ready(w.relay, box))
      && (x.ending.Returned? ==> SameClient(w, x.world) && CalmFor(x.world.script, n)
                                 && Epoch(x.world.relay, box.conversation) == box.epoch)
  {
    var c, m, epoch := box.conversation, box.membership.value, Epoch(w.relay, box.conversation);
    CalmRest(w.script, n + 1);
    CalmRest(w.script[1..], n);
    if epoch + 1 == box.epoch {
      CalmExchange(w, p, ChangeMembership(c, m));
      var y := Fetch(w, p, ChangeMembership(c, m));
      if ChangeAllowed(w.relay, c, m.account, m.remove) {
        ChangeIsAcknowledged(w.relay, c, m);
        assert y.ending == Returned(Done);
        CalmExchange(y.world, p, GetMember(c, m.account));
      }
    } else if epoch == box.epoch {
      CalmExchange(w, p, GetMember(c, m.account));
      CalmShorter(w.script[1..], n, n + 1);
    }
  }

  lemma CalmShorter(script: seq<Turn>, n: nat, m: nat)
    requires CalmFor(script, m) && n <= m
    ensures CalmFor(script, n)
  {
  }

  /** A routable head is accepted now or was before. */
  lemma CalmHead(w: World, p: Profile, n: nat)
    requires !w.failed && CalmFor(w.script, n + 2) && PendingCount(w.data) > 0 && Addressed(w.data.outbox.value)
    requires Epoch(w.relay, w.data.outbox.value.conversation) == w.data.outbox.value.epoch
    ensures var x := DeliverHead(w, p);
      && x.ending.Returned? && !x.world.failed && CalmFor(x.world.script, n)
      && x.world.data == Popped(w.data, p) && x.world.relay.epochs == w.relay.epochs
  {
    var e := w.data.outbox.value.envelopes[0];
    assert e in w.data.outbox.value.envelopes;
    CalmRest(w.script, n + 1);
    CalmRest(w.script[1..], n);
    CalmExchange(w, p, PostEnvelope(e));
    var y := Exchange(w, p, PostEnvelope(e)).world;
    CalmSave(y.(data := Popped(y.data, p)));
  }

  lemma {:induction false} CalmDeliver(w: World, p: Profile)
    requires !w.failed && w.data.outbox.Some? && Addressed(w.data.outbox.value)
    requires CalmFor(w.script, 2 * PendingCount(w.data) + 1)
    requires Epoch(w.relay, w.data.outbox.value.conversation) == w.data.outbox.value.epoch
    ensures var x := Deliver(w, p);
      x.ending.Returned? && x.world.disk.outbox.None? && x.world.disk.native == w.data.native
    decreases PendingCount(w.data)
  {
    if PendingCount(w.data) == 0 {
      CalmSave(w.(data := w.data.(outbox := None)));
    } else {
      CalmHead(w, p, 2 * (PendingCount(w.data) - 1) + 1);
      CalmDeliver(DeliverHead(w, p).world, p);
    }
  }

  /** An undisturbed `flush` goes through exactly if the relay is ready for the outbox. */
  lemma CalmFlush(w: World, p: Profile)
    requires !w.failed && w.data.outbox.Some? && Addressed(w.data.outbox.value)
    requires CalmFor(w.script, 2 * PendingCount(w.data) + 4)
    ensures var x := Flush(w, p);
      && (x.ending.Returned? <==> Ready(w.relay, w.data.outbox.value))
      && (x.ending.Returned? ==> x.world.disk.outbox.None? && x.world.disk.native == w.data.native)
  {
    var box, n := w.data.outbox.value, 2 * PendingCount(w.data) + 1;
    CalmRest(w.script, n + 2);
    CalmExchange(w, p, GetState(box.conversation));
    var y := Fetch(w, p, GetState(box.conversation));
    if box.conversation in w.relay.owners {
      assert y.ending == Returned(State(Epoch(w.relay, box.conversation), w.relay.owners[box.conversation]));
      if box.membership.Some? {
        CalmSettle(y.world, p, box, n);
        var z := SettleMembership(y.world, p, box, Epoch(w.relay, box.conversation));
        if z.ending.Returned? { CalmDeliver(z.world, p); }
      } else if Epoch(w.relay, box.conversation) == box.epoch {
        CalmShorter(y.world.script, n, n + 2);
        CalmDeliver(y.world, p);
      }
    }
  }

  /** Progress: after any run, reopening the profile and one undisturbed `flush` deliver everything the durable history
      produced and empty the outbox, exactly if the relay is ready for what is pending. */
  lemma RetryDelivers(w: World, p: Profile, run: Run, script: seq<Turn>)
    requires Initial(w, p)
    requires CalmFor(script, 2 * PendingCount(Execute(w, p, run).disk) + 4)
    ensures var v := Execute(w, p, run);
      var x := Flush(Reopen(v).(script := script), p);
      && (x.ending.Returned? <==> (v.disk.outbox.Some? ==> Ready(v.relay, v.disk.outbox.value)))
      && (x.ending.Returned? ==>
            x.world.disk.outbox.None? && Accepted(x.world.relay.log, p.device) == SentIn(v.disk.native))
  {
    EpochsStartAtOne(w, p, run);
    InitialInv(w, p, false);
    RunKeeps(w, p, run, false);
    var u := Reopen(Execute(w, p, run)).(script := script);
    if u.data.outbox.Some? { CalmFlush(u, p); }
    FlushKeeps(u, p, false);
    var x := Flush(u, p);
    if x.ending.Returned? { AllAccepted(x.world, p); }
  }

  lemma AllAccepted(x: World, p: Profile)
    requires Inv(x, p, false) && x.disk.outbox.None?
    ensures Accepted(x.relay.log, p.device) == SentIn(x.disk.native)
  {
    var sent := SentIn(x.disk.native);
    assert sent[..|sent|] == sent;
  }
}
