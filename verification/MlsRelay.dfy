/** The delivery service an MLS client talks to: the routes of src/app/main.py
    that matter to it.  One table of accepted envelopes in (time, id) order, one
    epoch per conversation, and one membership row per account. */
module MlsRelay {
  import opened Prelude

  type Device = string
  type Account = string
  type Conversation = string

  datatype Kind = Application | Commit | Welcome

  /** The authenticated context of a ciphertext, carried in its header. */
  datatype Context = Context(conversation: Conversation, epoch: nat, id: nat, kind: Kind, sender: Device)

  datatype Envelope = Envelope(
    sender: Device, recipientDevice: Option<Device>, conversation: Conversation,
    epoch: nat, kind: Kind, id: nat, header: Context, ciphertext: string)

  /** `(created_at, id)` of a stored row. */
  datatype Stamp = Stamp(time: int, id: int)

  predicate After(a: Stamp, b: Stamp) {
    a.time > b.time || (a.time == b.time && a.id > b.id)
  }

  datatype Row = Row(stamp: Stamp, envelope: Envelope)

  datatype Member = Member(joined: nat, removed: Option<nat>, active: bool)

  datatype Relay = Relay(
    owners: map<Conversation, Account>, epochs: map<Conversation, nat>,
    members: map<(Conversation, Account), Member>, log: seq<Row>)

  function Epoch(r: Relay, c: Conversation): nat {
    if c in r.epochs then r.epochs[c] else 0
  }

  datatype ReplayKey = ReplayKey(sender: Device, device: Option<Device>, conversation: Option<Conversation>, id: nat)

  /** Sender, addressee and client message id; never the epoch or the ciphertext. */
  function KeyOf(e: Envelope): ReplayKey {
    ReplayKey(e.sender, e.recipientDevice, if e.recipientDevice.None? then Some(e.conversation) else None, e.id)
  }

  predicate Stored(r: Relay, k: ReplayKey) {
    exists i :: 0 <= i < |r.log| && KeyOf(r.log[i].envelope) == k
  }

  /** The stamp of the next row: rows are appended in (time, id) order. */
  function NextStamp(log: seq<Row>, wanted: Stamp): (s: Stamp)
    ensures |log| > 0 ==> After(s, log[|log| - 1].stamp)
  {
    if |log| == 0 || After(wanted, log[|log| - 1].stamp) then wanted
    else Stamp(log[|log| - 1].stamp.time, log[|log| - 1].stamp.id + 1)
  }

  datatype Verdict = Created | Duplicate | Refused

  /** Routing rules of the POST route: current epoch, and only a Welcome names a device. */
  predicate Routable(r: Relay, e: Envelope) {
    e.epoch == Epoch(r, e.conversation) && (e.kind.Welcome? <==> e.recipientDevice.Some?)
  }

  function PostVerdict(r: Relay, e: Envelope, refuse: bool): Verdict {
    if refuse || !Routable(r, e) then Refused
    else if Stored(r, KeyOf(e)) then Duplicate
    else Created
  }

  function Append(r: Relay, e: Envelope, wanted: Stamp): Relay {
    r.(log := r.log + [Row(NextStamp(r.log, wanted), e)])
  }

  function Post(r: Relay, e: Envelope, wanted: Stamp, refuse: bool): Relay {
    if PostVerdict(r, e, refuse).Created? then Append(r, e, wanted) else r
  }

  predicate ActiveMember(r: Relay, c: Conversation, a: Account) {
    (c, a) in r.members && r.members[(c, a)].active
  }

  predicate ChangeAllowed(r: Relay, c: Conversation, a: Account, remove: bool) {
    c in r.epochs && ActiveMember(r, c, a) == remove
  }

  /** An accepted membership change advances the epoch by exactly one. */
  function Change(r: Relay, c: Conversation, a: Account, remove: bool): Relay {
    if !ChangeAllowed(r, c, a, remove) then r
    else
      var epoch := Epoch(r, c) + 1;
      var row := if remove then r.members[(c, a)].(removed := Some(epoch), active := false)
                 else Member(epoch, None, true);
      r.(epochs := r.epochs[c := epoch], members := r.members[(c, a) := row])
  }

  /** What everybody else may do to the relay between two requests of this client. */
  datatype Interference =
    | OtherPost(envelope: Envelope, stamp: Stamp)
    | OtherChange(conversation: Conversation, account: Account, remove: bool)

  /** The relay authenticates the sending device, so nobody else posts as `me`. */
  function Interfere(r: Relay, a: Interference, me: Device): Relay {
    match a
    case OtherPost(e, stamp) => if e.sender == me then r else Post(r, e, stamp, false)
    case OtherChange(c, account, remove) => Change(r, c, account, remove)
  }

  function InterfereAll(r: Relay, actions: seq<Interference>, me: Device): Relay
    decreases |actions|
  {
    if |actions| == 0 then r
    else InterfereAll(Interfere(r, actions[0], me), actions[1..], me)
  }

  /** Envelopes of one sender in the order the relay accepted them. */
  function Accepted(log: seq<Row>, me: Device): seq<Envelope> {
    if |log| == 0 then []
    else
      var rest := Accepted(log[..|log| - 1], me);
      if log[|log| - 1].envelope.sender == me then rest + [log[|log| - 1].envelope] else rest
  }

  predicate StampsIncrease(log: seq<Row>) {
    forall i, j :: 0 <= i < j < |log| ==> After(log[j].stamp, log[i].stamp)
  }

  /** The later relay extends the earlier one: rows are kept, epochs do not go back. */
  predicate Extends(a: Relay, b: Relay) {
    && a.log <= b.log
    && (forall c :: c in a.epochs ==> c in b.epochs && a.epochs[c] <= b.epochs[c])
  }

  lemma AcceptedAppend(log: seq<Row>, row: Row, me: Device)
    ensures Accepted(log + [row], me)
         == Accepted(log, me) + (if row.envelope.sender == me then [row.envelope] else [])
  {
    assert (log + [row])[..|log|] == log;
  }

  lemma {:induction false} AcceptedMember(log: seq<Row>, me: Device, e: Envelope)
    ensures e in Accepted(log, me) <==> exists i :: 0 <= i < |log| && log[i].envelope == e && e.sender == me
  {
    if |log| != 0 {
      var front := log[..|log| - 1];
      AcceptedMember(front, me, e);
      if e in Accepted(front, me) {
        var i :| 0 <= i < |front| && front[i].envelope == e && e.sender == me;
        assert log[i].envelope == e;
      }
      if i :| 0 <= i < |log| && log[i].envelope == e && e.sender == me {
        if i < |log| - 1 { assert front[i].envelope == e; }
      }
    }
  }

  lemma AppendKeepsOrder(r: Relay, e: Envelope, wanted: Stamp)
    requires StampsIncrease(r.log)
    ensures StampsIncrease(Append(r, e, wanted).log)
  {
    var log' := Append(r, e, wanted).log;
    forall i, j | 0 <= i < j < |log'| ensures After(log'[j].stamp, log'[i].stamp) {
      if j == |r.log| && i < |r.log| - 1 {
        assert After(r.log[|r.log| - 1].stamp, r.log[i].stamp);
      }
    }
  }

  lemma InterfereExtends(r: Relay, a: Interference, me: Device)
    requires StampsIncrease(r.log)
    ensures Extends(r, Interfere(r, a, me))
    ensures Accepted(Interfere(r, a, me).log, me) == Accepted(r.log, me)
    ensures StampsIncrease(Interfere(r, a, me).log)
  {
    if a.OtherPost? && a.envelope.sender != me && PostVerdict(r, a.envelope, false).Created? {
      AcceptedAppend(r.log, Row(NextStamp(r.log, a.stamp), a.envelope), me);
      AppendKeepsOrder(r, a.envelope, a.stamp);
    }
  }

  /** Interference never touches the rows this device got accepted. */
  lemma {:induction false} InterferenceIsHarmless(r: Relay, actions: seq<Interference>, me: Device)
    requires StampsIncrease(r.log)
    ensures Extends(r, InterfereAll(r, actions, me))
    ensures Accepted(InterfereAll(r, actions, me).log, me) == Accepted(r.log, me)
    ensures StampsIncrease(InterfereAll(r, actions, me).log)
    decreases |actions|
  {
    if |actions| != 0 {
      InterfereExtends(r, actions[0], me);
      InterferenceIsHarmless(Interfere(r, actions[0], me), actions[1..], me);
    }
  }
}
