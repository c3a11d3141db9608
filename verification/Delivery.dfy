/**
 The mailbox and the device together. Frames reach the device from the queue or live, late, twice
 or not at all, and an envelope leaves the queue by an acknowledgement of its id. Ids are chosen by
 the clients.
 */
module Delivery {
  import opened Crypto
  import opened Ratchet
  import opened SenderKey
  import opened X3dh
  import opened MailboxKeys
  import opened Mailbox
  import opened Messaging
  import opened Inbox
  import Net = MailboxRun

  /** What the server cannot read of an envelope. */
  datatype Body =
    | Chat(frame: Frame<Plaintext>, x3dh: Option<Handshake>, x3dhSealed: Option<SealedBox>)
    | OfGroup(groupId: string, message: GroupMessage<Payload>)
    | ReceiptBody(rid: string)

  /** A frame as the device sees it. */
  datatype Wire = Single(message: MessageFrame) | ToGroup(groupMessage: GroupFrame) | Note(noteId: string)

  /**
   `bodies` are the contents envelopes stand for; `noted` the receipts acknowledged, `decided` the
   frames the device decided on.
   */
  datatype Link = Link(net: Net.Net, device: Device, bodies: seq<Body>, noted: set<string>, decided: set<Wire>)

  /** Either side moves on its own; the device is the only one to acknowledge. */
  datatype Event = AtServer(ev: Net.Event) | AtDevice(arrival: Arrival) | ReceiptAtDevice(id: string)

  /** The frame an envelope is delivered as. */
  function WireOf(bodies: seq<Body>, e: Envelope): Option<Wire> {
    if e.content >= |bodies| || IdOf(e).None? then None
    else
      var id := IdOf(e).value;
      match bodies[e.content]
      case Chat(frame, x3dh, box) =>
        Some(Single(if e.Stamped? then MessageFrame(id, Some(e.from), frame, x3dh, None, e.ts)
                    else MessageFrame(id, None, frame, None, box, OrElse(e.sealedTs, 0))))
      case OfGroup(groupId, message) =>
        if e.Stamped? then Some(ToGroup(GroupFrame(id, e.from, groupId, message, e.ts))) else None
      case ReceiptBody(_) => if e.Sealed? then Some(Note(id)) else None
  }

  // ---- what an arrival decides ----

  function WireIn(a: Arrival): Option<Wire> {
    match a
    case FromPeer(f, _) => Some(Single(f))
    case FromGroup(f) => Some(ToGroup(f))
    case DeleteHere(_, _) => None
  }

  /**
   A frame seen before is only acknowledged again; a retry is left for later. Anything else is a
   decision on this frame.
   */
  predicate Decides(s: Store, a: Arrival) {
    match a
    case FromPeer(f, env) => f.id !in s.processed && !DecryptIncoming(s, f, env).result.Retry?
    case FromGroup(f) => f.id !in s.processed && !DecryptGroupMessage(s, f).result.Retry?
    case DeleteHere(_, _) => false
  }

  function Step(l: Link, ev: Event): Link {
    match ev
    case AtServer(e) => l.(net := Net.Step(l.net, e))
    case AtDevice(a) =>
      l.(device := Arrive(l.device, a),
         decided := if Decides(l.device.store, a) then l.decided + {WireIn(a).value} else l.decided)
    case ReceiptAtDevice(id) => l.(noted := l.noted + {id}, decided := l.decided + {Note(id)})
  }

  function StepAll(l: Link, evs: seq<Event>): Link
    decreases |evs|
  {
    if evs == [] then l else StepAll(Step(l, evs[0]), evs[1..])
  }

  /** No envelope is overwritten, and only what the device dealt with is acknowledged. */
  ghost predicate Allowed(l: Link, ev: Event) {
    ev.AtServer? ==>
      && Net.Allowed(l.net, ev.ev) && !Net.Clashes(l.net, ev.ev)
      && (ev.ev.AckOf? ==> ev.ev.id in l.device.acked + l.noted)
  }

  ghost predicate AllowedAll(l: Link, evs: seq<Event>)
    decreases |evs|
  {
    evs == [] || (Allowed(l, evs[0]) && AllowedAll(Step(l, evs[0]), evs[1..]))
  }

  function Begin(clock: int, d: Device, bodies: seq<Body>): Link {
    Link(Net.Empty(clock), d, bodies, {}, {})
  }

  // ---- what an arrival marks ----

  /** The ids a frame can mark as processed: its own, and the receipt id inside a wrapped message. */
  function Names(a: Arrival): set<string> {
    match a
    case FromPeer(f, _) =>
      var b := f.frame.body;
      {f.id} + (if b.SealedBody? && b.plain.Wrapped? then {b.plain.rid} else {})
    case FromGroup(f) => {f.id}
    case DeleteHere(_, _) => {}
  }

  lemma PlainIsBody<P>(st: Session, f: Frame<P>, ad: AssocData, maxSkip: nat, newKey: nat)
    ensures var d := TryDecrypt(st, f, ad, maxSkip, newKey);
            d.outcome.Plain? ==> f.body.SealedBody? && d.outcome.plain == f.body.plain
  {
  }

  ghost predicate MarksOnly(s: Store, f: MessageFrame, env: Env, r: Resolved) {
    match r
    case Settled(_, s') => s'.processed <= s.processed + Names(FromPeer(f, env))
    case Read(d, s') => s'.processed <= s.processed && (d.rid.Some? ==> d.rid.value in Names(FromPeer(f, env)))
  }

  lemma StampedMarks(s: Store, contact: string, f: MessageFrame, env: Env)
    ensures MarksOnly(s, f, env, ResolveStamped(s, contact, f, env))
  {
  }

  lemma {:induction false} SealedMarks(s: Store, order: seq<string>, f: MessageFrame, env: Env)
    ensures MarksOnly(s, f, env, ResolveSealed(s, order, f, env))
    decreases |order|
  {
    if order != [] {
      SealedMarks(s, order[1..], f, env);
    }
  }

  lemma VetMarks(s: Store, h: Handshake, d: Decrypted<Plaintext>, f: MessageFrame, env: Env)
    requires d.outcome.Plain? ==> f.frame.body.SealedBody? && d.outcome.plain == f.frame.body.plain
    ensures MarksOnly(s, f, env, VetFirstContact(s, h, d, f, env.claimed))
  {
  }

  lemma FirstContactMarks(s: Store, box: SealedBox, f: MessageFrame, env: Env)
    ensures MarksOnly(s, f, env, ResolveFirstContact(s, box, f, env))
  {
    if box.SealedBox? && box.recipient == Point(s.me.dh) && box.handshake.Some? {
      var h := box.handshake.value;
      var agreed := Respond(s.me, s.signedPreKey, None, h.identity.dh, h.ephemeral);
      PlainIsBody(InitResponder(agreed.secret, s.signedPreKey), f.frame, agreed.ad, DEFAULT_MAX_SKIP, env.newKey);
      VetMarks(s, h, RespondTo(s, h, None, f, env.newKey), f, env);
    }
  }

  lemma ResolveMarks(s: Store, f: MessageFrame, env: Env)
    ensures MarksOnly(s, f, env, Resolve(s, f, env))
  {
    match f.from
    case Some(contact) => StampedMarks(s, contact, f, env);
    case None =>
      match f.x3dhSealed
      case Some(box) => FirstContactMarks(s, box, f, env);
      case None => SealedMarks(s, env.order, f, env);
  }

  lemma ApplyMarks(s: Store, f: MessageFrame, d: Delivery)
    ensures Apply(s, f, d).store.processed == s.processed + {f.id}
  {
    var p := d.plain.payload;
    if !p.Text? && !p.Media? {
      ControlTouches(s, d.contact, p);
    }
  }

  lemma ArriveMarks(d: Device, a: Arrival)
    ensures d.store.processed <= Arrive(d, a).store.processed <= d.store.processed + Names(a)
  {
    match a
    case FromPeer(f, env) =>
      ReceivesOnce(d.store, f, env);
      ResolveMarks(d.store, f, env);
      if f.id !in d.store.processed {
        match Resolve(d.store, f, env)
        case Settled(_, _) =>
        case Read(x, s') =>
          CommitTouches(s', x);
          ApplyMarks(Commit(s', x), f, x);
      }
    case FromGroup(f) => GroupReceivesOnce(d.store, f);
    case DeleteHere(_, _) =>
  }

  // ---- every run ----

  ghost predicate Dealt(l: Link, e: Entry) {
    IdOf(e.envelope).Some? && IdOf(e.envelope).value in l.device.acked + l.noted
  }

  ghost predicate LinkOk(l: Link) {
    && Net.NetOk(l.net) && Net.Balanced(l.net) && Idempotent(l.device)
    && forall e :: e in l.net.ledger.acked ==> Dealt(l, e)
  }

  lemma ServerKeepsAcked(n: Net.Net, ev: Net.Event, e: Entry)
    requires e in Net.Step(n, ev).ledger.acked
    ensures e in n.ledger.acked || (ev.AckOf? && IdOf(e.envelope) == Some(ev.id))
  {
  }

  lemma StepKeeps(l: Link, ev: Event)
    requires LinkOk(l) && Allowed(l, ev)
    ensures LinkOk(Step(l, ev))
  {
    match ev
    case AtServer(x) =>
      Net.StepKeeps(l.net, x);
      Net.StepBalanced(l.net, x);
      forall e | e in Step(l, ev).net.ledger.acked ensures Dealt(Step(l, ev), e) {
        ServerKeepsAcked(l.net, x, e);
      }
    case AtDevice(a) => ArriveKeeps(l.device, a);
    case ReceiptAtDevice(_) =>
  }

  /** Everything that bears the id is this very frame. */
  predicate Sole(ev: Event, id: string, wire: Wire) {
    match ev
    case AtServer(_) => true
    case AtDevice(a) => id in Names(a) ==> WireIn(a) == Some(wire)
    case ReceiptAtDevice(noteId) => noteId == id ==> wire == Note(id)
  }

  function WireId(w: Wire): string {
    match w
    case Single(f) => f.id
    case ToGroup(f) => f.id
    case Note(id) => id
  }

  /** Whatever speaks for the id, the frame was decided on. */
  ghost predicate Decided(l: Link, id: string, wire: Wire) {
    id in l.device.store.processed + l.device.acked + l.noted ==> wire in l.decided
  }

  lemma DecidesStep(l: Link, ev: Event, id: string, wire: Wire)
    requires Decided(l, id, wire) && Sole(ev, id, wire) && WireId(wire) == id
    ensures Decided(Step(l, ev), id, wire)
  {
    match ev
    case AtDevice(a) =>
      ArriveMarks(l.device, a);
      match a {
        case FromPeer(f, env) => ReceivesOnce(l.device.store, f, env);
        case FromGroup(f) => GroupReceivesOnce(l.device.store, f);
        case DeleteHere(_, _) =>
      }
    case _ =>
  }

  ghost predicate SoleAll(evs: seq<Event>, id: string, wire: Wire) {
    forall ev :: ev in evs ==> Sole(ev, id, wire)
  }

  lemma {:induction false} RunKeeps(l: Link, evs: seq<Event>)
    requires LinkOk(l) && AllowedAll(l, evs)
    ensures LinkOk(StepAll(l, evs))
    decreases |evs|
  {
    if evs != [] {
      StepKeeps(l, evs[0]);
      RunKeeps(Step(l, evs[0]), evs[1..]);
    }
  }

  lemma {:induction false} RunDecides(l: Link, evs: seq<Event>, id: string, wire: Wire)
    requires SoleAll(evs, id, wire) && WireId(wire) == id && Decided(l, id, wire)
    ensures Decided(StepAll(l, evs), id, wire)
    decreases |evs|
  {
    if evs != [] {
      assert evs[0] in evs;
      DecidesStep(l, evs[0], id, wire);
      RunDecides(Step(l, evs[0]), evs[1..], id, wire);
    }
  }

  /** Not acknowledged: still queued, or outlived its time, or gone with the account. */
  ghost predicate Unacknowledged(l: Link, e: Entry) {
    e in l.net.box.queue || e in l.net.ledger.swept || e in l.net.ledger.purged
  }

  /**
   In every run, each envelope the mailbox ever accepted is still queued, or outlived its time, or
   went with the account, or was acknowledged after the device dealt with something under its id;
   and the device accepted no message twice.
   */
  lemma QueuedUntilAcknowledged(clock: int, d: Device, bodies: seq<Body>, evs: seq<Event>, e: Entry)
    requires Idempotent(d) && AllowedAll(Begin(clock, d, bodies), evs)
    requires e in StepAll(Begin(clock, d, bodies), evs).net.ledger.accepted
    ensures var l := StepAll(Begin(clock, d, bodies), evs);
            && (Unacknowledged(l, e) || (e in l.net.ledger.acked && Dealt(l, e)))
            && (forall j, k :: 0 <= j < k < |l.device.accepted| ==> l.device.accepted[j] != l.device.accepted[k])
  {
    RunKeeps(Begin(clock, d, bodies), evs);
    var l := StepAll(Begin(clock, d, bodies), evs);
    assert e in multiset(l.net.box.queue) + l.net.ledger.acked + l.net.ledger.swept + l.net.ledger.purged;
  }

  /**
   End to end. When nothing else bears its id, an accepted envelope leaves the queue, other than by
   age or with the account, only after the device decided on its own frame.
   */
  lemma QueuedUntilProcessed(clock: int, d: Device, bodies: seq<Body>, evs: seq<Event>, e: Entry, wire: Wire)
    requires Idempotent(d) && AllowedAll(Begin(clock, d, bodies), evs)
    requires e in StepAll(Begin(clock, d, bodies), evs).net.ledger.accepted && WireOf(bodies, e.envelope) == Some(wire)
    requires WireId(wire) !in d.store.processed && SoleAll(evs, WireId(wire), wire)
    ensures var l := StepAll(Begin(clock, d, bodies), evs);
            Unacknowledged(l, e) || wire in l.decided
  {
    QueuedUntilAcknowledged(clock, d, bodies, evs, e);
    RunDecides(Begin(clock, d, bodies), evs, WireId(wire), wire);
  }

  // ---- two senders, one id ----

  /** Nothing but a header nobody can read, with a handshake. */
  function Junk(h: Handshake): Body {
    Chat(Frame(JunkHeader(0), JunkBody(0)), Some(h), None)
  }

  lemma JunkFails(s: Store, from: string, id: string, h: Handshake, ts: int, env: Env)
    requires id !in s.processed && from !in s.sessions
    ensures DecryptIncoming(s, MessageFrame(id, Some(from), Frame(JunkHeader(0), JunkBody(0)), Some(h), None, ts),
                            env).result.Failed?
  {
  }

  lemma AckRemovesOne(n: Net.Net, id: string)
    requires Ordered(n.box.queue) && n.box.queue != [] && forall e :: e in n.box.queue ==> IdOf(e.envelope) == Some(id)
    ensures var n' := Net.HandleAck(n, id);
            && |n'.box.queue| == |n.box.queue| - 1 && Ordered(n'.box.queue)
            && (forall e :: e in n'.box.queue ==> e in n.box.queue)
            && n'.ledger == n.ledger.(acked := n'.ledger.acked)
  {
    var q := n.box.queue;
    assert q[0] in q;
    var k := FirstWithId(q, id).value;
    RemoveOne(q, k);
    RemoveKeepsOrder(q, q[k].key);
  }

  /** Two senders' envelopes under one id, queued in this order. */
  function BothQueued(clock: int, d: Device, bodies: seq<Body>, other: string, from: string, id: string): Link {
    var l := Begin(clock, d, bodies);
    Step(Step(l, AtServer(Net.SendTo(other, id, 0, 0, false))), AtServer(Net.SendTo(from, id, 0, 1, false)))
  }

  lemma BothAreQueued(clock: int, d: Device, bodies: seq<Body>, other: string, from: string, id: string)
    requires other != from && ColonFree(other) && ColonFree(from)
    ensures var l := BothQueued(clock, d, bodies, other, from, id);
            && |l.net.box.queue| == 2 && Ordered(l.net.box.queue)
            && (forall e :: e in l.net.box.queue ==> IdOf(e.envelope) == Some(id))
            && Entry(StampedKey(from, 0, id), Stamped(from, 0, id, Floor(clock), 0, 1)) in l.net.ledger.accepted
            && l.net.ledger.swept == l.net.ledger.purged == multiset{}
            && l.device == d && l.decided == {} && l.noted == {}
  {
    var a := Entry(StampedKey(other, 0, id), Stamped(other, 0, id, Floor(clock), 0, 0));
    var b := Entry(StampedKey(from, 0, id), Stamped(from, 0, id, Floor(clock), 0, 1));
    if a.key == b.key {
      StampedInjective(other, 0, id, from, 0, id);
    }
    var l := BothQueued(clock, d, bodies, other, from, id);
    assert Insert([], a) == [a] && Insert([a], b) == l.net.box.queue;
    InsertKeepsOrder([a], b);
    InsertAdds([a], b);
  }

  lemma TwoAcks(l: Link, id: string)
    requires |l.net.box.queue| == 2 && Ordered(l.net.box.queue)
    requires forall e :: e in l.net.box.queue ==> IdOf(e.envelope) == Some(id)
    ensures var end := Step(Step(l, AtServer(Net.AckOf(id))), AtServer(Net.AckOf(id)));
            && end.net.box.queue == [] && end.decided == l.decided
            && end.net.ledger == l.net.ledger.(acked := end.net.ledger.acked)
  {
    AckRemovesOne(l.net, id);
    AckRemovesOne(Net.HandleAck(l.net, id), id);
  }

  /** The device decides on the first frame and takes the second for a duplicate. */
  lemma SecondIsDuplicate(l: Link, first: MessageFrame, second: MessageFrame, env: Env)
    requires first.id == second.id && first.id !in l.device.store.processed && l.decided == {}
    requires DecryptIncoming(l.device.store, first, env).result.Failed?
    ensures var end := Step(Step(l, AtDevice(FromPeer(first, env))), AtDevice(FromPeer(second, env)));
            end.net == l.net && end.noted == l.noted && first.id in end.device.acked && end.decided == {Single(first)}
  {
    ReceivesOnce(l.device.store, first, env);
    var one := Step(l, AtDevice(FromPeer(first, env)));
    ReceivesOnce(one.device.store, second, env);
  }

  /**
   Why ids matter. Another sender's envelope under the same id is decided on and acknowledged, and
   the genuine one is a duplicate: its acknowledgement deletes it, and nobody decided on it.
   */
  lemma OneIdTwoSenders(clock: int, d: Device, other: string, from: string, id: string, h: Handshake, genuine: Body,
                        env: Env)
    requires other != from && ColonFree(other) && ColonFree(from)
    requires Idempotent(d) && id !in d.store.processed && other !in d.store.sessions && genuine.Chat?
    ensures var bodies := [Junk(h), genuine];
            var first := WireOf(bodies, Stamped(other, 0, id, Floor(clock), 0, 0)).value.message;
            var second := WireOf(bodies, Stamped(from, 0, id, Floor(clock), 0, 1)).value;
            var arrived := Step(Step(BothQueued(clock, d, bodies, other, from, id), AtDevice(FromPeer(first, env))),
                                AtDevice(FromPeer(second.message, env)));
            var end := Step(Step(arrived, AtServer(Net.AckOf(id))), AtServer(Net.AckOf(id)));
            && id in arrived.device.acked && end.net.box.queue == []
            && Entry(StampedKey(from, 0, id), Stamped(from, 0, id, Floor(clock), 0, 1)) in end.net.ledger.accepted
            && end.net.ledger.swept == end.net.ledger.purged == multiset{} && second !in end.decided
  {
    var bodies := [Junk(h), genuine];
    BothAreQueued(clock, d, bodies, other, from, id);
    JunkFails(d.store, other, id, h, Floor(clock), env);
    var both := BothQueued(clock, d, bodies, other, from, id);
    var first := WireOf(bodies, Stamped(other, 0, id, Floor(clock), 0, 0)).value.message;
    var second := WireOf(bodies, Stamped(from, 0, id, Floor(clock), 0, 1)).value;
    SecondIsDuplicate(both, first, second.message, env);
    TwoAcks(Step(Step(both, AtDevice(FromPeer(first, env))), AtDevice(FromPeer(second.message, env))), id);
  }
}
