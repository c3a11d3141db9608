/**
 Handling one inbound envelope: who sent it, which session reads it, what is written to the
 keystore and in which order. The functions here say what a whole call does; the class in
 `Client` does it step by step.
 */
module Messaging {
  import opened Crypto
  import opened Ratchet
  import opened X3dh
  import opened SenderKey
  import opened SessionRecord
  import opened SessionSet

  // ---- what travels inside a ratchet message ----

  datatype GroupInfo = GroupInfo(name: string, members: seq<string>, creator: string)

  datatype Action = AddMember | RemoveMember

  datatype Payload =
    | Text(text: string, sentAt: Option<int>, expiresIn: nat, replyTo: Option<string>)
    | Media(media: string, caption: Option<string>, sentAt: Option<int>, expiresIn: nat, replyTo: Option<string>)
    | Timer(seconds: nat)
    | KeyDistribution(groupId: string, sender: string, group: GroupInfo, distribution: Distribution)
    | Membership(groupId: string, group: GroupInfo, action: Action, target: string)
    | Delete(targetId: string)
    | DeliveryToken(token: string)

  /** `Wrapped` carries the sender's claimed name, its delivery token and a receipt id beside the payload. */
  datatype Plaintext = Wrapped(su: string, st: string, rid: string, payload: Payload) | Bare(payload: Payload)

  const SEAL_TOKEN_LENGTH: nat := 32
  const USERNAME_MAX_LENGTH: nat := 32
  const NO_SEAL_TOKEN: string := "00000000000000000000000000000000"

  function Wrap(su: string, st: string, rid: string, p: Payload): Plaintext {
    Wrapped(if |su| <= USERNAME_MAX_LENGTH then su else "",
            if |st| == SEAL_TOKEN_LENGTH then st else NO_SEAL_TOKEN,
            if |rid| == SEAL_TOKEN_LENGTH then rid else NO_SEAL_TOKEN, p)
  }

  // ---- frames ----

  datatype Handshake = Handshake(identity: PublicIdentity, ephemeral: Point, oneTime: Option<Point>)

  /** A box opens only for the identity it was sealed to; what is inside may not parse. */
  datatype SealedBox = SealedBox(recipient: Point, handshake: Option<Handshake>) | JunkBox(bytes: nat)

  datatype MessageFrame = MessageFrame(
    id: string,
    from: Option<string>,
    frame: Frame<Plaintext>,
    x3dh: Option<Handshake>,
    x3dhSealed: Option<SealedBox>,
    ts: int)

  datatype GroupFrame = GroupFrame(id: string, from: string, groupId: string, message: GroupMessage<Payload>, ts: int)

  // ---- the keystore ----

  datatype Contact = Contact(identity: PublicIdentity, verified: bool, keyChangeUnacknowledged: bool, timer: nat,
                             token: Option<string>)

  datatype Message = Message(
    id: string,
    from: string,
    text: string,
    ts: int,
    expiresAt: Option<int>,
    media: Option<string>,
    replyTo: Option<string>,
    deleted: bool)

  datatype Group = Group(name: string, members: seq<string>, creator: string)

  datatype Conversation = Direct(contact: string) | InGroup(groupId: string)

  datatype ReceiverId = ReceiverId(groupId: string, sender: string)

  /** Everything the client keeps on the device for one user. */
  datatype Store = Store(
    name: string,
    me: Identity,
    signedPreKey: nat,
    oneTime: set<nat>,
    contacts: map<string, Contact>,
    sessions: map<string, Blob<Held>>,
    processed: set<string>,
    history: map<Conversation, seq<Message>>,
    groups: map<string, Group>,
    ownKeys: map<string, Sender>,
    receivers: map<ReceiverId, Receiver>)

  /** Answers from outside: the order in which stored contacts are listed, a bundle, a fresh key. */
  datatype Env = Env(order: seq<string>, claimed: Lookup, newKey: nat)

  datatype Lookup = Found(bundle: Bundle, token: Option<string>) | NotFound | NotPublished

  // ---- results ----

  datatype Receipt = Receipt(sender: string, st: string, rid: string)

  datatype Effect =
    | NoEffect
    | LearnedKey(groupId: string, sender: string)
    | MembershipChange(groupId: string, action: Action, target: string, removedMe: bool)
    | Tombstoned(contact: string, messageId: string)

  datatype Incoming =
    | Accepted(message: Message, keyChanged: bool, receipt: Option<Receipt>)
    | Control(keyChanged: bool, effect: Effect)
    | Duplicate
    | Retry
    | Failed

  datatype Received = Received(result: Incoming, store: Store)

  // ---- keystore operations ----

  function Mark(s: Store, id: string): Store {
    s.(processed := s.processed + {id})
  }

  function LoadBlob(s: Store, contact: string): Option<Blob<Held>> {
    if contact in s.sessions then Some(s.sessions[contact]) else None
  }

  function LoadSet(s: Store, contact: string): Option<Record<Held>> {
    if contact in s.sessions then Normalize(s.sessions[contact]) else None
  }

  /** Looking up a one-time prekey secret also removes it for good. */
  function Take(s: Store, oneTime: Option<Point>): (Option<nat>, Store) {
    if oneTime.Some? && oneTime.value.owner in s.oneTime
    then (Some(oneTime.value.owner), s.(oneTime := s.oneTime - {oneTime.value.owner}))
    else (None, s)
  }

  function NewContact(identity: PublicIdentity, keyChange: bool): Contact {
    Contact(identity, false, keyChange, 0, None)
  }

  /** No effect for an unknown contact. */
  function SaveToken(s: Store, contact: string, token: string): Store {
    if contact !in s.contacts then s
    else s.(contacts := s.contacts[contact := s.contacts[contact].(token := Some(token))])
  }

  /** No effect for an unknown contact. */
  function SaveTimer(s: Store, contact: string, seconds: nat): Store {
    if contact in s.contacts then s.(contacts := s.contacts[contact := s.contacts[contact].(timer := seconds)]) else s
  }

  function Messages(s: Store, c: Conversation): seq<Message> {
    if c in s.history then s.history[c] else []
  }

  function Append(s: Store, c: Conversation, m: Message): Store {
    s.(history := s.history[c := Messages(s, c) + [m]])
  }

  function FindMessage(h: seq<Message>, id: string): (r: Option<nat>)
    ensures r.Some? ==> r.value < |h| && h[r.value].id == id && forall j :: 0 <= j < r.value ==> h[j].id != id
    ensures r.None? ==> forall j :: 0 <= j < |h| ==> h[j].id != id
  {
    if h == [] then None
    else if h[0].id == id then Some(0)
    else
      match FindMessage(h[1..], id)
      case None => None
      case Some(k) => Some(k + 1)
  }

  function Tombstone(m: Message): Message {
    m.(deleted := true, text := "", media := None, replyTo := None)
  }

  function DropReceivers(receivers: map<ReceiverId, Receiver>, groupId: string): map<ReceiverId, Receiver> {
    map k | k in receivers && k.groupId != groupId :: receivers[k]
  }

  function DeleteGroup(s: Store, groupId: string): Store {
    s.(groups := s.groups - {groupId}, ownKeys := s.ownKeys - {groupId},
       receivers := DropReceivers(s.receivers, groupId))
  }

  // ---- reading the message ----

  /** What to do with the session that read the message. */
  datatype Place = Replace | Adopt(makeCurrent: bool) | AtIndex(index: nat) | Only

  datatype Delivery = Delivery(
    contact: string,
    plain: Plaintext,
    session: Held,
    place: Place,
    keyChanged: bool,
    identity: Option<PublicIdentity>,
    known: bool,
    rid: Option<string>,
    token: Option<string>)

  /** Either the call is over, or a message was read and nothing but a one-time prekey is gone. */
  datatype Resolved = Settled(result: Incoming, store: Store) | Read(delivery: Delivery, store: Store)

  /** What the catch clause does. */
  function Throws(s: Store, f: MessageFrame): Resolved {
    Settled(Failed, Mark(s, f.id))
  }

  predicate IdentityDiffers(s: Store, contact: string, identity: Option<PublicIdentity>) {
    contact in s.contacts && identity.Some? && s.contacts[contact].identity != identity.value
  }

  /** The responder's side of a handshake, and the first message read with it. */
  function RespondTo(s: Store, h: Handshake, oneTime: Option<nat>, f: MessageFrame, newKey: nat): Decrypted<Plaintext> {
    var agreed := Respond(s.me, s.signedPreKey, oneTime, h.identity.dh, h.ephemeral);
    TryDecrypt(InitResponder(agreed.secret, s.signedPreKey), f.frame, agreed.ad, DEFAULT_MAX_SKIP, newKey)
  }

  function ResponderAd(s: Store, h: Handshake): AssocData {
    AssocData(h.identity.dh, Point(s.me.dh))
  }

  /** A server-stamped sender: try its sessions, then its handshake. */
  function ResolveStamped(s: Store, contact: string, f: MessageFrame, env: Env): Resolved {
    var identity := if f.x3dh.Some? then Some(f.x3dh.value.identity) else None;
    var known := contact in s.contacts;
    var keyChanged := IdentityDiffers(s, contact, identity);
    var held := if keyChanged then None else LoadSet(s, contact);
    match (if held.Some? then TrialDecrypt(held.value.sessions, f.frame, DEFAULT_MAX_SKIP, env.newKey) else NoneMatched)
    case Broken(_) => Throws(s, f)
    case Matched(k, p) =>
      var h := held.value.sessions[k];
      Read(Delivery(contact, p, Held(Try(h, f.frame, DEFAULT_MAX_SKIP, env.newKey).next, h.ad), AtIndex(k),
                    keyChanged, identity, known, None, None), s)
    case NoneMatched =>
      if f.x3dh.None? then Settled(Retry, s)
      else
        var (oneTime, s') := Take(s, f.x3dh.value.oneTime);
        var d := RespondTo(s, f.x3dh.value, oneTime, f, env.newKey);
        if !d.outcome.Plain? then Throws(s', f)
        else
          var place := if keyChanged then Replace
                       else if held.Some? then Adopt(!IsDesignatedInitiator(s.name, contact)) else Only;
          Read(Delivery(contact, d.outcome.plain, Held(d.next, ResponderAd(s, f.x3dh.value)), place,
                        keyChanged, identity, known, None, None), s')
  }

  /** What a sealed first contact must pass: nothing is kept until the claimed name's bundle has the same identity. */
  function VetFirstContact(s: Store, h: Handshake, d: Decrypted<Plaintext>, f: MessageFrame,
                           claimed: Lookup): Resolved {
    if !d.outcome.Plain? || !d.outcome.plain.Wrapped? || d.outcome.plain.su == "" then Throws(s, f)
    else
      var plain := d.outcome.plain;
      var contact := plain.su;
      var keyChanged := IdentityDiffers(s, contact, Some(h.identity));
      if plain.rid in s.processed then Settled(Duplicate, Mark(s, f.id))
      else if !keyChanged && contact in s.sessions then Settled(Duplicate, Mark(s, f.id))
      else if !claimed.Found? then Settled(Retry, s)
      else if claimed.bundle.identity != h.identity then
        Settled(Control(false, NoEffect), Mark(Mark(s, f.id), plain.rid))
      else
        Read(Delivery(contact, plain, Held(d.next, ResponderAd(s, h)), if keyChanged then Replace else Only,
                      keyChanged, Some(h.identity), contact in s.contacts, Some(plain.rid), claimed.token), s)
  }

  function ResolveFirstContact(s: Store, box: SealedBox, f: MessageFrame, env: Env): Resolved {
    if !box.SealedBox? || box.recipient != Point(s.me.dh) || box.handshake.None? then Throws(s, f)
    else VetFirstContact(s, box.handshake.value, RespondTo(s, box.handshake.value, None, f, env.newKey), f, env.claimed)
  }

  /** No sender at all: the session that reads it says who it is. */
  function ResolveSealed(s: Store, order: seq<string>, f: MessageFrame, env: Env): Resolved
    decreases |order|
  {
    if order == [] then Settled(Retry, s)
    else
      var contact := order[0];
      match LoadSet(s, contact)
      case None => ResolveSealed(s, order[1..], f, env)
      case Some(held) =>
        match TrialDecrypt(held.sessions, f.frame, DEFAULT_MAX_SKIP, env.newKey)
        case Broken(_) => Throws(s, f)
        case NoneMatched => ResolveSealed(s, order[1..], f, env)
        case Matched(k, p) =>
          var h := held.sessions[k];
          Read(Delivery(contact, p, Held(Try(h, f.frame, DEFAULT_MAX_SKIP, env.newKey).next, h.ad), AtIndex(k),
                        false, None, contact in s.contacts, None, None), s)
  }

  function Resolve(s: Store, f: MessageFrame, env: Env): Resolved {
    match f.from
    case Some(contact) => ResolveStamped(s, contact, f, env)
    case None =>
      match f.x3dhSealed
      case Some(box) => ResolveFirstContact(s, box, f, env)
      case None => ResolveSealed(s, env.order, f, env)
  }

  // ---- committing it ----

  function SaveSessions(s: Store, d: Delivery): Store {
    var b := LoadBlob(s, d.contact);
    match d.place
    case Replace => s.(sessions := s.sessions[d.contact := ReplaceAll(d.session)])
    case Adopt(makeCurrent) => s.(sessions := s.sessions[d.contact := Add(b, d.session, makeCurrent)])
    case Only => s.(sessions := s.sessions[d.contact := Save(b, d.session)])
    case AtIndex(k) =>
      match SaveAt(b, k, d.session)
      case Some(x) => s.(sessions := s.sessions[d.contact := x])
      case None => s
  }

  function SaveContact(s: Store, d: Delivery): Store {
    if d.keyChanged && d.identity.Some? then
      s.(contacts := s.contacts[d.contact := NewContact(d.identity.value, true)])
    else if !d.known && d.identity.Some? then
      s.(contacts := s.contacts[d.contact := NewContact(d.identity.value, false)])
    else s
  }

  function Commit(s: Store, d: Delivery): Store {
    var s1 := SaveSessions(s, d);
    var s2 := if d.rid.Some? then Mark(s1, d.rid.value) else s1;
    var s3 := SaveContact(s2, d);
    if d.token.Some? then SaveToken(s3, d.contact, d.token.value) else s3
  }

  // ---- applying the payload ----

  function Shown(f: MessageFrame, from: string, p: Payload): Message
    requires p.Text? || p.Media?
  {
    Message(f.id, from,
            if p.Text? then p.text else if p.caption.Some? then p.caption.value else "",
            if p.sentAt.Some? then p.sentAt.value else f.ts,
            if p.expiresIn > 0 then Some(f.ts + p.expiresIn * 1000) else None,
            if p.Media? then Some(p.media) else None,
            p.replyTo, false)
  }

  function ReceiptFor(f: MessageFrame, d: Delivery): Option<Receipt> {
    if f.from.None? && d.plain.Wrapped? && d.plain.st != NO_SEAL_TOKEN
    then Some(Receipt(d.contact, d.plain.st, d.plain.rid))
    else None
  }

  /** Only the author of a message may have it deleted. */
  function ApplyDelete(s: Store, contact: string, targetId: string): (Effect, Store) {
    var h := Messages(s, Direct(contact));
    match FindMessage(h, targetId)
    case None => (NoEffect, s)
    case Some(k) =>
      if h[k].from != contact || h[k].deleted then (NoEffect, s)
      else (Tombstoned(contact, targetId), s.(history := s.history[Direct(contact) := h[k := Tombstone(h[k])]]))
  }

  /** The first distribution pins a group's name and creator; only the creator relays keys to others. */
  function ApplyKey(s: Store, contact: string, p: Payload): (Effect, Store)
    requires p.KeyDistribution?
  {
    var refused :=
      if p.groupId in s.groups then s.groups[p.groupId].creator != s.name && contact != s.groups[p.groupId].creator
      else contact != p.group.creator || s.name !in p.group.members;
    if refused then (NoEffect, s)
    else
      var s1 := if p.groupId in s.groups then s
                else s.(groups := s.groups[p.groupId := Group(p.group.name, p.group.members, p.group.creator)]);
      var s2 := if p.sender == s.name then s1
                else s1.(receivers := s1.receivers[ReceiverId(p.groupId, p.sender) := InitReceiver(p.distribution)]);
      (LearnedKey(p.groupId, p.sender), s2)
  }

  function ApplyMembership(s: Store, contact: string, p: Payload): (Effect, Store)
    requires p.Membership?
  {
    if p.groupId !in s.groups || contact != s.groups[p.groupId].creator then (NoEffect, s)
    else if p.action.RemoveMember? && p.target == s.name then
      (MembershipChange(p.groupId, RemoveMember, p.target, true), DeleteGroup(s, p.groupId))
    else
      var g := s.groups[p.groupId];
      var s1 := s.(groups := s.groups[p.groupId := Group(g.name, p.group.members, g.creator)]);
      var s2 := if !p.action.RemoveMember? then s1
                else s1.(receivers := s1.receivers - {ReceiverId(p.groupId, p.target)});
      (MembershipChange(p.groupId, p.action, p.target, false), s2)
  }

  /** A control payload changes the keystore and is not shown. */
  function ApplyControl(s: Store, contact: string, p: Payload): (Effect, Store)
    requires !p.Text? && !p.Media?
  {
    match p
    case Timer(seconds) => (NoEffect, SaveTimer(s, contact, seconds))
    case DeliveryToken(token) => (NoEffect, SaveToken(s, contact, token))
    case Delete(targetId) => ApplyDelete(s, contact, targetId)
    case KeyDistribution(_, _, _, _) => ApplyKey(s, contact, p)
    case Membership(_, _, _, _) => ApplyMembership(s, contact, p)
  }

  function Apply(s: Store, f: MessageFrame, d: Delivery): Received {
    var p := d.plain.payload;
    if p.Text? || p.Media? then
      var m := Shown(f, d.contact, p);
      Received(Accepted(m, d.keyChanged, ReceiptFor(f, d)), Mark(Append(s, Direct(d.contact), m), f.id))
    else
      var (effect, s') := ApplyControl(s, d.contact, p);
      Received(Control(d.keyChanged, effect), Mark(s', f.id))
  }

  /** One inbound envelope, from duplicate check to processed mark. */
  function DecryptIncoming(s: Store, f: MessageFrame, env: Env): Received {
    if f.id in s.processed then Received(Duplicate, s)
    else
      match Resolve(s, f, env)
      case Settled(result, s') => Received(result, s')
      case Read(d, s') => Apply(Commit(s', d), f, d)
  }

  // ---- group content ----

  function ShownInGroup(f: GroupFrame, p: Payload): Message {
    Message(f.id, f.from,
            if p.Media? then (if p.caption.Some? then p.caption.value else "") else if p.Text? then p.text else "",
            if (p.Text? || p.Media?) && p.sentAt.Some? then p.sentAt.value else f.ts,
            None,
            if p.Media? then Some(p.media) else None,
            if p.Text? || p.Media? then p.replyTo else None, false)
  }

  function DecryptGroupMessage(s: Store, f: GroupFrame): Received {
    var from := ReceiverId(f.groupId, f.from);
    if f.id in s.processed then Received(Duplicate, s)
    else if f.groupId in s.groups && f.from !in s.groups[f.groupId].members then Received(Duplicate, Mark(s, f.id))
    else if from !in s.receivers then Received(Retry, s)
    else
      var d := GroupDecrypt(s.receivers[from], f.message, f.groupId, DEFAULT_MAX_SKIP);
      match d.outcome
      case Err(_) => Received(Failed, Mark(s, f.id))
      case Ok(p) =>
        var m := ShownInGroup(f, p);
        var s1 := s.(receivers := s.receivers[from := d.next]);
        Received(Accepted(m, false, None), Mark(Append(s1, InGroup(f.groupId), m), f.id))
  }

  // ---- sending ----

  datatype Ensured = Ensured(pending: Option<Handshake>) | NoSuchUser | NoKeys | BadBundle

  /** Learn the contact and, when there is no session yet, run the initiator's half of the handshake. */
  function EnsureSession(s: Store, contact: string, lookup: Lookup, ephemeral: nat, newKey: nat): (Ensured, Store) {
    if contact in s.sessions then (Ensured(None), s)
    else
      match lookup
      case NotFound => (NoSuchUser, s)
      case NotPublished => (NoKeys, s)
      case Found(bundle, token) =>
        match Initiate(s.me, bundle, ephemeral)
        case Err(_) => (BadBundle, s)
        case Ok(agreed) =>
          var entry := Held(InitInitiator(agreed.secret, bundle.signedPreKey, newKey), agreed.ad);
          var s1 := s.(sessions := s.sessions[contact := Save(LoadBlob(s, contact), entry)],
                       contacts := s.contacts[contact := NewContact(bundle.identity, false)]);
          var s2 := if token.Some? then SaveToken(s1, contact, token.value) else s1;
          (Ensured(Some(Handshake(Public(s.me), Point(ephemeral), bundle.oneTime))), s2)
  }

  datatype SendError = NoSession | CannotEncrypt

  /** Encrypt on the current session and save it; the server stamps the sender and the time. */
  function EncryptForSend(s: Store, contact: string, id: string, p: Payload, pending: Option<Handshake>,
                          token: string, rid: string, nonce: nat, ts: int): Result<(MessageFrame, Store), SendError> {
    match LoadSet(s, contact)
    case None => Err(NoSession)
    case Some(record) =>
      var h := record.sessions[record.current];
      match Encrypt(h.ratchet, Wrap(s.name, token, rid, p), h.ad, nonce)
      case Err(_) => Err(CannotEncrypt)
      case Ok(x) =>
        Ok((MessageFrame(id, Some(s.name), x.frame, pending, None, ts),
            s.(sessions := s.sessions[contact := Save(LoadBlob(s, contact), Held(x.next, h.ad))])))
  }
}
