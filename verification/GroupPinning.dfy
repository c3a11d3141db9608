/** Who may change a group: its name and creator are pinned, its roster belongs to the creator. */
module GroupPinning {
  import opened Crypto
  import opened Ratchet
  import opened SessionRecord
  import opened SessionSet
  import opened Messaging
  import opened Inbox

  // ---- who a message is from ----

  /** A session kept for the contact read it. */
  ghost predicate ReadByHeld(s: Store, f: MessageFrame, d: Delivery, env: Env) {
    && LoadSet(s, d.contact).Some?
    && var held := LoadSet(s, d.contact).value.sessions;
       exists k :: 0 <= k < |held| && Try(held[k], f.frame, DEFAULT_MAX_SKIP, env.newKey).outcome == Plain(d.plain)
  }

  /** Answering the handshake with this one-time secret, or with none, reads it. */
  predicate ReadByHandshake(s: Store, h: Handshake, oneTime: Option<nat>, f: MessageFrame, d: Delivery, env: Env) {
    RespondTo(s, h, oneTime, f, env.newKey).outcome == Plain(d.plain)
  }

  /** The stamped handshake is answered with the one-time prekey it names, taken from the store. */
  predicate ReadByStampedHandshake(s: Store, f: MessageFrame, d: Delivery, env: Env) {
    f.x3dh.Some? && ReadByHandshake(s, f.x3dh.value, Take(s, f.x3dh.value.oneTime).0, f, d, env)
  }

  /**
   The sender is who the server stamped, and its session or handshake reads the message; or,
   without a stamp, the holder of a stored session; or the claimed name whose published
   identity is the one in the handshake.
   */
  ghost predicate Authenticated(s: Store, f: MessageFrame, d: Delivery, env: Env) {
    match f.from
    case Some(from) =>
      && d.contact == from
      && (ReadByHeld(s, f, d, env) || ReadByStampedHandshake(s, f, d, env))
    case None =>
      match f.x3dhSealed
      case None => ReadByHeld(s, f, d, env)
      case Some(box) =>
        && box.SealedBox? && box.handshake.Some?
        && ReadByHandshake(s, box.handshake.value, None, f, d, env)
        && d.plain.Wrapped? && d.plain.su == d.contact
        && env.claimed.Found? && env.claimed.bundle.identity == box.handshake.value.identity
  }

  lemma {:induction false} SealedSpeaker(s: Store, order: seq<string>, f: MessageFrame, env: Env)
    ensures var r := ResolveSealed(s, order, f, env);
            r.Read? ==> ReadByHeld(s, f, r.delivery, env)
    decreases |order|
  {
    if order != [] {
      SealedSpeaker(s, order[1..], f, env);
    }
  }

  lemma StampedSpeaker(s: Store, contact: string, f: MessageFrame, env: Env)
    ensures var r := ResolveStamped(s, contact, f, env);
            r.Read? ==>
              && r.delivery.contact == contact
              && (ReadByHeld(s, f, r.delivery, env) || ReadByStampedHandshake(s, f, r.delivery, env))
  {
  }

  lemma FirstContactSpeaker(s: Store, h: Handshake, d: Decrypted<Plaintext>, f: MessageFrame, claimed: Lookup)
    ensures var r := VetFirstContact(s, h, d, f, claimed);
            r.Read? ==>
              && d.outcome == Plain(r.delivery.plain) && r.delivery.plain.Wrapped?
              && r.delivery.plain.su == r.delivery.contact
              && claimed.Found? && claimed.bundle.identity == h.identity
  {
  }

  /** No message is taken from anybody without one of the three proofs. */
  lemma WhoSpoke(s: Store, f: MessageFrame, env: Env)
    ensures var r := Resolve(s, f, env);
            r.Read? ==> Authenticated(s, f, r.delivery, env)
  {
    match f.from
    case Some(contact) => StampedSpeaker(s, contact, f, env);
    case None =>
      match f.x3dhSealed
      case None => SealedSpeaker(s, env.order, f, env);
      case Some(box) =>
        if box.SealedBox? && box.handshake.Some? {
          var h := box.handshake.value;
          FirstContactSpeaker(s, h, RespondTo(s, h, None, f, env.newKey), f, env.claimed);
        }
  }

  // ---- what one payload may do to a group ----

  ghost predicate SamePin(g: Group, g': Group) {
    g.name == g'.name && g.creator == g'.creator
  }

  /** The group is as it was, or its creator said otherwise: a new roster, or our own removal. */
  ghost predicate Governed(s: Store, groups: map<string, Group>, id: string, contact: string, p: Payload)
    requires id in s.groups
  {
    || (id in groups && groups[id] == s.groups[id])
    || (&& contact == s.groups[id].creator && p.Membership? && p.groupId == id
        && (if id in groups then SamePin(s.groups[id], groups[id]) && groups[id].members == p.group.members
            else p.action.RemoveMember? && p.target == s.name))
  }

  /** A group appears only when its creator invites us, under the name and creator it was given. */
  ghost predicate Invited(s: Store, groups: map<string, Group>, id: string, contact: string, p: Payload)
    requires id in groups
  {
    p.KeyDistribution? && p.groupId == id && contact == p.group.creator && s.name in p.group.members
    && groups[id] == Group(p.group.name, p.group.members, p.group.creator)
  }

  lemma PayloadGoverned(s: Store, contact: string, p: Payload, id: string)
    requires !p.Text? && !p.Media?
    ensures var groups := ApplyControl(s, contact, p).1.groups;
            if id in s.groups then Governed(s, groups, id, contact, p)
            else id in groups ==> Invited(s, groups, id, contact, p)
  {
  }

  lemma ApplyGoverned(s: Store, f: MessageFrame, d: Delivery, id: string)
    ensures var groups := Apply(s, f, d).store.groups;
            if id in s.groups then Governed(s, groups, id, d.contact, d.plain.payload)
            else id in groups ==> Invited(s, groups, id, d.contact, d.plain.payload)
  {
    var p := d.plain.payload;
    if !p.Text? && !p.Media? {
      PayloadGoverned(s, d.contact, p, id);
    }
  }

  /**
   Creator pinning. Whatever envelope arrives, a stored group keeps its name and creator; its
   roster changes, or the group goes, only by a membership payload in a message authenticated as
   that creator; and a new group is only ever learned from the creator it names.
   */
  lemma OnlyTheCreatorGoverns(s: Store, f: MessageFrame, env: Env, id: string)
    ensures var groups := DecryptIncoming(s, f, env).store.groups;
            (if id in s.groups then id in groups && groups[id] == s.groups[id] else id !in groups)
            || exists d, s1 :: && Resolve(s, f, env) == Read(d, s1) && Authenticated(s, f, d, env)
                               && (if id in s.groups then Governed(s, groups, id, d.contact, d.plain.payload)
                                   else id in groups && Invited(s, groups, id, d.contact, d.plain.payload))
  {
    if f.id !in s.processed {
      ResolveSettles(s, f, env);
      WhoSpoke(s, f, env);
      match Resolve(s, f, env)
      case Settled(_, s1) =>
        assert s1.groups == s.groups;
      case Read(d, s1) =>
        CommitTouches(s1, d);
        assert Commit(s1, d).groups == s.groups && Commit(s1, d).name == s.name;
        ApplyGoverned(Commit(s1, d), f, d, id);
        assert Resolve(s, f, env) == Read(d, s1);
    }
  }

  lemma StepKeepsPin(d: Device, a: Arrival, id: string)
    requires id in d.store.groups
    ensures id in Arrive(d, a).store.groups ==> SamePin(d.store.groups[id], Arrive(d, a).store.groups[id])
  {
    if a.FromPeer? {
      OnlyTheCreatorGoverns(d.store, a.frame, a.env, id);
    }
  }

  /** The group is stored all along the run. */
  ghost predicate Present(d: Device, arrivals: seq<Arrival>, id: string)
    decreases |arrivals|
  {
    id in d.store.groups && (arrivals == [] || Present(Arrive(d, arrivals[0]), arrivals[1..], id))
  }

  /** Over every run, until it is deleted, a group's name and creator never change. */
  lemma {:induction false} PinnedForGood(d: Device, arrivals: seq<Arrival>, id: string)
    requires Present(d, arrivals, id)
    ensures id in ArriveAll(d, arrivals).store.groups
    ensures SamePin(d.store.groups[id], ArriveAll(d, arrivals).store.groups[id])
    decreases |arrivals|
  {
    if arrivals != [] {
      StepKeepsPin(d, arrivals[0], id);
      PinnedForGood(Arrive(d, arrivals[0]), arrivals[1..], id);
    }
  }

  // ---- the sealed first contact ----

  /** The claimed sender has the identity it had when the session was made. */
  ghost predicate KnownAndSettled(s: Store, contact: string, h: Handshake) {
    contact in s.sessions && (contact in s.contacts ==> s.contacts[contact].identity == h.identity)
  }

  lemma {:induction false} ProcessedForGood(d: Device, arrivals: seq<Arrival>, id: string)
    requires id in d.store.processed
    ensures id in ArriveAll(d, arrivals).store.processed
    decreases |arrivals|
  {
    if arrivals != [] {
      match arrivals[0] {
        case FromPeer(f, env) => ReceivesOnce(d.store, f, env);
        case FromGroup(f) => GroupReceivesOnce(d.store, f);
        case DeleteHere(_, _) =>
      }
      ProcessedForGood(Arrive(d, arrivals[0]), arrivals[1..], id);
    }
  }

  /**
   Why glare converges on the stamped path only: a sealed first contact from somebody we already
   have a session with is dropped as a duplicate. No session changes, and however often it is
   redelivered, in whatever later state, its message is never read.
   */
  lemma SealedGlareIsDropped(d: Device, f: MessageFrame, env: Env, later: seq<Arrival>, env': Env)
    requires f.from.None? && f.x3dhSealed.Some? && f.id !in d.store.processed
    requires var box := f.x3dhSealed.value;
             box.SealedBox? && box.recipient == Point(d.store.me.dh) && box.handshake.Some?
    requires var h := f.x3dhSealed.value.handshake.value;
             var plain := RespondTo(d.store, h, None, f, env.newKey).outcome;
             plain.Plain? && plain.plain.Wrapped? && plain.plain.su != "" && KnownAndSettled(d.store, plain.plain.su, h)
    ensures DecryptIncoming(d.store, f, env) == Received(Duplicate, Mark(d.store, f.id))
    ensures DecryptIncoming(ArriveAll(Arrive(d, FromPeer(f, env)), later).store, f, env').result == Duplicate
  {
    ProcessedForGood(Arrive(d, FromPeer(f, env)), later, f.id);
  }
}
