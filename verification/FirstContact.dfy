/** The first message to somebody new, on the server-stamped and on the sealed path. */
module FirstContact {
  import opened Crypto
  import opened Ratchet
  import opened X3dh
  import opened SessionRecord
  import opened SessionSet
  import opened Messaging
  import opened Glare
  import opened GlareConvergence
  import GlareSide
  import Inbox
  import Run = RatchetRun

  /** The recipient was published to with a one-time prekey it still keeps, or with none. */
  predicate StillKept(peer: Store, d: Draw) {
    d.oneTime.Some? ==> d.oneTime.value in peer.oneTime
  }

  /** What the recipient computes from the handshake opens the first message. */
  lemma ResponderReads(s: Store, peer: Store, d: Draw, newKey: nat)
    requires peer.name !in s.sessions && StillKept(peer, d)
    ensures FirstSend(s, peer, d).Ok?
    ensures var f := FirstSend(s, peer, d).value.0;
            f.x3dh == Some(Hello(s, d)) && f.from == Some(s.name) && f.id == d.words.id && f.x3dhSealed.None?
    ensures var f := FirstSend(s, peer, d).value.0;
            var oneTime := Take(peer, Hello(s, d).oneTime).0;
            RespondTo(peer, Hello(s, d), oneTime, f, newKey).outcome == Plain(PlainOf(s, d.words))
  {
    Ensures(s, peer, d);
    Answers(peer, s, d);
    var a := Shared(s, peer, d);
    var t := Run.Terms(a.secret, a.ad, DEFAULT_MAX_SKIP);
    var w := FirstWorld(s, peer, d);
    var v := WorldBegins(s, peer, d);
    HelloReadable(v, w, t);
    ReadsLetter(v, w, t, 0, newKey);
  }

  // ---- the server-stamped path ----

  /** The handshake is answered, the prekey taken, and the message read. */
  lemma StampedResolves(s: Store, peer: Store, d: Draw, env: Env)
    requires peer.name !in s.sessions && StillKept(peer, d)
    requires s.name !in peer.sessions
    requires s.name in peer.contacts ==> peer.contacts[s.name].identity == Public(s.me)
    ensures FirstSend(s, peer, d).Ok?
    ensures var r := Resolve(peer, FirstSend(s, peer, d).value.0, env);
            && r.Read? && r.store == Take(peer, Hello(s, d).oneTime).1 && r.delivery.plain == PlainOf(s, d.words)
            && r.delivery.contact == s.name && r.delivery.place == Only && !r.delivery.keyChanged
            && r.delivery.identity == Some(Public(s.me)) && r.delivery.known == (s.name in peer.contacts)
  {
    ResponderReads(s, peer, d, env.newKey);
  }

  /**
   Whoever writes first on the stamped path is heard: the message is read as written, the sender
   becomes a contact under the identity in the handshake unless it was known already, a session
   is there to answer on, and the one-time prekey that was used is gone.
   */
  lemma StampedFirstContact(s: Store, peer: Store, d: Draw, env: Env)
    requires peer.name !in s.sessions && StillKept(peer, d)
    requires s.name !in peer.sessions && d.words.id !in peer.processed
    requires s.name in peer.contacts ==> peer.contacts[s.name].identity == Public(s.me)
    ensures FirstSend(s, peer, d).Ok?
    ensures var f := FirstSend(s, peer, d).value.0;
            var r := DecryptIncoming(peer, f, env);
            && Resolve(peer, f, env).Read? && Resolve(peer, f, env).delivery.plain == PlainOf(s, d.words)
            && (r.result.Accepted? || r.result.Control?)
            && s.name in r.store.contacts && r.store.contacts[s.name].identity == Public(s.me)
            && s.name in r.store.sessions
            && r.store.oneTime == peer.oneTime - (if d.oneTime.Some? then {d.oneTime.value} else {})
  {
    StampedResolves(s, peer, d, env);
    var f := FirstSend(s, peer, d).value.0;
    assert f.id == d.words.id by {
      ResponderReads(s, peer, d, env.newKey);
    }
    ReadsNewcomer(peer, f, env, Resolve(peer, f, env).delivery, Resolve(peer, f, env).store);
  }

  /** Whoever was read as a newcomer, or under a new identity, is kept: contact, identity and session. */
  lemma ReadsNewcomer(s: Store, f: MessageFrame, env: Env, d: Delivery, s1: Store)
    requires f.id !in s.processed && Resolve(s, f, env) == Read(d, s1)
    requires d.place == Only || d.place == Replace
    requires d.identity.Some? && d.known == (d.contact in s1.contacts)
    requires d.keyChanged <==> (d.contact in s1.contacts && s1.contacts[d.contact].identity != d.identity.value)
    ensures var r := DecryptIncoming(s, f, env);
            && (r.result.Accepted? || r.result.Control?)
            && d.contact in r.store.contacts && r.store.contacts[d.contact].identity == d.identity.value
            && d.contact in r.store.sessions && r.store.oneTime == s1.oneTime
  {
    CommitsNewcomer(s1, d);
    Inbox.CommitTouches(s1, d);
    GlareSide.ApplyKeepsSide(Commit(s1, d), f, d);
  }

  lemma TokenKeepsIdentity(s: Store, contact: string, token: string)
    ensures var s' := SaveToken(s, contact, token);
            s'.sessions == s.sessions && s'.contacts.Keys == s.contacts.Keys
            && (contact in s.contacts ==> s'.contacts[contact].identity == s.contacts[contact].identity)
  {
  }

  lemma SavesNewSession(s: Store, d: Delivery)
    requires d.place == Only || d.place == Replace
    ensures d.contact in SaveSessions(s, d).sessions && SaveSessions(s, d).contacts == s.contacts
  {
  }

  lemma SavesIdentity(s: Store, d: Delivery)
    requires d.identity.Some? && d.known == (d.contact in s.contacts)
    requires d.keyChanged <==> (d.contact in s.contacts && s.contacts[d.contact].identity != d.identity.value)
    ensures var s' := SaveContact(s, d);
            d.contact in s'.contacts && s'.contacts[d.contact].identity == d.identity.value && s'.sessions == s.sessions
  {
  }

  lemma CommitsNewcomer(s: Store, d: Delivery)
    requires d.place == Only || d.place == Replace
    requires d.identity.Some? && d.known == (d.contact in s.contacts)
    requires d.keyChanged <==> (d.contact in s.contacts && s.contacts[d.contact].identity != d.identity.value)
    ensures d.contact in Commit(s, d).sessions
    ensures d.contact in Commit(s, d).contacts && Commit(s, d).contacts[d.contact].identity == d.identity.value
  {
    SavesNewSession(s, d);
    var s1 := SaveSessions(s, d);
    var s2 := if d.rid.Some? then Mark(s1, d.rid.value) else s1;
    SavesIdentity(s2, d);
    if d.token.Some? {
      TokenKeepsIdentity(SaveContact(s2, d), d.contact, d.token.value);
    }
  }

  // ---- the sealed path ----

  /** The envelope the gateway relays: no sender, and the handshake sealed to the recipient's identity. */
  function SealedEnvelope(f: MessageFrame, recipient: Point): MessageFrame {
    f.(from := None, x3dh := None, x3dhSealed := Some(SealedBox(recipient, f.x3dh)))
  }

  /**
   A sealed first contact, case by case. The claimed name is believed exactly when its published
   identity is the one the handshake proves: then the message is read and the sender kept. A bundle
   that cannot be had leaves everything for a retry. Any other identity is dropped silently: no
   contact, no session, no message.
   */
  lemma SealedFirstContact(s: Store, peer: Store, d: Draw, env: Env)
    requires peer.name !in s.sessions && d.oneTime.None? && s.name != "" && |s.name| <= USERNAME_MAX_LENGTH
    requires d.words.id !in peer.processed && PlainOf(s, d.words).rid !in peer.processed
    requires s.name !in peer.sessions || IdentityDiffers(peer, s.name, Some(Public(s.me)))
    ensures FirstSend(s, peer, d).Ok?
    ensures var f := SealedEnvelope(FirstSend(s, peer, d).value.0, Point(peer.me.dh));
            var r := DecryptIncoming(peer, f, env);
            if !env.claimed.Found? then r == Received(Retry, peer)
            else if env.claimed.bundle.identity == Public(s.me) then
              && Resolve(peer, f, env).Read? && Resolve(peer, f, env).delivery.plain == PlainOf(s, d.words)
              && (r.result.Accepted? || r.result.Control?)
              && s.name in r.store.contacts && r.store.contacts[s.name].identity == Public(s.me)
              && s.name in r.store.sessions
            else r == Received(Control(false, NoEffect), Mark(Mark(peer, d.words.id), PlainOf(s, d.words).rid))
  {
    ResponderReads(s, peer, d, env.newKey);
    var f := SealedEnvelope(FirstSend(s, peer, d).value.0, Point(peer.me.dh));
    SealedOpens(peer, Hello(s, d), f, FirstSend(s, peer, d).value.0, env.newKey);
    if env.claimed.Found? && env.claimed.bundle.identity == Public(s.me) {
      ReadsNewcomer(peer, f, env, Resolve(peer, f, env).delivery, peer);
    }
  }

  /** Sealing the handshake changes nothing the ratchet sees. */
  lemma SealedOpens(peer: Store, h: Handshake, f: MessageFrame, g: MessageFrame, newKey: nat)
    requires f.frame == g.frame
    ensures RespondTo(peer, h, None, f, newKey) == RespondTo(peer, h, None, g, newKey)
  {
  }
}
