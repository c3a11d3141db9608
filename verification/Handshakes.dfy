/** What becomes of a message that brings a handshake, on the stamped and on the sealed path, branch by branch. */
module Handshakes {
  import opened Crypto
  import opened Ratchet
  import opened X3dh
  import opened SessionRecord
  import opened SessionSet
  import opened Messaging
  import opened Reading
  import Inbox

  /** The responder's session for the handshake, and what it makes of the frame. */
  function Answer(s: Store, h: Handshake, oneTime: Option<nat>, f: MessageFrame, env: Env): Decrypted<Plaintext> {
    var agreed := Respond(s.me, s.signedPreKey, oneTime, h.identity.dh, h.ephemeral);
    TryDecrypt(InitResponder(agreed.secret, s.signedPreKey), f.frame, agreed.ad, DEFAULT_MAX_SKIP, env.newKey)
  }

  /** The session that comes of it, bound to both identities, the initiator's first. */
  function Opened(s: Store, h: Handshake, d: Decrypted<Plaintext>): Held {
    Held(d.next, AssocData(h.identity.dh, Point(s.me.dh)))
  }

  predicate Changed(s: Store, contact: string, h: Handshake) {
    contact in s.contacts && s.contacts[contact].identity != h.identity
  }

  /** A changed identity starts over, unverified and with a warning; a new contact is unverified; a known one stays. */
  function ContactsAfter(s: Store, contact: string, h: Handshake): map<string, Contact> {
    if Changed(s, contact, h) then s.contacts[contact := Contact(h.identity, false, true, 0, None)]
    else if contact !in s.contacts then s.contacts[contact := Contact(h.identity, false, false, 0, None)]
    else s.contacts
  }

  /** Beside three others the newcomer takes the place of the oldest that is not sent on. */
  ghost predicate Joined(before: Record<Held>, after: Record<Held>, session': Held, makeCurrent: bool) {
    && before.current < |before.sessions| && after.current < |after.sessions|
    && after.sessions[after.current] == (if makeCurrent then session' else before.sessions[before.current])
    && (|before.sessions| < 3 ==> after.sessions == before.sessions + [session'])
    && (|before.sessions| == 3 ==>
          var kept := before.sessions[if before.current == 0 && !makeCurrent then 0 else 1];
          after.sessions == [kept, before.sessions[2], session'])
  }

  /**
   With no session there was, or a changed identity, only the new session is left. Otherwise it
   joins the others, and the tie-break says which is sent on.
   */
  ghost predicate SessionsAfter(s: Store, s': Store, contact: string, h: Handshake, session': Held) {
    && LoadSet(s', contact).Some?
    && (if Changed(s, contact, h) || LoadSet(s, contact).None?
        then LoadSet(s', contact).value == Record([session'], 0)
        else Joined(LoadSet(s, contact).value, LoadSet(s', contact).value, session',
                    !IsDesignatedInitiator(s.name, contact)))
    && forall c :: c != contact ==> (c in s'.sessions <==> c in s.sessions) && LoadBlob(s', c) == LoadBlob(s, c)
  }

  lemma AddJoins(b: Blob<Held>, h: Held, makeCurrent: bool)
    requires Normalize(b).Some?
    ensures var after := Normalize(Add(Some(b), h, makeCurrent));
            after.Some? && Joined(Normalize(b).value, after.value, h, makeCurrent)
  {
  }

  /** The keystore once the handshake is committed: one-time prekey used, contact learned, sessions in place. */
  ghost predicate Committed(s: Store, s1: Store, contact: string, h: Handshake, session': Held) {
    && s1 == s.(contacts := s1.contacts, sessions := s1.sessions)
    && s1.contacts == ContactsAfter(s, contact, h) && SessionsAfter(s, s1, contact, h, session')
  }

  // ---- with a stamped sender ----

  function Named(s: Store, h: Handshake): Option<nat> {
    if h.oneTime.Some? && h.oneTime.value.owner in s.oneTime then Some(h.oneTime.value.owner) else None
  }

  function PrekeysLeft(s: Store, h: Handshake): set<nat> {
    if h.oneTime.Some? then s.oneTime - {h.oneTime.value.owner} else s.oneTime
  }

  lemma TakesNamed(s: Store, h: Handshake)
    ensures Take(s, h.oneTime) == (Named(s, h), s.(oneTime := PrekeysLeft(s, h)))
  {
    assert h.oneTime.Some? && h.oneTime.value.owner !in s.oneTime ==> s.oneTime - {h.oneTime.value.owner} == s.oneTime;
  }

  /** The handshake is what is left to read the message by. */
  ghost predicate UpToHandshake(s: Store, contact: string, f: MessageFrame) {
    && f.from == Some(contact) && f.x3dh.Some?
    && (Changed(s, contact, f.x3dh.value) || NotFrom(s, contact, f))
  }

  lemma StampedResolves(s: Store, contact: string, f: MessageFrame, env: Env)
    requires UpToHandshake(s, contact, f)
    ensures var h := f.x3dh.value;
            var d := Answer(s, h, Named(s, h), f, env);
            var rest := s.(oneTime := PrekeysLeft(s, h));
            var r := Resolve(s, f, env);
            if !d.outcome.Plain? then r == Settled(Failed, Mark(rest, f.id))
            else
              && r.Read? && r.store == rest && r.delivery.contact == contact && r.delivery.plain == d.outcome.plain
              && r.delivery.session == Opened(s, h, d) && r.delivery.identity == Some(h.identity)
              && r.delivery.keyChanged == Changed(s, contact, h) && r.delivery.known == (contact in s.contacts)
              && r.delivery.rid.None? && r.delivery.token.None?
              && r.delivery.place == if Changed(s, contact, h) then Replace
                                     else if LoadSet(s, contact).None? then Only
                                     else Adopt(!IsDesignatedInitiator(s.name, contact))
  {
    TakesNamed(s, f.x3dh.value);
    if !Changed(s, contact, f.x3dh.value) && LoadSet(s, contact).Some? {
      TrialPasses(LoadSet(s, contact).value.sessions, 0, f, env);
    }
  }

  lemma CommitsHandshake(s: Store, contact: string, h: Handshake, x: Delivery)
    requires x.contact == contact && x.identity == Some(h.identity) && x.keyChanged == Changed(s, contact, h)
    requires x.known == (contact in s.contacts) && x.rid.None? && x.token.None?
    requires x.place == if Changed(s, contact, h) then Replace
                        else if LoadSet(s, contact).Some? then Adopt(!IsDesignatedInitiator(s.name, contact)) else Only
    ensures Committed(s, Commit(s, x), contact, h, x.session)
  {
    Inbox.SaveSessionsTouches(s, x);
    if x.place.Adopt? {
      AddJoins(s.sessions[contact], x.session, x.place.makeCurrent);
    }
  }

  /** What was read on the answer to the handshake is committed first and has its effect after. */
  lemma StampedActs(s: Store, contact: string, f: MessageFrame, env: Env)
    requires f.id !in s.processed && UpToHandshake(s, contact, f)
    requires Answer(s, f.x3dh.value, Named(s, f.x3dh.value), f, env).outcome.Plain?
    ensures var h := f.x3dh.value;
            var d := Answer(s, h, Named(s, h), f, env);
            var rest := s.(oneTime := PrekeysLeft(s, h));
            var x := Resolve(s, f, env).delivery;
            && x.contact == contact && x.plain == d.outcome.plain && x.keyChanged == Changed(s, contact, h)
            && Committed(rest, Commit(rest, x), contact, h, Opened(s, h, d))
            && DecryptIncoming(s, f, env) == Apply(Commit(rest, x), f, x)
  {
    StampedResolves(s, contact, f, env);
    CommitsHandshake(s.(oneTime := PrekeysLeft(s, f.x3dh.value)), contact, f.x3dh.value, Resolve(s, f, env).delivery);
  }

  /**
   A stamped message that only its handshake can open. The one-time prekey it names is used up
   whatever happens. Read with the answer to the handshake, it has its effect in the name of its
   sender, whose contact and sessions are brought up to date; otherwise it is given up.
   */
  lemma StampedHandshakeExactly(s: Store, contact: string, f: MessageFrame, env: Env)
    requires f.id !in s.processed && UpToHandshake(s, contact, f)
    ensures var h := f.x3dh.value;
            var d := Answer(s, h, Named(s, h), f, env);
            var rest := s.(oneTime := PrekeysLeft(s, h));
            var r := DecryptIncoming(s, f, env);
            if !d.outcome.Plain? then r == Received(Failed, Mark(rest, f.id))
            else
              && r.store.processed == s.processed + {f.id}
              && exists s1 :: && Committed(rest, s1, contact, h, Opened(s, h, d)) && s1.sessions == r.store.sessions
                              && TakesEffect(s1, r, f, contact, d.outcome.plain, Changed(s, contact, h))
  {
    if Answer(s, f.x3dh.value, Named(s, f.x3dh.value), f, env).outcome.Plain? {
      StampedActs(s, contact, f, env);
      var x := Resolve(s, f, env).delivery;
      ActsOn(Commit(s.(oneTime := PrekeysLeft(s, f.x3dh.value)), x), f, x);
    } else {
      StampedResolves(s, contact, f, env);
    }
  }

  lemma ActsOn(s: Store, f: MessageFrame, x: Delivery)
    ensures var r := Apply(s, f, x);
            && r.store.processed == s.processed + {f.id} && r.store.sessions == s.sessions
            && TakesEffect(s, r, f, x.contact, x.plain, x.keyChanged)
  {
    EffectTakes(s, s.sessions, f, x);
    assert s.(sessions := s.sessions) == s;
  }

  // ---- sealed, to somebody new ----

  predicate OpensForUs(s: Store, box: SealedBox) {
    box.SealedBox? && box.recipient == Point(s.me.dh) && box.handshake.Some?
  }

  /** Why a first message that was read is not taken yet, or never. */
  ghost predicate Refused(s: Store, f: MessageFrame, h: Handshake, p: Plaintext, claimed: Lookup, r: Received)
    requires p.Wrapped?
  {
    if p.rid in s.processed || (!Changed(s, p.su, h) && p.su in s.sessions) then r == Received(Duplicate, Mark(s, f.id))
    else if !claimed.Found? then r == Received(Retry, s)
    else r == Received(Control(false, NoEffect), s.(processed := s.processed + {f.id, p.rid}))
  }

  predicate Believed(s: Store, h: Handshake, p: Plaintext, claimed: Lookup)
    requires p.Wrapped?
  {
    && p.rid !in s.processed && (Changed(s, p.su, h) || p.su !in s.sessions)
    && claimed.Found? && claimed.bundle.identity == h.identity
  }

  /** The claimed name's delivery token comes with its bundle. */
  function WithToken(contacts: map<string, Contact>, contact: string, token: Option<string>): map<string, Contact> {
    if token.Some? && contact in contacts then contacts[contact := contacts[contact].(token := token)] else contacts
  }

  ghost predicate CommittedSealed(s: Store, s1: Store, contact: string, h: Handshake, session': Held,
                                  token: Option<string>, rid: string)
  {
    && s1 == s.(contacts := s1.contacts, sessions := s1.sessions, processed := s.processed + {rid})
    && s1.contacts == WithToken(ContactsAfter(s, contact, h), contact, token)
    && LoadSet(s1, contact) == Some(Record([session'], 0))
    && forall c :: c != contact ==> (c in s1.sessions <==> c in s.sessions) && LoadBlob(s1, c) == LoadBlob(s, c)
  }

  lemma CommitsSealed(s: Store, h: Handshake, x: Delivery)
    requires x.identity == Some(h.identity) && x.keyChanged == Changed(s, x.contact, h)
    requires x.known == (x.contact in s.contacts) && x.rid.Some?
    requires x.keyChanged || x.contact !in s.sessions
    requires x.place == if x.keyChanged then Replace else Only
    ensures CommittedSealed(s, Commit(s, x), x.contact, h, x.session, x.token, x.rid.value)
  {
    Inbox.SaveSessionsTouches(s, x);
  }

  /** The answer reads the message, and it names somebody. */
  predicate Speaks(d: Decrypted<Plaintext>) {
    d.outcome.Plain? && d.outcome.plain.Wrapped? && d.outcome.plain.su != ""
  }

  lemma SealedResolves(s: Store, f: MessageFrame, env: Env)
    requires f.from.None? && f.x3dhSealed.Some? && OpensForUs(s, f.x3dhSealed.value)
    requires var h := f.x3dhSealed.value.handshake.value;
             var d := Answer(s, h, None, f, env);
             Speaks(d) && Believed(s, h, d.outcome.plain, env.claimed)
    ensures var h := f.x3dhSealed.value.handshake.value;
            var d := Answer(s, h, None, f, env);
            var p := d.outcome.plain;
            var place := if Changed(s, p.su, h) then Replace else Only;
            Resolve(s, f, env)
            == Read(Delivery(p.su, p, Opened(s, h, d), place, Changed(s, p.su, h), Some(h.identity),
                             p.su in s.contacts, Some(p.rid), env.claimed.token), s)
  {
  }

  /** It has its effect in the name it claims, under one new session. */
  ghost predicate Introduced(s: Store, r: Received, f: MessageFrame, h: Handshake, d: Decrypted<Plaintext>, env: Env)
    requires Speaks(d) && env.claimed.Found?
  {
    var p := d.outcome.plain;
    && r.store.processed == s.processed + {f.id, p.rid}
    && exists s1 :: && CommittedSealed(s, s1, p.su, h, Opened(s, h, d), env.claimed.token, p.rid)
                    && s1.sessions == r.store.sessions && TakesEffect(s1, r, f, p.su, p, Changed(s, p.su, h))
  }

  lemma SealedIntroduces(s: Store, f: MessageFrame, env: Env)
    requires f.id !in s.processed && f.from.None? && f.x3dhSealed.Some? && OpensForUs(s, f.x3dhSealed.value)
    requires var h := f.x3dhSealed.value.handshake.value;
             var d := Answer(s, h, None, f, env);
             Speaks(d) && Believed(s, h, d.outcome.plain, env.claimed)
    ensures var h := f.x3dhSealed.value.handshake.value;
            Introduced(s, DecryptIncoming(s, f, env), f, h, Answer(s, h, None, f, env), env)
  {
    SealedResolves(s, f, env);
    var x := Resolve(s, f, env).delivery;
    CommitsSealed(s, f.x3dhSealed.value.handshake.value, x);
    var s1 := Commit(s, x);
    EffectTakes(s1, s1.sessions, f, x);
    assert s1.(sessions := s1.sessions) == s1;
  }

  lemma SealedRefuses(s: Store, f: MessageFrame, env: Env)
    requires f.id !in s.processed && f.from.None? && f.x3dhSealed.Some? && OpensForUs(s, f.x3dhSealed.value)
    ensures var r := DecryptIncoming(s, f, env);
            var h := f.x3dhSealed.value.handshake.value;
            var d := Answer(s, h, None, f, env);
            if !Speaks(d) then r == Received(Failed, Mark(s, f.id))
            else !Believed(s, h, d.outcome.plain, env.claimed) ==> Refused(s, f, h, d.outcome.plain, env.claimed, r)
  {
  }

  /**
   A sealed first message. Not sealed to us, not read with the answer to its handshake, or naming
   nobody: given up. Seen before, or from somebody we have a session with: a duplicate. Without the
   claimed name's bundle it waits; with another identity in the bundle it is dropped for good; with
   the same one it has its effect in that name, under one new session.
   */
  lemma SealedHandshakeExactly(s: Store, f: MessageFrame, env: Env)
    requires f.id !in s.processed && f.from.None? && f.x3dhSealed.Some?
    ensures var r := DecryptIncoming(s, f, env);
            if !OpensForUs(s, f.x3dhSealed.value) then r == Received(Failed, Mark(s, f.id))
            else
              var h := f.x3dhSealed.value.handshake.value;
              var d := Answer(s, h, None, f, env);
              if !Speaks(d) then r == Received(Failed, Mark(s, f.id))
              else if Believed(s, h, d.outcome.plain, env.claimed) then Introduced(s, r, f, h, d, env)
              else Refused(s, f, h, d.outcome.plain, env.claimed, r)
  {
    if OpensForUs(s, f.x3dhSealed.value) {
      var h := f.x3dhSealed.value.handshake.value;
      var d := Answer(s, h, None, f, env);
      SealedRefuses(s, f, env);
      if Speaks(d) && Believed(s, h, d.outcome.plain, env.claimed) {
        SealedIntroduces(s, f, env);
      }
    }
  }
}
