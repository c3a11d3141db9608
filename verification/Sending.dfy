/** What goes out: the session a first message starts, and what a frame holds and is sealed under. */
module Sending {
  import opened Crypto
  import opened Ratchet
  import opened X3dh
  import opened SessionRecord
  import opened SessionSet
  import opened Messaging

  // ---- starting a session ----

  /** The bundle can be used: its prekey is signed by the identity in it. */
  predicate Usable(lookup: Lookup) {
    lookup.Found? && lookup.bundle.signature == Signature(lookup.bundle.identity.signing, lookup.bundle.signedPreKey)
  }

  /**
   The session is the initiator's end on the secret of this handshake, with the bundle's prekey as the
   other end's first point.
   */
  ghost predicate InitiatorEnd(h: Held, me: Identity, bundle: Bundle, ephemeral: nat, newKey: nat) {
    var r := Initiate(me, bundle, ephemeral);
    r.Ok? && h.ad == r.value.ad && h.ratchet == InitInitiator(r.value.secret, bundle.signedPreKey, newKey)
  }

  /** Nobody else's sessions or contact entry changes, and nothing of another kind does. */
  ghost predicate OnlyContactTouched(s: Store, s': Store, contact: string) {
    && s' == s.(sessions := s'.sessions, contacts := s'.contacts)
    && (forall c :: c != contact ==> (c in s'.sessions <==> c in s.sessions) && LoadBlob(s', c) == LoadBlob(s, c))
    && (forall c :: c != contact ==> (c in s'.contacts <==> c in s.contacts))
    && (forall c :: c != contact && c in s.contacts ==> s'.contacts[c] == s.contacts[c])
  }

  /** One session, on the handshake, and it is the one to send on. */
  ghost predicate SessionMade(s: Store, s': Store, contact: string, bundle: Bundle, ephemeral: nat, newKey: nat) {
    && LoadSet(s', contact).Some?
    && var record := LoadSet(s', contact).value;
       |record.sessions| == 1 && record.current == 0
       && InitiatorEnd(record.sessions[0], s.me, bundle, ephemeral, newKey)
  }

  lemma MakesSession(s: Store, contact: string, lookup: Lookup, ephemeral: nat, newKey: nat)
    requires contact !in s.sessions && Usable(lookup)
    ensures var s' := EnsureSession(s, contact, lookup, ephemeral, newKey).1;
            SessionMade(s, s', contact, lookup.bundle, ephemeral, newKey)
  {
  }

  lemma LearnsContact(s: Store, contact: string, lookup: Lookup, ephemeral: nat, newKey: nat)
    requires contact !in s.sessions && Usable(lookup)
    ensures var s' := EnsureSession(s, contact, lookup, ephemeral, newKey).1;
            && OnlyContactTouched(s, s', contact) && contact in s'.contacts
            && s'.contacts[contact] == Contact(lookup.bundle.identity, false, false, 0, lookup.token)
  {
  }

  /**
   A session that is there is kept and no handshake goes out. Without one, an answer that cannot
   be used leaves nothing behind; a usable bundle makes one session, on the handshake that goes out
   with the first message, and a contact under the identity in it, not verified.
   */
  lemma EnsuresExactly(s: Store, contact: string, lookup: Lookup, ephemeral: nat, newKey: nat)
    ensures var (r, s') := EnsureSession(s, contact, lookup, ephemeral, newKey);
            if contact in s.sessions then r == Ensured(None) && s' == s
            else if !Usable(lookup) then
              s' == s && r == if lookup.Found? then BadBundle else if lookup.NotFound? then NoSuchUser else NoKeys
            else
              && r == Ensured(Some(Handshake(PublicIdentity(s.me.signing, Point(s.me.dh)), Point(ephemeral),
                                             lookup.bundle.oneTime)))
              && OnlyContactTouched(s, s', contact)
              && SessionMade(s, s', contact, lookup.bundle, ephemeral, newKey)
              && contact in s'.contacts
              && s'.contacts[contact] == Contact(lookup.bundle.identity, false, false, 0, lookup.token)
  {
    if contact !in s.sessions && Usable(lookup) {
      MakesSession(s, contact, lookup, ephemeral, newKey);
      LearnsContact(s, contact, lookup, ephemeral, newKey);
    }
  }

  // ---- sending on a session ----

  /**
   The header names our point, the length of the chain before and this message's number, and is sealed
   under the sending header key.
   */
  ghost predicate HeaderFor(h: SealedHeader, st: Session, nonce: nat) {
    && h.SealedHeader? && st.sendHeader == Some(h.key) && h.nonce == nonce
    && h.header == Header(Point(st.self), st.previousLength % U32, st.sendNumber % U32)
  }

  /** Sealed under the next key of the sending chain, for this session's two identities and this very header. */
  ghost predicate BodyFor(f: Frame<Plaintext>, st: Session, ad: AssocData) {
    && f.body.SealedBody? && f.body.ad == ad && f.body.bound == f.header
    && st.sendChain.Some? && f.body.key == MessageKey(st.sendChain.value)
  }

  /** Our name and token and the receipt id go inside; one that is too long or of the wrong length is replaced. */
  ghost predicate Carries(p: Plaintext, name: string, token: string, rid: string, payload: Payload) {
    && p.Wrapped? && p.payload == payload
    && (if |name| <= 32 then p.su == name else p.su == "")
    && (if |token| == 32 then p.st == token else |p.st| == 32 && forall k :: 0 <= k < 32 ==> p.st[k] == '0')
    && (if |rid| == 32 then p.rid == rid else |p.rid| == 32 && forall k :: 0 <= k < 32 ==> p.rid[k] == '0')
  }

  /**
   The current session has moved one message on; its siblings, its receiving side and everything else
   are as they were.
   */
  ghost predicate OneSent(s: Store, s': Store, contact: string) {
    && LoadSet(s, contact).Some?
    && var r := LoadSet(s, contact).value;
       var h := r.sessions[r.current];
       && h.ratchet.sendChain.Some?
       && var moved := Held(h.ratchet.(sendChain := Some(NextChain(h.ratchet.sendChain.value)),
                                       sendNumber := h.ratchet.sendNumber + 1), h.ad);
          && LoadSet(s', contact) == Some(Record(r.sessions[r.current := moved], r.current))
          && OnlyContactTouched(s, s', contact) && s'.contacts == s.contacts
  }

  /**
   A message can be sent if and only if there is a session and its current one has a sending chain;
   it is sealed on that session, and nothing else moves.
   */
  lemma SendsExactly(s: Store, contact: string, id: string, p: Payload, pending: Option<Handshake>, token: string,
                     rid: string, nonce: nat, ts: int)
    ensures var r := EncryptForSend(s, contact, id, p, pending, token, rid, nonce, ts);
            if LoadSet(s, contact).None? then r == Err(NoSession)
            else
              var record := LoadSet(s, contact).value;
              var h := record.sessions[record.current];
              if h.ratchet.sendChain.None? || h.ratchet.sendHeader.None? then r == Err(CannotEncrypt)
              else
                && r.Ok?
                && var (f, s') := r.value;
                   && f.id == id && f.from == Some(s.name) && f.x3dh == pending && f.x3dhSealed.None? && f.ts == ts
                   && HeaderFor(f.frame.header, h.ratchet, nonce) && BodyFor(f.frame, h.ratchet, h.ad)
                   && Carries(f.frame.body.plain, s.name, token, rid, p)
                   && OneSent(s, s', contact)
  {
  }
}
