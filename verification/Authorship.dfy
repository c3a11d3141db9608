/** What one inbound envelope may do to conversations and contacts, and in whose name. */
module Authorship {
  import opened Crypto
  import opened Ratchet
  import opened X3dh
  import opened SessionRecord
  import opened SessionSet
  import opened Messaging
  import opened GroupPinning
  import Inbox

  // ---- conversations ----

  /** Everything shown comes from the payload: its text or caption, its media, and the sender's clock if it gave one. */
  ghost predicate Shows(m: Message, f: MessageFrame, p: Payload) {
    && m.id == f.id && !m.deleted
    && (p.Text? ==> m.text == p.text && m.media.None? && m.replyTo == p.replyTo)
    && (p.Media? ==>
          && m.media == Some(p.media) && m.replyTo == p.replyTo
          && m.text == if p.caption.Some? then p.caption.value else "")
    && (p.Text? || p.Media? ==>
          && (p.sentAt.Some? ==> m.ts == p.sentAt.value) && (p.sentAt.None? ==> m.ts == f.ts)
          && (m.expiresAt.Some? <==> p.expiresIn > 0)
          && (m.expiresAt.Some? ==> m.expiresAt.value == f.ts + p.expiresIn * 1000))
  }

  /** One more message, last in the conversation with its sender, and no other conversation touched. */
  ghost predicate FiledUnder(s: Store, s': Store, contact: string, m: Message) {
    && m.from == contact
    && Messages(s', Direct(contact)) == Messages(s, Direct(contact)) + [m]
    && forall c :: c != Direct(contact) ==> Messages(s', c) == Messages(s, c)
  }

  lemma ShownShows(f: MessageFrame, contact: string, p: Payload)
    requires p.Text? || p.Media?
    ensures Shows(Shown(f, contact, p), f, p) && Shown(f, contact, p).from == contact
  {
  }

  lemma AppendFiles(s: Store, contact: string, m: Message, id: string)
    requires m.from == contact
    ensures FiledUnder(s, Mark(Append(s, Direct(contact), m), id), contact, m)
  {
  }

  lemma AppliesAccepted(s: Store, f: MessageFrame, d: Delivery)
    ensures var r := Apply(s, f, d);
            r.result.Accepted? ==>
              && (d.plain.payload.Text? || d.plain.payload.Media?) && Shows(r.result.message, f, d.plain.payload)
              && FiledUnder(s, r.store, d.contact, r.result.message) && r.result.keyChanged == d.keyChanged
  {
    var p := d.plain.payload;
    if p.Text? || p.Media? {
      ShownShows(f, d.contact, p);
      AppendFiles(s, d.contact, Shown(f, d.contact, p), f.id);
    }
  }

  /**
   An accepted message is filed under the one it is authenticated to be from, as that one wrote it, and
   nowhere else.
   */
  lemma AcceptedIsFiledUnderItsSender(s: Store, f: MessageFrame, env: Env)
    ensures var r := DecryptIncoming(s, f, env);
            r.result.Accepted? ==>
              exists d, s1 :: && Resolve(s, f, env) == Read(d, s1) && Authenticated(s, f, d, env)
                              && Shows(r.result.message, f, d.plain.payload)
                              && FiledUnder(s, r.store, d.contact, r.result.message)
  {
    if f.id !in s.processed {
      Inbox.ResolveSettles(s, f, env);
      WhoSpoke(s, f, env);
      match Resolve(s, f, env)
      case Settled(_, _) =>
      case Read(d, s1) =>
        Inbox.CommitTouches(s1, d);
        AppliesAccepted(Commit(s1, d), f, d);
        assert Resolve(s, f, env) == Read(d, s1);
    }
  }

  /** A stored message changes only by being emptied, at the request of its author, in the author's own conversation. */
  ghost predicate Retracted(s: Store, s': Store, c: Conversation, k: nat, contact: string, p: Payload)
    requires c in s.history && k < |s.history[c]|
  {
    && c == Direct(contact) && s.history[c][k].from == contact && p == Delete(s.history[c][k].id)
    && c in s'.history && k < |s'.history[c]| && s'.history[c][k] == Tombstone(s.history[c][k])
  }

  lemma DeleteRetracts(s: Store, contact: string, targetId: string, c: Conversation, k: nat)
    requires c in s.history && k < |s.history[c]|
    ensures var s' := ApplyDelete(s, contact, targetId).1;
            || (c in s'.history && k < |s'.history[c]| && s'.history[c][k] == s.history[c][k])
            || Retracted(s, s', c, k, contact, Delete(targetId))
  {
  }

  lemma ControlRetracts(s: Store, contact: string, p: Payload, c: Conversation, k: nat)
    requires !p.Text? && !p.Media? && c in s.history && k < |s.history[c]|
    ensures var s' := ApplyControl(s, contact, p).1;
            || (c in s'.history && k < |s'.history[c]| && s'.history[c][k] == s.history[c][k])
            || Retracted(s, s', c, k, contact, p)
  {
    if p.Delete? {
      DeleteRetracts(s, contact, p.targetId, c, k);
    } else {
      Inbox.ControlTouches(s, contact, p);
    }
  }

  lemma ApplyRetracts(s: Store, f: MessageFrame, d: Delivery, c: Conversation, k: nat)
    requires c in s.history && k < |s.history[c]|
    ensures var s' := Apply(s, f, d).store;
            || (c in s'.history && k < |s'.history[c]| && s'.history[c][k] == s.history[c][k])
            || Retracted(s, s', c, k, d.contact, d.plain.payload)
  {
    var p := d.plain.payload;
    if !p.Text? && !p.Media? {
      ControlRetracts(s, d.contact, p, c, k);
    }
  }

  /** No envelope alters or removes a stored message, except that its authenticated author may have it emptied. */
  lemma OnlyAuthorsRetract(s: Store, f: MessageFrame, env: Env, c: Conversation, k: nat)
    requires c in s.history && k < |s.history[c]|
    ensures var s' := DecryptIncoming(s, f, env).store;
            (c in s'.history && k < |s'.history[c]| && s'.history[c][k] == s.history[c][k])
            || exists d, s1 :: && Resolve(s, f, env) == Read(d, s1) && Authenticated(s, f, d, env)
                               && Retracted(s, s', c, k, d.contact, d.plain.payload)
  {
    if f.id !in s.processed {
      Inbox.ResolveSettles(s, f, env);
      WhoSpoke(s, f, env);
      match Resolve(s, f, env)
      case Settled(_, s1) =>
        assert s1.history == s.history;
      case Read(d, s1) =>
        Inbox.CommitTouches(s1, d);
        assert Commit(s1, d).history == s.history;
        ApplyRetracts(Commit(s1, d), f, d, c, k);
        assert Resolve(s, f, env) == Read(d, s1);
    }
  }

  // ---- contacts ----

  /** The warning is up, the verification gone, and no session made under the old identity is left. */
  ghost predicate StartedOver(s': Store, contact: string, identity: PublicIdentity) {
    && contact in s'.contacts && s'.contacts[contact].identity == identity
    && s'.contacts[contact].keyChangeUnacknowledged && !s'.contacts[contact].verified
    && contact in s'.sessions && s'.sessions[contact].Stored? && |s'.sessions[contact].sessions| == 1
  }

  ghost predicate KeyChanged(r: Incoming) {
    (r.Accepted? && r.keyChanged) || (r.Control? && r.keyChanged)
  }

  ghost predicate SameContact(s: Store, s': Store, c: string) {
    c in s.contacts ==>
      && c in s'.contacts && s'.contacts[c].identity == s.contacts[c].identity
      && s'.contacts[c].verified == s.contacts[c].verified
      && s'.contacts[c].keyChangeUnacknowledged == s.contacts[c].keyChangeUnacknowledged
  }

  lemma ControlKeepsContacts(s: Store, contact: string, p: Payload, c: string)
    requires !p.Text? && !p.Media?
    ensures SameContact(s, ApplyControl(s, contact, p).1, c)
  {
  }

  lemma ApplyKeepsContacts(s: Store, f: MessageFrame, d: Delivery, c: string)
    ensures var r := Apply(s, f, d);
            && SameContact(s, r.store, c) && r.store.sessions == s.sessions
            && KeyChanged(r.result) == d.keyChanged
  {
    var p := d.plain.payload;
    if !p.Text? && !p.Media? {
      ControlKeepsContacts(s, d.contact, p, c);
      Inbox.ControlTouches(s, d.contact, p);
    }
  }

  lemma TokenKeepsContacts(s: Store, contact: string, token: string, c: string)
    ensures SameContact(s, SaveToken(s, contact, token), c) && SaveToken(s, contact, token).sessions == s.sessions
  {
  }

  /** How reading is recorded for a delivery whose key-change flag is true to the stored identity. */
  lemma CommitContacts(s: Store, d: Delivery, c: string)
    requires d.keyChanged ==> d.identity.Some? && d.place == Replace
    requires d.known == (d.contact in s.contacts)
    ensures if d.keyChanged && c == d.contact then StartedOver(Commit(s, d), c, d.identity.value)
            else SameContact(s, Commit(s, d), c)
  {
    var s1 := SaveSessions(s, d);
    Inbox.SaveSessionsTouches(s, d);
    var s2 := if d.rid.Some? then Mark(s1, d.rid.value) else s1;
    var s3 := SaveContact(s2, d);
    if d.token.Some? {
      TokenKeepsContacts(s3, d.contact, d.token.value, c);
    }
  }

  lemma {:induction false} SealedFlag(s: Store, order: seq<string>, f: MessageFrame, env: Env)
    ensures var r := ResolveSealed(s, order, f, env);
            if r.Read? then !r.delivery.keyChanged && r.delivery.known == (r.delivery.contact in s.contacts)
            else !KeyChanged(r.result)
    decreases |order|
  {
    if order != [] {
      SealedFlag(s, order[1..], f, env);
    }
  }

  lemma FlagIsTrue(s: Store, f: MessageFrame, env: Env)
    ensures match Resolve(s, f, env)
            case Settled(result, _) => !KeyChanged(result)
            case Read(d, _) =>
              && d.known == (d.contact in s.contacts)
              && (d.keyChanged ==> d.identity.Some? && d.place == Replace && IdentityDiffers(s, d.contact, d.identity))
  {
    SealedFlag(s, env.order, f, env);
    Inbox.ResolveSettles(s, f, env);
  }

  /**
   An identity never changes silently. An envelope leaves a known contact's identity,
   verification and warning alone, unless it reports a key change: then the identity differs, the
   warning is raised, the verification dropped, and the only session left is the new one.
   */
  lemma IdentityNeverChangesSilently(s: Store, f: MessageFrame, env: Env, c: string)
    requires c in s.contacts
    ensures var r := DecryptIncoming(s, f, env);
            || SameContact(s, r.store, c)
            || (&& KeyChanged(r.result)
                && exists identity :: identity != s.contacts[c].identity && StartedOver(r.store, c, identity))
  {
    if f.id !in s.processed {
      Inbox.ResolveSettles(s, f, env);
      FlagIsTrue(s, f, env);
      match Resolve(s, f, env)
      case Settled(_, s1) =>
        assert s1.contacts == s.contacts;
      case Read(d, s1) =>
        assert s1.contacts == s.contacts;
        CommitContacts(s1, d, c);
        ApplyKeepsContacts(Commit(s1, d), f, d, c);
        if d.keyChanged && c == d.contact {
          assert StartedOver(DecryptIncoming(s, f, env).store, c, d.identity.value);
        }
    }
  }

  // ---- sessions ----

  ghost predicate SameSessions(s: Store, s': Store, c: string) {
    (c in s.sessions <==> c in s'.sessions) && (c in s.sessions ==> s'.sessions[c] == s.sessions[c])
  }

  lemma SavesOnlyTheSenders(s: Store, d: Delivery, c: string)
    requires c != d.contact
    ensures SameSessions(s, SaveSessions(s, d), c)
  {
  }

  /** An envelope moves the sessions of the contact it is authenticated to be from, and nobody else's. */
  lemma OnlyTheSendersSessionsMove(s: Store, f: MessageFrame, env: Env, c: string)
    ensures SameSessions(s, DecryptIncoming(s, f, env).store, c)
         || exists d, s1 :: Resolve(s, f, env) == Read(d, s1) && Authenticated(s, f, d, env) && d.contact == c
  {
    if f.id !in s.processed {
      Inbox.ResolveSettles(s, f, env);
      WhoSpoke(s, f, env);
      match Resolve(s, f, env)
      case Settled(_, s1) =>
        assert s1.sessions == s.sessions;
      case Read(d, s1) =>
        assert s1.sessions == s.sessions;
        if c != d.contact {
          SavesOnlyTheSenders(s1, d, c);
        }
        Inbox.CommitSessions(s1, d);
        Inbox.ApplyKeepsSessions(Commit(s1, d), f, d);
        assert Resolve(s, f, env) == Read(d, s1);
    }
  }
}
