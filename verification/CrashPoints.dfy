/**
 Where the handling of one message may be cut off. The writes of `Client.Receive` land one by one;
 a crash keeps those made so far, the frame is not acknowledged, and it is delivered again.
 */
module CrashPoints {
  import opened Crypto
  import opened Ratchet
  import opened X3dh
  import opened SessionRecord
  import opened SessionSet
  import opened Messaging
  import Inbox
  import Once = RatchetSingleUse

  // ---- a message on a session that is kept ----

  /** The stamped sender's session `k` reads the frame; nothing about the contact changes. */
  ghost predicate ReadsOn(s: Store, contact: string, f: MessageFrame, env: Env, k: nat, plain: Plaintext) {
    && f.id !in s.processed && f.from == Some(contact) && f.x3dh.None? && contact in s.contacts
    && LoadSet(s, contact).Some?
    && TrialDecrypt(LoadSet(s, contact).value.sessions, f.frame, DEFAULT_MAX_SKIP, env.newKey) == Matched(k, plain)
    && k < |LoadSet(s, contact).value.sessions|
  }

  function AfterSession(s: Store, f: MessageFrame, env: Env): Store
    requires Resolve(s, f, env).Read?
  {
    SaveSessions(Resolve(s, f, env).store, Resolve(s, f, env).delivery)
  }

  /** The payload has had its effect: a message is appended, or a control payload applied. */
  function AfterEffect(s: Store, f: MessageFrame, env: Env): Store
    requires Resolve(s, f, env).Read?
  {
    var d := Resolve(s, f, env).delivery;
    var p := d.plain.payload;
    if p.Text? || p.Media? then Append(AfterSession(s, f, env), Direct(d.contact), Shown(f, d.contact, p))
    else ApplyControl(AfterSession(s, f, env), d.contact, p).1
  }

  /** The three writes, in order. */
  lemma ThreeWrites(s: Store, contact: string, f: MessageFrame, env: Env, k: nat, plain: Plaintext)
    requires ReadsOn(s, contact, f, env, k, plain)
    ensures var r := Resolve(s, f, env);
            r.Read? && r.store == s && r.delivery.plain == plain && r.delivery.contact == contact
    ensures DecryptIncoming(s, f, env).store == Mark(AfterEffect(s, f, env), f.id)
  {
  }

  lemma EffectKeepsSessions(s: Store, f: MessageFrame, env: Env)
    requires Resolve(s, f, env).Read?
    ensures AfterEffect(s, f, env).sessions == AfterSession(s, f, env).sessions
    ensures AfterEffect(s, f, env).processed == AfterSession(s, f, env).processed
  {
    var d := Resolve(s, f, env).delivery;
    if !d.plain.payload.Text? && !d.plain.payload.Media? {
      Inbox.ControlTouches(AfterSession(s, f, env), d.contact, d.plain.payload);
    }
  }

  /** No other session of this sender reads the frame. */
  ghost predicate OnlyOneReads(held: seq<Held>, f: MessageFrame, k: nat) {
    forall j, newKey :: 0 <= j < |held| && j != k ==> !Try(held[j], f.frame, DEFAULT_MAX_SKIP, newKey).outcome.Plain?
  }

  lemma SavedSet(s: Store, contact: string, f: MessageFrame, env: Env, k: nat, plain: Plaintext)
    requires ReadsOn(s, contact, f, env, k, plain)
    ensures var held := LoadSet(s, contact).value.sessions;
            var after := LoadSet(AfterSession(s, f, env), contact);
            && after.Some?
            && after.value.sessions == held[k := Held(Try(held[k], f.frame, DEFAULT_MAX_SKIP, env.newKey).next,
                                                      held[k].ad)]
  {
  }

  // ---- the frame comes again ----

  /** Given up and marked, or left for yet another delivery: nothing is shown and nothing else is touched. */
  ghost predicate NotShown(s: Store, r: Received, id: string) {
    || r == Received(Failed, Mark(s, id))
    || r == Received(Retry, s)
  }

  lemma {:induction false} NobodyReads(held: seq<Held>, from: nat, f: MessageFrame, newKey: nat)
    requires forall j :: 0 <= j < |held| ==> !Try(held[j], f.frame, DEFAULT_MAX_SKIP, newKey).outcome.Plain?
    ensures !TrialFrom(held, from, f.frame, DEFAULT_MAX_SKIP, newKey).Matched?
  {
  }

  lemma NobodyShows(s: Store, contact: string, f: MessageFrame, env: Env)
    requires f.id !in s.processed && f.from == Some(contact) && f.x3dh.None? && LoadSet(s, contact).Some?
    requires forall j :: 0 <= j < |LoadSet(s, contact).value.sessions| ==>
               !Try(LoadSet(s, contact).value.sessions[j], f.frame, DEFAULT_MAX_SKIP, env.newKey).outcome.Plain?
    ensures NotShown(s, DecryptIncoming(s, f, env), f.id)
  {
    NobodyReads(LoadSet(s, contact).value.sessions, 0, f, env.newKey);
  }

  /** The session that read the frame, once saved, does not read it again; nor does any other. */
  lemma SavedSessionsAreDone(s: Store, contact: string, f: MessageFrame, env: Env, k: nat, plain: Plaintext,
                             again: Env, used: set<Key>)
    requires ReadsOn(s, contact, f, env, k, plain) && OnlyOneReads(LoadSet(s, contact).value.sessions, f, k)
    requires Once.Inv(LoadSet(s, contact).value.sessions[k].ratchet, used)
    ensures var held := LoadSet(AfterSession(s, f, env), contact).value.sessions;
            forall j :: 0 <= j < |held| ==> !Try(held[j], f.frame, DEFAULT_MAX_SKIP, again.newKey).outcome.Plain?
  {
    SavedSet(s, contact, f, env, k, plain);
    var before := LoadSet(s, contact).value.sessions;
    var held := LoadSet(AfterSession(s, f, env), contact).value.sessions;
    Once.DecryptSpends(before[k].ratchet, f.frame, before[k].ad, DEFAULT_MAX_SKIP, env.newKey, used);
    Once.DecryptSpends(held[k].ratchet, f.frame, held[k].ad, DEFAULT_MAX_SKIP, again.newKey, used + {f.frame.body.key});
  }

  /**
   Where the crash falls decides whether the message has its effect: after the session is saved and
   before the effect it never has; after it, once; after the mark the redelivery is a duplicate. In
   no case is it shown or applied twice.
   */
  lemma CutOffAnywhere(s: Store, contact: string, f: MessageFrame, env: Env, k: nat, plain: Plaintext, again: Env,
                       used: set<Key>)
    requires ReadsOn(s, contact, f, env, k, plain) && OnlyOneReads(LoadSet(s, contact).value.sessions, f, k)
    requires Once.Inv(LoadSet(s, contact).value.sessions[k].ratchet, used)
    ensures Resolve(s, f, env).Read? && Resolve(s, f, env).delivery.plain == plain
    ensures var saved := AfterSession(s, f, env);
            NotShown(saved, DecryptIncoming(saved, f, again), f.id) && saved == s.(sessions := saved.sessions)
    ensures var done := AfterEffect(s, f, env);
            NotShown(done, DecryptIncoming(done, f, again), f.id)
    ensures plain.payload.Text? || plain.payload.Media? ==>
              Messages(AfterEffect(s, f, env), Direct(contact)) ==
              Messages(s, Direct(contact)) + [Shown(f, contact, plain.payload)]
    ensures var marked := DecryptIncoming(s, f, env).store;
            DecryptIncoming(marked, f, again) == Received(Duplicate, marked)
  {
    ThreeWrites(s, contact, f, env, k, plain);
    SavedSet(s, contact, f, env, k, plain);
    SavedSessionsAreDone(s, contact, f, env, k, plain, again, used);
    NobodyShows(AfterSession(s, f, env), contact, f, again);
    EffectKeepsSessions(s, f, env);
    Inbox.SaveSessionsTouches(s, Resolve(s, f, env).delivery);
    NobodyShows(AfterEffect(s, f, env), contact, f, again);
  }

  // ---- a first message ----

  /** A responder reads a first message only under the secret its header was sealed with. */
  lemma ReadsOnlyItsSecret<P>(secret: Key, signedPreKey: nat, f: Frame<P>, ad: AssocData, newKey: nat)
    ensures TryDecrypt(InitResponder(secret, signedPreKey), f, ad, DEFAULT_MAX_SKIP, newKey).outcome.Plain? ==>
              f.header.SealedHeader? && f.header.key == HeaderA(secret)
  {
  }

  /**
   The prekey is taken before anything is saved. Cut off there, the first message can never be read: it
   is given up.
   */
  lemma CutOffAfterThePrekey(s: Store, contact: string, f: MessageFrame, env: Env, again: Env)
    requires f.id !in s.processed && f.from == Some(contact) && contact !in s.sessions && f.x3dh.Some?
    requires f.x3dh.value.oneTime.Some? && f.x3dh.value.oneTime.value.owner in s.oneTime
    requires Resolve(s, f, env).Read?
    ensures var taken := Take(s, f.x3dh.value.oneTime).1;
            && Resolve(s, f, env).store == taken
            && DecryptIncoming(taken, f, again) == Received(Failed, Mark(taken, f.id))
  {
    var h := f.x3dh.value;
    var (oneTime, taken) := Take(s, h.oneTime);
    var first := Respond(s.me, s.signedPreKey, oneTime, h.identity.dh, h.ephemeral);
    var second := Respond(s.me, s.signedPreKey, None, h.identity.dh, h.ephemeral);
    ReadsOnlyItsSecret(first.secret, s.signedPreKey, f.frame, first.ad, env.newKey);
    ReadsOnlyItsSecret(second.secret, s.signedPreKey, f.frame, second.ad, again.newKey);
    assert |first.secret.parts| == 4 && |second.secret.parts| == 3;
  }

  /** Once a responder has read its first message it still knows the header, and no longer has the key. */
  lemma FirstReadOnce<P>(secret: Key, signedPreKey: nat, f: Frame<P>, ad: AssocData, newKey: nat, again: nat)
    requires TryDecrypt(InitResponder(secret, signedPreKey), f, ad, DEFAULT_MAX_SKIP, newKey).outcome.Plain?
    ensures var next := TryDecrypt(InitResponder(secret, signedPreKey), f, ad, DEFAULT_MAX_SKIP, newKey).next;
            TryDecrypt(next, f, ad, DEFAULT_MAX_SKIP, again).outcome.Thrown?
  {
    var st := InitResponder(secret, signedPreKey);
    var next := TryDecrypt(st, f, ad, DEFAULT_MAX_SKIP, newKey).next;
    ReadsOnlyItsSecret(secret, signedPreKey, f, ad, newKey);
    Once.DecryptSpends(st, f, ad, DEFAULT_MAX_SKIP, newKey, {});
    Once.DecryptSpends(next, f, ad, DEFAULT_MAX_SKIP, again, {f.body.key});
    assert next.receiveHeader == Some(HeaderA(secret));
  }

  /** Cut off after the new session is saved, the first message is given up too. */
  lemma CutOffAfterTheFirstSession(s: Store, contact: string, f: MessageFrame, env: Env, again: Env)
    requires f.id !in s.processed && f.from == Some(contact) && contact !in s.sessions && f.x3dh.Some?
    requires !IdentityDiffers(s, contact, Some(f.x3dh.value.identity)) && Resolve(s, f, env).Read?
    ensures var saved := AfterSession(s, f, env);
            DecryptIncoming(saved, f, again) == Received(Failed, Mark(saved, f.id)) && saved.history == s.history
  {
    var h := f.x3dh.value;
    var agreed := Respond(s.me, s.signedPreKey, Take(s, h.oneTime).0, h.identity.dh, h.ephemeral);
    FirstReadOnce(agreed.secret, s.signedPreKey, f.frame, agreed.ad, env.newKey, again.newKey);
    var d := Resolve(s, f, env).delivery;
    var saved := AfterSession(s, f, env);
    assert LoadSet(saved, contact) == Some(Record([d.session], 0));
  }
}
