/**
 What becomes of a message on the sessions that are kept: the first session that recognises it
 decides, with or without a stamped sender.
 */
module Reading {
  import opened Crypto
  import opened Ratchet
  import opened RatchetOutcome
  import opened SessionRecord
  import opened SessionSet
  import opened Messaging
  import opened Authorship
  import Inbox

  // ---- which session decides ----

  ghost predicate Recognised(held: seq<Held>, f: MessageFrame) {
    exists k :: 0 <= k < |held| && Recognises(held[k].ratchet, f.frame.header)
  }

  /** The first of the sessions that does not say "not this session". */
  ghost predicate FirstToRecognise(held: seq<Held>, f: MessageFrame, k: nat) {
    && k < |held| && Recognises(held[k].ratchet, f.frame.header)
    && forall j :: 0 <= j < k ==> !Recognises(held[j].ratchet, f.frame.header)
  }

  function Attempt(h: Held, f: MessageFrame, env: Env): Decrypted<Plaintext> {
    TryDecrypt(h.ratchet, f.frame, h.ad, DEFAULT_MAX_SKIP, env.newKey)
  }

  lemma {:induction false} TrialPasses(held: seq<Held>, from: nat, f: MessageFrame, env: Env)
    requires from <= |held| && forall j :: from <= j < |held| ==> !Recognises(held[j].ratchet, f.frame.header)
    ensures TrialFrom(held, from, f.frame, DEFAULT_MAX_SKIP, env.newKey) == NoneMatched
    decreases |held| - from
  {
    if from < |held| {
      NotThisSessionExactly(held[from].ratchet, f.frame, held[from].ad, DEFAULT_MAX_SKIP, env.newKey);
      TrialPasses(held, from + 1, f, env);
    }
  }

  lemma {:induction false} TrialDecides(held: seq<Held>, from: nat, f: MessageFrame, env: Env, k: nat)
    requires from <= k && FirstToRecognise(held, f, k)
    ensures TrialFrom(held, from, f.frame, DEFAULT_MAX_SKIP, env.newKey)
         == match Attempt(held[k], f, env).outcome
            case Plain(p) => Matched(k, p)
            case Thrown(e) => Broken(e)
            case NotThisSession => NoneMatched
    ensures !Attempt(held[k], f, env).outcome.NotThisSession?
    decreases k - from
  {
    NotThisSessionExactly(held[from].ratchet, f.frame, held[from].ad, DEFAULT_MAX_SKIP, env.newKey);
    if from < k {
      TrialDecides(held, from + 1, f, env, k);
    }
  }

  lemma {:induction false} FirstOf(held: seq<Held>, f: MessageFrame, from: nat) returns (k: nat)
    requires exists j :: from <= j < |held| && Recognises(held[j].ratchet, f.frame.header)
    requires forall j :: 0 <= j < from ==> !Recognises(held[j].ratchet, f.frame.header)
    ensures FirstToRecognise(held, f, k)
    decreases |held| - from
  {
    if Recognises(held[from].ratchet, f.frame.header) {
      k := from;
    } else {
      k := FirstOf(held, f, from + 1);
    }
  }

  // ---- what reading does ----

  /** Session `k` of the contact has moved on; its siblings, the current one and everybody else's are as they were. */
  ghost predicate OnlyMoved(s: Store, s': Store, contact: string, k: nat, next: Session) {
    && LoadSet(s, contact).Some? && k < |LoadSet(s, contact).value.sessions|
    && var r := LoadSet(s, contact).value;
       && LoadSet(s', contact) == Some(Record(r.sessions[k := Held(next, r.sessions[k].ad)], r.current))
       && forall c :: c != contact ==> (c in s'.sessions <==> c in s.sessions) && LoadBlob(s', c) == LoadBlob(s, c)
  }

  /** A receipt goes back only for a sealed, wrapped message that brought a token. */
  ghost predicate ReceiptOwed(f: MessageFrame, contact: string, p: Plaintext, receipt: Option<Receipt>) {
    if f.from.None? && p.Wrapped? && p.st != NO_SEAL_TOKEN then receipt == Some(Receipt(contact, p.st, p.rid))
    else receipt.None?
  }

  /**
   Text and media are shown and filed under the sender; anything else has the effect of its payload,
   and nothing more.
   */
  ghost predicate TakesEffect(s: Store, r: Received, f: MessageFrame, contact: string, p: Plaintext, keyChanged: bool) {
    if p.payload.Text? || p.payload.Media? then
      && r.result.Accepted? && r.result.keyChanged == keyChanged
      && Shows(r.result.message, f, p.payload) && FiledUnder(s, r.store, contact, r.result.message)
      && ReceiptOwed(f, contact, p, r.result.receipt)
      && r.store == s.(sessions := r.store.sessions, processed := r.store.processed, history := r.store.history)
    else
      var (effect, s') := ApplyControl(s, contact, p.payload);
      && r.result == Control(keyChanged, effect)
      && r.store == s'.(sessions := r.store.sessions, processed := r.store.processed)
  }

  /** The message was read on session `k` of the contact. */
  ghost predicate ReadAs(s: Store, r: Received, f: MessageFrame, contact: string, k: nat, d: Decrypted<Plaintext>) {
    && d.outcome.Plain?
    && OnlyMoved(s, r.store, contact, k, d.next)
    && r.store.processed == s.processed + {f.id}
    && TakesEffect(s, r, f, contact, d.outcome.plain, false)
  }

  /** Read, or given up and marked. */
  ghost predicate Decided(s: Store, r: Received, f: MessageFrame, env: Env, contact: string, k: nat)
    requires LoadSet(s, contact).Some? && k < |LoadSet(s, contact).value.sessions|
  {
    var d := Attempt(LoadSet(s, contact).value.sessions[k], f, env);
    if d.outcome.Plain? then ReadAs(s, r, f, contact, k, d) else r == Received(Failed, Mark(s, f.id))
  }

  // ---- from the sessions to the store ----

  lemma SavedAt(s: Store, d: Delivery, k: nat)
    requires d.place == AtIndex(k) && LoadSet(s, d.contact).Some? && k < |LoadSet(s, d.contact).value.sessions|
    requires d.session.ad == LoadSet(s, d.contact).value.sessions[k].ad
    ensures OnlyMoved(s, SaveSessions(s, d), d.contact, k, d.session.ratchet)
  {
  }

  ghost predicate Apart(s: Store, contact: string, p: Payload, sessions: map<string, Blob<Held>>)
    requires !p.Text? && !p.Media?
  {
    var a, b := ApplyControl(s, contact, p), ApplyControl(s.(sessions := sessions), contact, p);
    b.0 == a.0 && b.1 == a.1.(sessions := sessions)
  }

  lemma KeyApart(s: Store, contact: string, p: Payload, sessions: map<string, Blob<Held>>)
    requires p.KeyDistribution?
    ensures Apart(s, contact, p, sessions)
  {
  }

  lemma MembershipApart(s: Store, contact: string, p: Payload, sessions: map<string, Blob<Held>>)
    requires p.Membership?
    ensures Apart(s, contact, p, sessions)
  {
  }

  lemma DeleteApart(s: Store, contact: string, p: Payload, sessions: map<string, Blob<Held>>)
    requires p.Delete?
    ensures Apart(s, contact, p, sessions)
  {
  }

  /** A control payload does not look at the sessions. */
  lemma ControlApart(s: Store, contact: string, p: Payload, sessions: map<string, Blob<Held>>)
    requires !p.Text? && !p.Media?
    ensures Apart(s, contact, p, sessions)
  {
    match p
    case KeyDistribution(_, _, _, _) => KeyApart(s, contact, p, sessions);
    case Membership(_, _, _, _) => MembershipApart(s, contact, p, sessions);
    case Delete(_) => DeleteApart(s, contact, p, sessions);
    case _ =>
  }

  lemma EffectTakes(s: Store, sessions: map<string, Blob<Held>>, f: MessageFrame, d: Delivery)
    ensures var r := Apply(s.(sessions := sessions), f, d);
            && TakesEffect(s, r, f, d.contact, d.plain, d.keyChanged)
            && r.store.sessions == sessions && r.store.processed == s.processed + {f.id}
  {
    var p := d.plain.payload;
    if p.Text? || p.Media? {
      ShownShows(f, d.contact, p);
      AppendFiles(s.(sessions := sessions), d.contact, Shown(f, d.contact, p), f.id);
    } else {
      ControlApart(s, d.contact, p, sessions);
      Inbox.ControlTouches(s, d.contact, p);
    }
  }

  /** The delivery of a message read on a kept session of a sender whose identity did not change. */
  ghost predicate ReadOn(s: Store, x: Delivery, contact: string, k: nat, d: Decrypted<Plaintext>)
    requires LoadSet(s, contact).Some? && k < |LoadSet(s, contact).value.sessions| && d.outcome.Plain?
  {
    && x.contact == contact && x.plain == d.outcome.plain && x.place == AtIndex(k)
    && x.session == Held(d.next, LoadSet(s, contact).value.sessions[k].ad)
    && !x.keyChanged && x.rid.None? && x.token.None? && (x.known || x.identity.None?)
  }

  lemma ReadTakes(s: Store, f: MessageFrame, env: Env, x: Delivery, contact: string, k: nat, d: Decrypted<Plaintext>)
    requires f.id !in s.processed && Resolve(s, f, env) == Read(x, s)
    requires LoadSet(s, contact).Some? && k < |LoadSet(s, contact).value.sessions| && d.outcome.Plain?
    requires ReadOn(s, x, contact, k, d)
    ensures ReadAs(s, DecryptIncoming(s, f, env), f, contact, k, d)
  {
    SavedAt(s, x, k);
    Inbox.SaveSessionsTouches(s, x);
    assert Commit(s, x) == s.(sessions := SaveSessions(s, x).sessions);
    EffectTakes(s, SaveSessions(s, x).sessions, f, x);
  }

  // ---- with a stamped sender ----

  /** No handshake with the message, or one by the identity the sender is known under. */
  predicate SameSender(s: Store, contact: string, f: MessageFrame) {
    && f.from == Some(contact)
    && (f.x3dh.Some? ==> contact in s.contacts && f.x3dh.value.identity == s.contacts[contact].identity)
  }

  /** None of the contact's sessions, if it has any, recognises the message. */
  ghost predicate NotFrom(s: Store, contact: string, f: MessageFrame) {
    LoadSet(s, contact).Some? ==> !Recognised(LoadSet(s, contact).value.sessions, f)
  }

  /** Contact `i` of the list is the first some session of which recognises the message, and `k` is that session. */
  ghost predicate FirstSpeaker(s: Store, order: seq<string>, f: MessageFrame, i: nat, k: nat) {
    && i < |order| && LoadSet(s, order[i]).Some? && FirstToRecognise(LoadSet(s, order[i]).value.sessions, f, k)
    && forall j :: 0 <= j < i ==> NotFrom(s, order[j], f)
  }

  /**
   A stamped message whose sender's identity is unchanged. The first of the sender's sessions that
   recognises it decides: it is read on that session, or given up. When none does and there is no
   handshake with it, it is left for redelivery, and only then.
   */
  lemma StampedExactly(s: Store, contact: string, f: MessageFrame, env: Env)
    requires f.id !in s.processed && SameSender(s, contact, f)
    ensures var r := DecryptIncoming(s, f, env);
            && (forall k: nat :: FirstSpeaker(s, [contact], f, 0, k) ==> Decided(s, r, f, env, contact, k))
            && (f.x3dh.None? ==> (r.result.Retry? <==> NotFrom(s, contact, f)))
            && (r.result.Retry? ==> r.store == s)
  {
    forall k: nat | FirstSpeaker(s, [contact], f, 0, k)
      ensures Decided(s, DecryptIncoming(s, f, env), f, env, contact, k)
    {
      StampedDecides(s, contact, f, env, k);
    }
    if !NotFrom(s, contact, f) {
      var k := FirstOf(LoadSet(s, contact).value.sessions, f, 0);
      StampedDecides(s, contact, f, env, k);
    } else if LoadSet(s, contact).Some? {
      TrialPasses(LoadSet(s, contact).value.sessions, 0, f, env);
    }
    Inbox.ReceivesOnce(s, f, env);
  }

  lemma StampedDecides(s: Store, contact: string, f: MessageFrame, env: Env, k: nat)
    requires f.id !in s.processed && SameSender(s, contact, f)
    requires LoadSet(s, contact).Some? && FirstToRecognise(LoadSet(s, contact).value.sessions, f, k)
    ensures Decided(s, DecryptIncoming(s, f, env), f, env, contact, k)
  {
    var held := LoadSet(s, contact).value.sessions;
    TrialDecides(held, 0, f, env, k);
    var d := Attempt(held[k], f, env);
    if d.outcome.Plain? {
      ReadTakes(s, f, env, Resolve(s, f, env).delivery, contact, k, d);
    }
  }

  // ---- without one ----

  lemma {:induction false} SealedResolves(s: Store, order: seq<string>, f: MessageFrame, env: Env, i: nat, k: nat)
    requires FirstSpeaker(s, order, f, i, k)
    ensures var r := ResolveSealed(s, order, f, env);
            var d := Attempt(LoadSet(s, order[i]).value.sessions[k], f, env);
            if d.outcome.Plain? then r.Read? && r.store == s && ReadOn(s, r.delivery, order[i], k, d)
            else r == Settled(Failed, Mark(s, f.id))
    decreases |order|
  {
    if i == 0 {
      TrialDecides(LoadSet(s, order[0]).value.sessions, 0, f, env, k);
    } else {
      assert NotFrom(s, order[0], f);
      if LoadSet(s, order[0]).Some? {
        TrialPasses(LoadSet(s, order[0]).value.sessions, 0, f, env);
      }
      assert order[1..][i - 1] == order[i];
      assert FirstSpeaker(s, order[1..], f, i - 1, k) by {
        forall j | 0 <= j < i - 1 ensures NotFrom(s, order[1..][j], f) {
          assert order[1..][j] == order[j + 1];
        }
      }
      SealedResolves(s, order[1..], f, env, i - 1, k);
    }
  }

  lemma {:induction false} SealedPasses(s: Store, order: seq<string>, f: MessageFrame, env: Env)
    requires forall j :: 0 <= j < |order| ==> NotFrom(s, order[j], f)
    ensures ResolveSealed(s, order, f, env) == Settled(Retry, s)
    decreases |order|
  {
    if order != [] {
      if LoadSet(s, order[0]).Some? {
        TrialPasses(LoadSet(s, order[0]).value.sessions, 0, f, env);
      }
      forall j | 0 <= j < |order[1..]| ensures NotFrom(s, order[1..][j], f) {
        assert order[1..][j] == order[j + 1];
      }
      SealedPasses(s, order[1..], f, env);
    }
  }

  lemma SealedDecides(s: Store, f: MessageFrame, env: Env, i: nat, k: nat)
    requires f.id !in s.processed && f.from.None? && f.x3dhSealed.None? && FirstSpeaker(s, env.order, f, i, k)
    ensures Decided(s, DecryptIncoming(s, f, env), f, env, env.order[i], k)
  {
    SealedResolves(s, env.order, f, env, i, k);
    var d := Attempt(LoadSet(s, env.order[i]).value.sessions[k], f, env);
    if d.outcome.Plain? {
      ReadTakes(s, f, env, Resolve(s, f, env).delivery, env.order[i], k, d);
    }
  }

  /**
   A message without a sender. The first contact, in the order they are listed, some session of
   which recognises it is the sender: it is read on the first such session, or given up. When there
   is no such contact it is left for redelivery, and only then.
   */
  lemma SealedExactly(s: Store, f: MessageFrame, env: Env)
    requires f.id !in s.processed && f.from.None? && f.x3dhSealed.None?
    ensures var r := DecryptIncoming(s, f, env);
            && (forall i: nat, k: nat :: FirstSpeaker(s, env.order, f, i, k) ==> Decided(s, r, f, env, env.order[i], k))
            && (r.result.Retry? <==> forall j :: 0 <= j < |env.order| ==> NotFrom(s, env.order[j], f))
            && (r.result.Retry? ==> r.store == s)
  {
    forall i: nat, k: nat | FirstSpeaker(s, env.order, f, i, k)
      ensures Decided(s, DecryptIncoming(s, f, env), f, env, env.order[i], k)
    {
      SealedDecides(s, f, env, i, k);
    }
    if forall j :: 0 <= j < |env.order| ==> NotFrom(s, env.order[j], f) {
      SealedPasses(s, env.order, f, env);
    } else {
      var i := FirstFrom(s, env.order, f, 0);
      var k := FirstOf(LoadSet(s, env.order[i]).value.sessions, f, 0);
      assert FirstSpeaker(s, env.order, f, i, k);
      SealedDecides(s, f, env, i, k);
    }
    Inbox.ReceivesOnce(s, f, env);
  }

  lemma {:induction false} FirstFrom(s: Store, order: seq<string>, f: MessageFrame, from: nat) returns (i: nat)
    requires exists j :: from <= j < |order| && !NotFrom(s, order[j], f)
    requires forall j :: 0 <= j < from ==> NotFrom(s, order[j], f)
    ensures i < |order| && !NotFrom(s, order[i], f) && forall j :: 0 <= j < i ==> NotFrom(s, order[j], f)
    decreases |order| - from
  {
    if !NotFrom(s, order[from], f) {
      i := from;
    } else {
      i := FirstFrom(s, order, f, from + 1);
    }
  }
}
