/**
 One side of a glare. Both users started a session with the other before reading anything; each
 keeps its own, adopts the peer's when the peer's first message arrives, and reads on both.
 */
module GlareSide {
  import opened Crypto
  import opened Ratchet
  import opened X3dh
  import opened SessionRecord
  import opened SessionSet
  import opened Messaging
  import Inbox

  /** What is fixed for one side: who it is, the peer's handshake, and the two shared secrets. */
  datatype Party = Party(
    name: string,
    peer: string,
    me: Identity,
    signedPreKey: nat,
    hello: Handshake,
    ownSecret: Key,
    ownAd: AssocData,
    peerSecret: Key,
    peerAd: AssocData)

  ghost predicate Knows(s: Store, p: Party) {
    && s.name == p.name && s.me == p.me && s.signedPreKey == p.signedPreKey
    && p.peer in s.contacts && s.contacts[p.peer].identity == p.hello.identity
  }

  /** The sessions kept for the peer, and the one sent on: the tie-break decides. */
  function Kept(p: Party, mine: Session, theirs: Session, adopted: bool): Blob<Held> {
    if adopted
    then Stored([Held(mine, p.ownAd), Held(theirs, p.peerAd)], CurrentAfterAdopting(p.name, p.peer, 0, 1))
    else Stored([Held(mine, p.ownAd)], 0)
  }

  /** Before adopting, the prekey the peer used is still there, and answering gives the peer's secret. */
  ghost predicate Waiting(s: Store, p: Party, theirs: Session) {
    && theirs == InitResponder(p.peerSecret, p.signedPreKey)
    && Respond(p.me, p.signedPreKey, Take(s, p.hello.oneTime).0, p.hello.identity.dh, p.hello.ephemeral)
    == Agreed(p.peerSecret, p.peerAd)
  }

  ghost predicate SideOk(s: Store, p: Party, mine: Session, theirs: Session, adopted: bool) {
    && Knows(s, p)
    && p.peer in s.sessions && s.sessions[p.peer] == Kept(p, mine, theirs, adopted)
    && (!adopted ==> Waiting(s, p, theirs))
  }

  /** The message was read as `plain` and dealt with. */
  ghost predicate Took(s: Store, f: MessageFrame, env: Env, plain: Plaintext) {
    && Resolve(s, f, env).Read? && Resolve(s, f, env).delivery.plain == plain
    && Resolve(s, f, env).delivery.contact in s.contacts
    && (DecryptIncoming(s, f, env).result.Accepted? || DecryptIncoming(s, f, env).result.Control?)
    && DecryptIncoming(s, f, env).store.processed == s.processed + {f.id}
  }

  // ---- what reading does besides the session ----

  ghost predicate SameIdentities(s: Store, s': Store) {
    forall c :: c in s.contacts ==> c in s'.contacts && s'.contacts[c].identity == s.contacts[c].identity
  }

  lemma ApplyKeepsSide(s: Store, f: MessageFrame, d: Delivery)
    ensures var s' := Apply(s, f, d).store;
            && s'.name == s.name && s'.me == s.me && s'.signedPreKey == s.signedPreKey
            && s'.oneTime == s.oneTime && s'.sessions == s.sessions
            && s'.processed == s.processed + {f.id}
            && SameIdentities(s, s')
    ensures Apply(s, f, d).result.Accepted? || Apply(s, f, d).result.Control?
  {
    var p := d.plain.payload;
    if !p.Text? && !p.Media? {
      Inbox.ControlTouches(s, d.contact, p);
      ControlKeepsIdentities(s, d.contact, p);
    }
  }

  lemma ControlKeepsIdentities(s: Store, contact: string, p: Payload)
    requires !p.Text? && !p.Media?
    ensures SameIdentities(s, ApplyControl(s, contact, p).1)
  {
  }

  /** Reading from a known peer with the same identity changes its sessions and nothing else that matters here. */
  lemma AfterRead(s: Store, f: MessageFrame, env: Env, d: Delivery, s1: Store)
    requires f.id !in s.processed && Resolve(s, f, env) == Read(d, s1)
    requires d.known && !d.keyChanged && d.rid.None? && d.token.None?
    ensures var r := DecryptIncoming(s, f, env);
            && r.store.name == s1.name && r.store.me == s1.me && r.store.signedPreKey == s1.signedPreKey
            && r.store.oneTime == s1.oneTime && r.store.sessions == SaveSessions(s1, d).sessions
            && r.store.processed == s1.processed + {f.id}
            && SameIdentities(s1, r.store)
            && (r.result.Accepted? || r.result.Control?)
  {
    Inbox.SaveSessionsTouches(s1, d);
    assert Commit(s1, d) == SaveSessions(s1, d);
    ApplyKeepsSide(Commit(s1, d), f, d);
  }

  // ---- the sessions, tried in order ----

  function KeptSeq(p: Party, mine: Session, theirs: Session, adopted: bool): seq<Held> {
    if adopted then [Held(mine, p.ownAd), Held(theirs, p.peerAd)] else [Held(mine, p.ownAd)]
  }

  function TryMine(p: Party, mine: Session, f: MessageFrame, env: Env): Decrypted<Plaintext> {
    TryDecrypt(mine, f.frame, p.ownAd, DEFAULT_MAX_SKIP, env.newKey)
  }

  function TryTheirs(p: Party, theirs: Session, f: MessageFrame, env: Env): Decrypted<Plaintext> {
    TryDecrypt(theirs, f.frame, p.peerAd, DEFAULT_MAX_SKIP, env.newKey)
  }

  function TrialKept(p: Party, mine: Session, theirs: Session, adopted: bool, f: MessageFrame,
                     env: Env): Trial<Plaintext> {
    TrialDecrypt(KeptSeq(p, mine, theirs, adopted), f.frame, DEFAULT_MAX_SKIP, env.newKey)
  }

  lemma TriesMine(p: Party, mine: Session, theirs: Session, adopted: bool, f: MessageFrame, env: Env)
    requires adopted ==> TryTheirs(p, theirs, f, env).outcome.NotThisSession?
    ensures TrialKept(p, mine, theirs, adopted, f, env)
         == match TryMine(p, mine, f, env).outcome
            case Plain(plain) => Matched(0, plain)
            case Thrown(e) => Broken(e)
            case NotThisSession => NoneMatched
  {
  }

  lemma TriesTheirs(p: Party, mine: Session, theirs: Session, f: MessageFrame, env: Env)
    requires TryMine(p, mine, f, env).outcome.NotThisSession?
    ensures TrialKept(p, mine, theirs, true, f, env)
         == match TryTheirs(p, theirs, f, env).outcome
            case Plain(plain) => Matched(1, plain)
            case Thrown(e) => Broken(e)
            case NotThisSession => NoneMatched
  {
    var held := KeptSeq(p, mine, theirs, true);
    assert TrialFrom(held, 0, f.frame, DEFAULT_MAX_SKIP, env.newKey)
        == TrialFrom(held, 1, f.frame, DEFAULT_MAX_SKIP, env.newKey);
  }

  ghost predicate From(f: MessageFrame, p: Party) {
    f.from == Some(p.peer) && (f.x3dh.Some? ==> f.x3dh == Some(p.hello))
  }

  function ReadAt(s: Store, p: Party, f: MessageFrame, k: nat, plain: Plaintext, session: Held): Delivery {
    Delivery(p.peer, plain, session, AtIndex(k), false, if f.x3dh.Some? then Some(f.x3dh.value.identity) else None,
             true, None, None)
  }

  lemma ResolvesKept(s: Store, p: Party, mine: Session, theirs: Session, adopted: bool, f: MessageFrame, env: Env)
    requires Knows(s, p) && p.peer in s.sessions && s.sessions[p.peer] == Kept(p, mine, theirs, adopted) && From(f, p)
    requires f.x3dh.None?
    ensures match TrialKept(p, mine, theirs, adopted, f, env)
            case Matched(k, plain) =>
              var h := KeptSeq(p, mine, theirs, adopted)[k];
              Resolve(s, f, env) == Read(ReadAt(s, p, f, k, plain,
                                                Held(Try(h, f.frame, DEFAULT_MAX_SKIP, env.newKey).next, h.ad)), s)
            case Broken(_) => Resolve(s, f, env) == Throws(s, f)
            case NoneMatched => Resolve(s, f, env) == Settled(Retry, s)
  {
  }

  lemma SavesMine(s: Store, p: Party, mine: Session, theirs: Session, adopted: bool, d: Delivery, next: Session)
    requires p.peer in s.sessions && s.sessions[p.peer] == Kept(p, mine, theirs, adopted)
    requires d.contact == p.peer && d.place == AtIndex(0) && d.session == Held(next, p.ownAd)
    ensures SaveSessions(s, d).sessions == s.sessions[p.peer := Kept(p, next, theirs, adopted)]
  {
    assert KeptSeq(p, mine, theirs, adopted)[0 := d.session] == KeptSeq(p, next, theirs, adopted);
  }

  lemma SavesTheirs(s: Store, p: Party, mine: Session, theirs: Session, d: Delivery, next: Session)
    requires p.peer in s.sessions && s.sessions[p.peer] == Kept(p, mine, theirs, true)
    requires d.contact == p.peer && d.place == AtIndex(1) && d.session == Held(next, p.peerAd)
    ensures SaveSessions(s, d).sessions == s.sessions[p.peer := Kept(p, mine, next, true)]
  {
    assert KeptSeq(p, mine, theirs, true)[1 := d.session] == KeptSeq(p, mine, next, true);
  }

  // ---- the four cases ----

  ghost predicate Unread(s: Store, p: Party, mine: Session, theirs: Session, adopted: bool, f: MessageFrame, env: Env) {
    && SideOk(DecryptIncoming(s, f, env).store, p, mine, theirs, adopted)
    && DecryptIncoming(s, f, env).store.processed <= s.processed + {f.id}
    && !Resolve(s, f, env).Read?
  }

  lemma NotRead(s: Store, p: Party, mine: Session, theirs: Session, adopted: bool, f: MessageFrame, env: Env)
    requires SideOk(s, p, mine, theirs, adopted) && f.id !in s.processed
    requires Resolve(s, f, env) == Throws(s, f) || Resolve(s, f, env) == Settled(Retry, s)
    ensures Unread(s, p, mine, theirs, adopted, f, env)
  {
  }

  /** A frame on our own session. */
  lemma ReceivesOwn(s: Store, p: Party, mine: Session, theirs: Session, adopted: bool, f: MessageFrame, env: Env)
    requires SideOk(s, p, mine, theirs, adopted) && From(f, p) && f.x3dh.None? && f.id !in s.processed
    requires adopted ==> TryTheirs(p, theirs, f, env).outcome.NotThisSession?
    ensures var d := TryMine(p, mine, f, env);
            if d.outcome.Plain? then
              SideOk(DecryptIncoming(s, f, env).store, p, d.next, theirs, adopted) && Took(s, f, env, d.outcome.plain)
            else Unread(s, p, mine, theirs, adopted, f, env)
  {
    var d := TryMine(p, mine, f, env);
    TriesMine(p, mine, theirs, adopted, f, env);
    ResolvesKept(s, p, mine, theirs, adopted, f, env);
    if d.outcome.Plain? {
      var read := ReadAt(s, p, f, 0, d.outcome.plain, Held(d.next, p.ownAd));
      AfterRead(s, f, env, read, s);
      SavesMine(s, p, mine, theirs, adopted, read, d.next);
    } else {
      NotRead(s, p, mine, theirs, adopted, f, env);
    }
  }

  /** A frame on the adopted session. */
  lemma ReceivesTheirs(s: Store, p: Party, mine: Session, theirs: Session, f: MessageFrame, env: Env)
    requires SideOk(s, p, mine, theirs, true) && From(f, p) && f.x3dh.None? && f.id !in s.processed
    requires TryMine(p, mine, f, env).outcome.NotThisSession?
    ensures var d := TryTheirs(p, theirs, f, env);
            if d.outcome.Plain? then
              SideOk(DecryptIncoming(s, f, env).store, p, mine, d.next, true) && Took(s, f, env, d.outcome.plain)
            else Unread(s, p, mine, theirs, true, f, env)
  {
    var d := TryTheirs(p, theirs, f, env);
    TriesTheirs(p, mine, theirs, f, env);
    ResolvesKept(s, p, mine, theirs, true, f, env);
    if d.outcome.Plain? {
      var read := ReadAt(s, p, f, 1, d.outcome.plain, Held(d.next, p.peerAd));
      AfterRead(s, f, env, read, s);
      SavesTheirs(s, p, mine, theirs, read, d.next);
    } else {
      NotRead(s, p, mine, theirs, true, f, env);
    }
  }

  /** A frame that overtook the handshake is left for redelivery. */
  lemma WaitsForHello(s: Store, p: Party, mine: Session, theirs: Session, f: MessageFrame, env: Env)
    requires SideOk(s, p, mine, theirs, false) && From(f, p) && f.x3dh.None? && f.id !in s.processed
    requires TryMine(p, mine, f, env).outcome.NotThisSession?
    ensures DecryptIncoming(s, f, env) == Received(Retry, s)
  {
  }

  function HelloRead(p: Party, d: Decrypted<Plaintext>): Delivery
    requires d.outcome.Plain?
  {
    Delivery(p.peer, d.outcome.plain, Held(d.next, p.peerAd), Adopt(!IsDesignatedInitiator(p.name, p.peer)), false,
             Some(p.hello.identity), true, None, None)
  }

  lemma ResolvesHello(s: Store, p: Party, mine: Session, theirs: Session, f: MessageFrame, env: Env)
    requires SideOk(s, p, mine, theirs, false) && From(f, p) && f.x3dh.Some? && f.id !in s.processed
    requires TryMine(p, mine, f, env).outcome.NotThisSession?
    requires TryTheirs(p, theirs, f, env).outcome.Plain?
    ensures Resolve(s, f, env) == Read(HelloRead(p, TryTheirs(p, theirs, f, env)), Take(s, p.hello.oneTime).1)
  {
  }

  /** The peer's first message: its session joins ours, and the tie-break says which one is sent on. */
  lemma ReceivesHello(s: Store, p: Party, mine: Session, theirs: Session, f: MessageFrame, env: Env)
    requires SideOk(s, p, mine, theirs, false) && From(f, p) && f.x3dh.Some? && f.id !in s.processed
    requires TryMine(p, mine, f, env).outcome.NotThisSession?
    requires TryTheirs(p, theirs, f, env).outcome.Plain?
    ensures var d := TryTheirs(p, theirs, f, env);
            SideOk(DecryptIncoming(s, f, env).store, p, mine, d.next, true) && Took(s, f, env, d.outcome.plain)
  {
    ResolvesHello(s, p, mine, theirs, f, env);
    var d := Resolve(s, f, env).delivery;
    var s1 := Take(s, p.hello.oneTime).1;
    AfterRead(s, f, env, d, s1);
    AddsTheirs(p, mine, d.session.ratchet);
  }

  lemma AddsTheirs(p: Party, mine: Session, theirs: Session)
    ensures Add(Some(Stored([Held(mine, p.ownAd)], 0)), Held(theirs, p.peerAd), !IsDesignatedInitiator(p.name, p.peer))
         == Kept(p, mine, theirs, true)
  {
  }

  // ---- sending ----

  /** Which of the two sessions is sent on. */
  function SendsOnTheirs(p: Party, adopted: bool): bool {
    adopted && !IsDesignatedInitiator(p.name, p.peer)
  }

  /** Sending moves the current session and no other. */
  lemma Sends(s: Store, p: Party, mine: Session, theirs: Session, adopted: bool, id: string, payload: Payload,
              token: string, rid: string, nonce: nat, ts: int)
    requires SideOk(s, p, mine, theirs, adopted)
    ensures var onTheirs := SendsOnTheirs(p, adopted);
            var x := Encrypt(if onTheirs then theirs else mine, Wrap(s.name, token, rid, payload),
                             if onTheirs then p.peerAd else p.ownAd, nonce);
            var r := EncryptForSend(s, p.peer, id, payload, None, token, rid, nonce, ts);
            && (r.Ok? <==> x.Ok?)
            && (r.Ok? ==>
                  && r.value.0 == MessageFrame(id, Some(s.name), x.value.frame, None, None, ts)
                  && r.value.1.processed == s.processed
                  && SideOk(r.value.1, p, if onTheirs then mine else x.value.next,
                            if onTheirs then x.value.next else theirs, adopted))
  {
  }
}
