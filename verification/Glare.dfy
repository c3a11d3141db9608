/**
 A glare from start to finish: two users each start a session with the other before reading
 anything. Whatever the order of delivery, both end up sending on the designated initiator's
 session, and every message in flight, on either session, stays readable.
 */
module Glare {
  import opened Crypto
  import opened Ratchet
  import opened RatchetScript
  import opened X3dh
  import opened SessionRecord
  import opened SessionSet
  import opened Messaging
  import opened GlareSide
  import Run = RatchetRun
  import Inbox

  // ---- one side and its two sessions ----

  /** The two sessions as runs of their own: the one this side initiated, and the peer's. */
  datatype Duo = Duo(own: Run.World<Plaintext>, ownView: Run.View<Plaintext>, peer: Run.World<Plaintext>,
                     peerView: Run.View<Plaintext>)

  function OwnTerms(p: Party): Run.Terms {
    Run.Terms(p.ownSecret, p.ownAd, DEFAULT_MAX_SKIP)
  }

  function PeerTerms(p: Party): Run.Terms {
    Run.Terms(p.peerSecret, p.peerAd, DEFAULT_MAX_SKIP)
  }

  ghost predicate Follows(v: Run.View<Plaintext>, w: Run.World<Plaintext>, t: Run.Terms) {
    Run.Tracks(v, w, t) && |v.slots| > 0 && v.slots[0] == Slot(1, 0)
  }

  ghost predicate DuoOk(p: Party, d: Duo) {
    && Follows(d.ownView, d.own, OwnTerms(p)) && Follows(d.peerView, d.peer, PeerTerms(p))
    && p.ownSecret != p.peerSecret && !p.ownSecret.RootOf? && !p.peerSecret.RootOf?
  }

  /** The frame is letter `k` of one of the two sessions, on its way to this side. */
  predicate CarriesIn(p: Party, mail: seq<Run.Letter<Plaintext>>, f: MessageFrame, ofPeer: bool, k: nat) {
    && k < |mail| && f.frame == mail[k].frame && mail[k].toAlice == !ofPeer
    && f.from == Some(p.peer) && f.x3dh == if ofPeer && k == 0 then Some(p.hello) else None
  }

  predicate Carries(p: Party, d: Duo, f: MessageFrame, ofPeer: bool, k: nat) {
    CarriesIn(p, if ofPeer then d.peer.mail else d.own.mail, f, ofPeer, k)
  }

  // ---- a frame of one session means nothing to the other ----

  lemma LetterForeign(v: Run.View<Plaintext>, w: Run.World<Plaintext>, t: Run.Terms, k: nat, secret: Key)
    requires Run.Tracks(v, w, t) && k < |w.mail| && !t.secret.RootOf? && secret != t.secret
    ensures Run.Foreign(secret, w.mail[k].frame.header)
  {
    var s := v.slots[k];
    assert Run.LetterOf(v.sc, s, w.mail[k]);
    Run.HeaderAtOrigin(v.sc.secret, v.sc.keys, s.chain);
  }

  lemma AliceIgnores(v: Run.View<Plaintext>, w: Run.World<Plaintext>, t: Run.Terms, f: Frame<Plaintext>, newKey: nat)
    requires Run.Tracks(v, w, t) && !t.secret.RootOf? && Run.Foreign(t.secret, f.header)
    ensures TryDecrypt(w.alice, f, t.ad, t.maxSkip, newKey).outcome.NotThisSession?
  {
    Run.ForeignIgnored(v.sc, v.a, f, t.maxSkip, newKey);
  }

  lemma BobIgnores(v: Run.View<Plaintext>, w: Run.World<Plaintext>, t: Run.Terms, f: Frame<Plaintext>, newKey: nat)
    requires Run.Tracks(v, w, t) && !t.secret.RootOf? && Run.Foreign(t.secret, f.header)
    ensures TryDecrypt(w.bob, f, t.ad, t.maxSkip, newKey).outcome.NotThisSession?
  {
    Run.ForeignIgnored(v.sc, v.b, f, t.maxSkip, newKey);
  }

  // ---- one delivery within one session ----

  function Delivered(w: Run.World<Plaintext>, t: Run.Terms, k: nat, newKey: nat): Run.World<Plaintext> {
    Run.Step(w, t, Run.Deliver(k, newKey))
  }

  lemma Delivers(v: Run.View<Plaintext>, w: Run.World<Plaintext>, t: Run.Terms, k: nat, newKey: nat)
    returns (v': Run.View<Plaintext>)
    requires Follows(v, w, t) && k < |w.mail|
    ensures Follows(v', Delivered(w, t, k, newKey), t)
  {
    v' := Run.DeliverTracks(v, w, t, k, newKey);
  }

  /** Nothing moves when nothing is read. */
  lemma UnreadStays(v: Run.View<Plaintext>, w: Run.World<Plaintext>, t: Run.Terms, k: nat, newKey: nat)
    requires Run.Tracks(v, w, t) && k < |w.mail|
    ensures !Run.Hand(w, t, w.mail[k].toAlice, w.mail[k].frame, newKey).outcome.Plain? ==>
              Delivered(w, t, k, newKey) == w
  {
  }

  /** The letter can be read where it is going. */
  ghost predicate Readable(v: Run.View<Plaintext>, t: Run.Terms, k: nat) {
    k < |v.slots| && InScript(v.sc, v.slots[k]) && Run.Open(v, t, k)
  }

  lemma ReadsLetter(v: Run.View<Plaintext>, w: Run.World<Plaintext>, t: Run.Terms, k: nat, newKey: nat)
    requires Run.Tracks(v, w, t) && k < |w.mail|
    ensures var outcome := Run.Hand(w, t, w.mail[k].toAlice, w.mail[k].frame, newKey).outcome;
            if Readable(v, t, k) then outcome == Plain(w.mail[k].plain) else !outcome.Plain?
  {
    Run.HandSimulates(v, w, t, k, newKey);
  }

  /** What decides it: the letter was not read, not evicted, and opens no gap that is too long. */
  ghost predicate LetterOpen(v: Run.View<Plaintext>, w: Run.World<Plaintext>, t: Run.Terms, k: nat) {
    && k < |v.slots| && InScript(v.sc, v.slots[k])
    && !Run.WasRead(w.read, k) && v.slots[k] !in Run.Recipient(v, k).lost
    && (Passed(v.sc, Run.Recipient(v, k), v.slots[k]) || InReach(v.sc, Run.Recipient(v, k), v.slots[k], t.maxSkip))
  }

  lemma ReadableExactly(v: Run.View<Plaintext>, w: Run.World<Plaintext>, t: Run.Terms, k: nat)
    requires Run.Tracks(v, w, t) && k < |w.mail|
    ensures Readable(v, t, k) <==> LetterOpen(v, w, t, k)
  {
    Run.HandSimulates(v, w, t, k, 0);
    Run.Agreement(v, w, t, k, 0);
  }

  /** A responder that has read nothing reads the first message of the session. */
  lemma HelloReadable(v: Run.View<Plaintext>, w: Run.World<Plaintext>, t: Run.Terms)
    requires Follows(v, w, t) && |w.mail| > 0 && w.bob.remote.None?
    ensures Readable(v, t, 0)
  {
  }

  // ---- one delivery to one side ----

  /** Before the peer's first message arrives, this side cannot read the peer's session. */
  ghost predicate InTime(adopted: bool, ofPeer: bool, k: nat) {
    !ofPeer || adopted || k == 0
  }

  function DuoAfter(p: Party, d: Duo, ofPeer: bool, k: nat, newKey: nat, v: Run.View<Plaintext>): Duo {
    if ofPeer then d.(peer := Delivered(d.peer, PeerTerms(p), k, newKey), peerView := v)
    else d.(own := Delivered(d.own, OwnTerms(p), k, newKey), ownView := v)
  }

  /** What the side itself sees of a frame on its own session. */
  lemma OwnStep(s: Store, p: Party, own: Run.World<Plaintext>, theirs: Session, adopted: bool, f: MessageFrame,
                k: nat, env: Env)
    requires SideOk(s, p, own.alice, theirs, adopted) && f.id !in s.processed
    requires k < |own.mail| && f.frame == own.mail[k].frame && own.mail[k].toAlice && f.from == Some(p.peer)
    requires f.x3dh.None?
    requires adopted ==> TryTheirs(p, theirs, f, env).outcome.NotThisSession?
    requires !TryMine(p, own.alice, f, env).outcome.Plain? ==> Delivered(own, OwnTerms(p), k, env.newKey) == own
    ensures SideOk(DecryptIncoming(s, f, env).store, p, Delivered(own, OwnTerms(p), k, env.newKey).alice, theirs,
                   adopted)
    ensures var plain := TryMine(p, own.alice, f, env).outcome;
            if plain.Plain? then Took(s, f, env, plain.plain) else !Resolve(s, f, env).Read?
    ensures Delivered(own, OwnTerms(p), k, env.newKey) == own || f.id in DecryptIncoming(s, f, env).store.processed
    ensures DecryptIncoming(s, f, env).store.processed <= s.processed + {f.id}
  {
    ReceivesOwn(s, p, own.alice, theirs, adopted, f, env);
  }

  lemma ArrivesOwn(s: Store, p: Party, d: Duo, adopted: bool, f: MessageFrame, k: nat, env: Env) returns (d': Duo)
    requires DuoOk(p, d) && SideOk(s, p, d.own.alice, d.peer.bob, adopted) && Carries(p, d, f, false, k)
    requires f.id !in s.processed
    ensures d' == DuoAfter(p, d, false, k, env.newKey, d'.ownView) && DuoOk(p, d')
    ensures SideOk(DecryptIncoming(s, f, env).store, p, d'.own.alice, d'.peer.bob, adopted)
    ensures if Readable(d.ownView, OwnTerms(p), k) then Took(s, f, env, d.own.mail[k].plain)
            else !Resolve(s, f, env).Read?
    ensures d'.own == d.own || f.id in DecryptIncoming(s, f, env).store.processed
    ensures DecryptIncoming(s, f, env).store.processed <= s.processed + {f.id}
  {
    var v := Delivers(d.ownView, d.own, OwnTerms(p), k, env.newKey);
    d' := DuoAfter(p, d, false, k, env.newKey, v);
    if adopted {
      LetterForeign(d.ownView, d.own, OwnTerms(p), k, p.peerSecret);
      BobIgnores(d.peerView, d.peer, PeerTerms(p), f.frame, env.newKey);
    }
    UnreadStays(d.ownView, d.own, OwnTerms(p), k, env.newKey);
    ReadsLetter(d.ownView, d.own, OwnTerms(p), k, env.newKey);
    OwnStep(s, p, d.own, d.peer.bob, adopted, f, k, env);
  }

  lemma ArrivesPeer(s: Store, p: Party, d: Duo, f: MessageFrame, k: nat, env: Env) returns (d': Duo)
    requires DuoOk(p, d) && SideOk(s, p, d.own.alice, d.peer.bob, true) && Carries(p, d, f, true, k)
    requires f.id !in s.processed && k != 0
    ensures d' == DuoAfter(p, d, true, k, env.newKey, d'.peerView) && DuoOk(p, d')
    ensures SideOk(DecryptIncoming(s, f, env).store, p, d'.own.alice, d'.peer.bob, true)
    ensures if Readable(d.peerView, PeerTerms(p), k) then Took(s, f, env, d.peer.mail[k].plain)
            else !Resolve(s, f, env).Read?
    ensures d'.peer == d.peer || f.id in DecryptIncoming(s, f, env).store.processed
    ensures DecryptIncoming(s, f, env).store.processed <= s.processed + {f.id}
  {
    var v := Delivers(d.peerView, d.peer, PeerTerms(p), k, env.newKey);
    d' := DuoAfter(p, d, true, k, env.newKey, v);
    LetterForeign(d.peerView, d.peer, PeerTerms(p), k, p.ownSecret);
    AliceIgnores(d.ownView, d.own, OwnTerms(p), f.frame, env.newKey);
    UnreadStays(d.peerView, d.peer, PeerTerms(p), k, env.newKey);
    ReadsLetter(d.peerView, d.peer, PeerTerms(p), k, env.newKey);
    ReceivesTheirs(s, p, d.own.alice, d.peer.bob, f, env);
  }

  lemma ArrivesHello(s: Store, p: Party, d: Duo, f: MessageFrame, env: Env) returns (d': Duo)
    requires DuoOk(p, d) && SideOk(s, p, d.own.alice, d.peer.bob, false) && Carries(p, d, f, true, 0)
    requires f.id !in s.processed
    ensures d' == DuoAfter(p, d, true, 0, env.newKey, d'.peerView) && DuoOk(p, d')
    ensures SideOk(DecryptIncoming(s, f, env).store, p, d'.own.alice, d'.peer.bob, true)
    ensures Took(s, f, env, d.peer.mail[0].plain)
  {
    var v := Delivers(d.peerView, d.peer, PeerTerms(p), 0, env.newKey);
    d' := DuoAfter(p, d, true, 0, env.newKey, v);
    LetterForeign(d.peerView, d.peer, PeerTerms(p), 0, p.ownSecret);
    AliceIgnores(d.ownView, d.own, OwnTerms(p), f.frame, env.newKey);
    HelloReadable(d.peerView, d.peer, PeerTerms(p));
    ReadsLetter(d.peerView, d.peer, PeerTerms(p), 0, env.newKey);
    ReceivesHello(s, p, d.own.alice, d.peer.bob, f, env);
  }

  lemma ArrivesEarly(s: Store, p: Party, d: Duo, f: MessageFrame, k: nat, env: Env)
    requires DuoOk(p, d) && SideOk(s, p, d.own.alice, d.peer.bob, false) && Carries(p, d, f, true, k)
    requires f.id !in s.processed && k != 0
    ensures DecryptIncoming(s, f, env) == Received(Retry, s)
  {
    LetterForeign(d.peerView, d.peer, PeerTerms(p), k, p.ownSecret);
    AliceIgnores(d.ownView, d.own, OwnTerms(p), f.frame, env.newKey);
    WaitsForHello(s, p, d.own.alice, d.peer.bob, f, env);
  }

  /** What an arrival does to the side and its two sessions. */
  ghost predicate Moved(s: Store, p: Party, d: Duo, d': Duo, adopted: bool, f: MessageFrame, ofPeer: bool, k: nat,
                        env: Env) {
    var s' := DecryptIncoming(s, f, env).store;
    && SideOk(s', p, d'.own.alice, d'.peer.bob, adopted || (ofPeer && k == 0))
    && (if ofPeer then d' == d.(peer := d'.peer, peerView := d'.peerView)
        else d' == d.(own := d'.own, ownView := d'.ownView))
    && s.processed <= s'.processed <= s.processed + {f.id}
    && (ofPeer && k == 0 ==> f.id in s'.processed)
    && (if ofPeer then
          || d'.peer == d.peer
          || (d'.peer == Delivered(d.peer, PeerTerms(p), k, env.newKey) && f.id in s'.processed)
        else d'.own == d.own || (d'.own == Delivered(d.own, OwnTerms(p), k, env.newKey) && f.id in s'.processed))
  }

  lemma SideReceives(s: Store, p: Party, d: Duo, adopted: bool, f: MessageFrame, ofPeer: bool, k: nat, env: Env)
    returns (d': Duo)
    requires DuoOk(p, d) && SideOk(s, p, d.own.alice, d.peer.bob, adopted) && Carries(p, d, f, ofPeer, k)
    requires f.id !in s.processed
    requires adopted && ofPeer ==> k != 0
    ensures Moved(s, p, d, d', adopted, f, ofPeer, k, env) && DuoOk(p, d')
  {
    Inbox.ReceivesOnce(s, f, env);
    if !ofPeer {
      d' := ArrivesOwn(s, p, d, adopted, f, k, env);
    } else if adopted {
      d' := ArrivesPeer(s, p, d, f, k, env);
    } else if k == 0 {
      d' := ArrivesHello(s, p, d, f, env);
    } else {
      ArrivesEarly(s, p, d, f, k, env);
      d' := d;
    }
  }

  ghost predicate ReadableIn(p: Party, d: Duo, ofPeer: bool, k: nat) {
    if ofPeer then Readable(d.peerView, PeerTerms(p), k) else Readable(d.ownView, OwnTerms(p), k)
  }

  /**
   The whole outcome: too early, it is left for later; in time, it is read as it was said exactly when
   its session can read it.
   */
  lemma SideReads(s: Store, p: Party, d: Duo, adopted: bool, f: MessageFrame, ofPeer: bool, k: nat, env: Env)
    requires DuoOk(p, d) && SideOk(s, p, d.own.alice, d.peer.bob, adopted) && Carries(p, d, f, ofPeer, k)
    requires f.id !in s.processed
    requires adopted && ofPeer ==> k != 0
    ensures if !InTime(adopted, ofPeer, k) then DecryptIncoming(s, f, env) == Received(Retry, s)
            else if ReadableIn(p, d, ofPeer, k) then Took(s, f, env, (if ofPeer then d.peer else d.own).mail[k].plain)
            else !Resolve(s, f, env).Read?
  {
    if !ofPeer {
      var _ := ArrivesOwn(s, p, d, adopted, f, k, env);
    } else if adopted {
      var _ := ArrivesPeer(s, p, d, f, k, env);
    } else if k == 0 {
      HelloReadable(d.peerView, d.peer, PeerTerms(p));
      var _ := ArrivesHello(s, p, d, f, env);
    } else {
      ArrivesEarly(s, p, d, f, k, env);
    }
  }

  // ---- one message sent by one side ----

  function Posted(w: Run.World<Plaintext>, t: Run.Terms, byAlice: bool, plain: Plaintext,
                  nonce: nat): Run.World<Plaintext> {
    Run.Post(w, t, byAlice, plain, nonce)
  }

  lemma Posts(v: Run.View<Plaintext>, w: Run.World<Plaintext>, t: Run.Terms, byAlice: bool, plain: Plaintext,
              nonce: nat)
    returns (v': Run.View<Plaintext>)
    requires Follows(v, w, t) && (if byAlice then w.alice else w.bob).sendNumber + 1 < U32
    ensures Follows(v', Posted(w, t, byAlice, plain, nonce), t)
  {
    v' := Run.PostTracks(v, w, t, byAlice, plain, nonce);
  }

  datatype Words = Words(id: string, payload: Payload, token: string, rid: string, nonce: nat, ts: int)

  function Said(s: Store, p: Party, x: Words): Result<(MessageFrame, Store), SendError> {
    EncryptForSend(s, p.peer, x.id, x.payload, None, x.token, x.rid, x.nonce, x.ts)
  }

  function PlainOf(s: Store, x: Words): Plaintext {
    Wrap(s.name, x.token, x.rid, x.payload)
  }

  /** The side's sessions after it sent: the session sent on has one more letter. */
  function DuoSaid(s: Store, p: Party, d: Duo, adopted: bool, x: Words, v: Run.View<Plaintext>): Duo {
    if SendsOnTheirs(p, adopted) then d.(peer := Posted(d.peer, PeerTerms(p), false, PlainOf(s, x), x.nonce),
                                         peerView := v)
    else d.(own := Posted(d.own, OwnTerms(p), true, PlainOf(s, x), x.nonce), ownView := v)
  }

  /** The number of the next message still fits its field. */
  predicate MaySay(p: Party, d: Duo, adopted: bool) {
    (if SendsOnTheirs(p, adopted) then d.peer.bob else d.own.alice).sendNumber + 1 < U32
  }

  /** What a send appends to the mail of the session it is sent on. */
  predicate Appended(before: seq<Run.Letter<Plaintext>>, mail: seq<Run.Letter<Plaintext>>, f: MessageFrame,
                     toAlice: bool, plain: Plaintext) {
    mail == before + [Run.Letter(toAlice, f.frame, plain)]
  }

  lemma SideSays(s: Store, p: Party, d: Duo, adopted: bool, x: Words) returns (d': Duo)
    requires DuoOk(p, d) && SideOk(s, p, d.own.alice, d.peer.bob, adopted) && MaySay(p, d, adopted)
    ensures DuoOk(p, d')
    ensures d' == DuoSaid(s, p, d, adopted, x, if SendsOnTheirs(p, adopted) then d'.peerView else d'.ownView)
    ensures var r := Said(s, p, x);
            if r.Err? then d'.own == d.own && d'.peer == d.peer
            else
              && SideOk(r.value.1, p, d'.own.alice, d'.peer.bob, adopted)
              && r.value.1.processed == s.processed
              && r.value.0.id == x.id && r.value.0.from == Some(s.name) && r.value.0.x3dh.None?
              && (if SendsOnTheirs(p, adopted) then
                    Appended(d.peer.mail, d'.peer.mail, r.value.0, true, PlainOf(s, x)) && d'.peer.read == d.peer.read
                  else Appended(d.own.mail, d'.own.mail, r.value.0, false, PlainOf(s, x)) && d'.own.read == d.own.read)
  {
    Sends(s, p, d.own.alice, d.peer.bob, adopted, x.id, x.payload, x.token, x.rid, x.nonce, x.ts);
    if SendsOnTheirs(p, adopted) {
      var v := Posts(d.peerView, d.peer, PeerTerms(p), false, PlainOf(s, x), x.nonce);
      d' := DuoSaid(s, p, d, adopted, x, v);
    } else {
      var v := Posts(d.ownView, d.own, OwnTerms(p), true, PlainOf(s, x), x.nonce);
      d' := DuoSaid(s, p, d, adopted, x, v);
    }
  }
}
