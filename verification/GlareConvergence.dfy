/** How a glare begins, and the two promises about every way it can go on. */
module GlareConvergence {
  import opened Crypto
  import opened Ratchet
  import opened X3dh
  import opened SessionRecord
  import opened SessionSet
  import opened Messaging
  import opened GlareSide
  import opened Glare
  import opened GlareRun
  import Run = RatchetRun
  import Script = RatchetScript

  /** What one side draws and is given for its first message. */
  datatype Draw = Draw(ephemeral: nat, newKey: nat, oneTime: Option<nat>, token: Option<string>, words: Words)

  function BundleOf(peer: Store, oneTime: Option<nat>): Bundle {
    Published(peer.me, peer.signedPreKey, oneTime)
  }

  function Hello(s: Store, d: Draw): Handshake {
    Handshake(Public(s.me), Point(d.ephemeral), if d.oneTime.Some? then Some(Point(d.oneTime.value)) else None)
  }

  function Ensure(s: Store, peer: Store, d: Draw): (Ensured, Store) {
    EnsureSession(s, peer.name, Found(BundleOf(peer, d.oneTime), d.token), d.ephemeral, d.newKey)
  }

  /** The first send to a peer there is no session with: handshake, then encrypt. */
  function FirstSend(s: Store, peer: Store, d: Draw): Result<(MessageFrame, Store), SendError> {
    var (e, s1) := Ensure(s, peer, d);
    EncryptForSend(s1, peer.name, d.words.id, d.words.payload, if e.Ensured? then e.pending else None,
                   d.words.token, d.words.rid, d.words.nonce, d.words.ts)
  }

  function Shared(s: Store, peer: Store, d: Draw): Agreed {
    Initiate(s.me, BundleOf(peer, d.oneTime), d.ephemeral).value
  }

  function PartyFor(s: Store, peer: Store, mine: Draw, theirs: Draw): Party {
    var own, other := Shared(s, peer, mine), Shared(peer, s, theirs);
    Party(s.name, peer.name, s.me, s.signedPreKey, Hello(peer, theirs), own.secret, own.ad, other.secret, other.ad)
  }

  /** The session a side starts, after its first message. */
  function FirstWorld(s: Store, peer: Store, d: Draw): Run.World<Plaintext> {
    var a := Shared(s, peer, d);
    var t := Run.Terms(a.secret, a.ad, DEFAULT_MAX_SKIP);
    Posted(Run.Start(t, peer.signedPreKey, d.newKey), t, true, PlainOf(s, d.words), d.words.nonce)
  }

  /** No session with the peer yet, and the one-time prekey the peer was given is still kept. */
  predicate Unmet(s: Store, peer: Store, theirs: Draw) {
    peer.name !in s.sessions && (theirs.oneTime.Some? ==> theirs.oneTime.value in s.oneTime)
  }

  lemma Ensures(s: Store, peer: Store, mine: Draw)
    requires peer.name !in s.sessions
    ensures var (e, s1) := Ensure(s, peer, mine);
            var a := Shared(s, peer, mine);
            var session := InitInitiator(a.secret, Point(peer.signedPreKey), mine.newKey);
            && e == Ensured(Some(Hello(s, mine)))
            && s1 == s.(sessions := s.sessions[peer.name := Stored([Held(session, a.ad)], 0)], contacts := s1.contacts)
            && peer.name in s1.contacts && s1.contacts[peer.name].identity == Public(peer.me)
  {
  }

  lemma Answers(s: Store, peer: Store, theirs: Draw)
    requires theirs.oneTime.Some? ==> theirs.oneTime.value in s.oneTime
    ensures var h := Hello(peer, theirs);
            Respond(s.me, s.signedPreKey, Take(s, h.oneTime).0, h.identity.dh, h.ephemeral) == Shared(peer, s, theirs)
  {
  }

  /** After its first message a side holds its own session and waits for the peer's. */
  lemma SideBegins(s: Store, peer: Store, mine: Draw, theirs: Draw)
    requires Unmet(s, peer, theirs)
    ensures var r := FirstSend(s, peer, mine);
            && r.Ok?
            && SideOk(r.value.1, PartyFor(s, peer, mine, theirs), FirstWorld(s, peer, mine).alice,
                      FirstWorld(peer, s, theirs).bob, false)
            && r.value.1.processed == s.processed
            && r.value.0.id == mine.words.id && r.value.0.from == Some(s.name) && r.value.0.x3dh == Some(Hello(s, mine))
            && FirstWorld(s, peer, mine).mail == [Run.Letter(false, r.value.0.frame, PlainOf(s, mine.words))]
  {
    Ensures(s, peer, mine);
    Answers(s, peer, theirs);
  }

  lemma FirstSlot(v: Run.View<Plaintext>, w: Run.World<Plaintext>, t: Run.Terms, nonce: nat, dh: Point)
    requires Run.Tracks(v, w, t) && |w.mail| > 0
    requires w.mail[0].frame.header == SealHeader(HeaderA(t.secret), nonce, Header(dh, 0, 0))
    ensures Follows(v, w, t)
  {
  }

  lemma WorldBegins(s: Store, peer: Store, d: Draw) returns (v: Run.View<Plaintext>)
    ensures Follows(v, FirstWorld(s, peer, d), Run.Terms(Shared(s, peer, d).secret, Shared(s, peer, d).ad,
                                                         DEFAULT_MAX_SKIP))
  {
    var a := Shared(s, peer, d);
    var t := Run.Terms(a.secret, a.ad, DEFAULT_MAX_SKIP);
    var start: Run.World<Plaintext> := Run.Start(t, peer.signedPreKey, d.newKey);
    var v0 := Run.StartTracks<Plaintext>(t, peer.signedPreKey, d.newKey);
    v := Run.PostTracks(v0, start, t, true, PlainOf(s, d.words), d.words.nonce);
    FirstSlot(v, FirstWorld(s, peer, d), t, d.words.nonce, Point(d.newKey));
  }

  // ---- the beginning ----

  /** Both users know each other's bundle and nothing more; every value drawn is new. */
  ghost predicate Glaring(lo: Store, hi: Store, a: Draw, b: Draw) {
    && IsDesignatedInitiator(lo.name, hi.name)
    && Unmet(lo, hi, b) && Unmet(hi, lo, a)
    && a.ephemeral != b.ephemeral && a.ephemeral != lo.me.dh
    && a.words.id != b.words.id
    && a.words.id !in hi.processed && b.words.id !in lo.processed
  }

  function PairFor(lo: Store, hi: Store, a: Draw, b: Draw): Pair {
    Pair(PartyFor(lo, hi, a, b), PartyFor(hi, lo, b, a))
  }

  /** Each sends its first message before either has read anything. */
  function Begin(lo: Store, hi: Store, a: Draw, b: Draw): (w: Two)
    requires Glaring(lo, hi, a, b)
    ensures |w.wire| == 2 && !w.wire[0].toLo && w.wire[1].toLo
  {
    SideBegins(lo, hi, a, b);
    SideBegins(hi, lo, b, a);
    var x, y := FirstSend(lo, hi, a).value, FirstSend(hi, lo, b).value;
    Two(x.1, y.1, [Parcel(false, x.0, PlainOf(lo, a.words)), Parcel(true, y.0, PlainOf(hi, b.words))])
  }

  lemma PairIsPaired(lo: Store, hi: Store, a: Draw, b: Draw)
    requires Glaring(lo, hi, a, b)
    ensures Paired(PairFor(lo, hi, a, b))
  {
    OneDesignatedInitiator(lo.name, hi.name);
  }

  lemma SecretsDiffer(lo: Store, hi: Store, a: Draw, b: Draw)
    requires Glaring(lo, hi, a, b)
    ensures var p := PartyFor(lo, hi, a, b);
            p.ownSecret != p.peerSecret && !p.ownSecret.RootOf? && !p.peerSecret.RootOf?
  {
    CrossedSecretsDiffer(lo.me, hi.me, BundleOf(lo, b.oneTime), BundleOf(hi, a.oneTime), a.ephemeral, b.ephemeral);
  }

  lemma DuoBegins(lo: Store, hi: Store, a: Draw, b: Draw) returns (d: Duo)
    requires Glaring(lo, hi, a, b)
    ensures DuoOk(PartyFor(lo, hi, a, b), d) && d.own == FirstWorld(lo, hi, a) && d.peer == FirstWorld(hi, lo, b)
  {
    SecretsDiffer(lo, hi, a, b);
    var lv := WorldBegins(lo, hi, a);
    var hv := WorldBegins(hi, lo, b);
    d := Duo(FirstWorld(lo, hi, a), lv, FirstWorld(hi, lo, b), hv);
  }

  /** The first frame is the first letter of the session, with the handshake on it. */
  lemma FrameBegins(s: Store, peer: Store, mine: Draw, theirs: Draw)
    requires Unmet(s, peer, theirs)
    ensures var r := FirstSend(s, peer, mine);
            && r.Ok? && r.value.0.id == mine.words.id && r.value.0.from == Some(s.name)
            && r.value.0.x3dh == Some(Hello(s, mine))
            && FirstWorld(s, peer, mine).mail == [Run.Letter(false, r.value.0.frame, PlainOf(s, mine.words))]
  {
    SideBegins(s, peer, mine, theirs);
  }

  lemma TwoParcels(c: Pair, l: seq<Run.Letter<Plaintext>>, h: seq<Run.Letter<Plaintext>>, x: Parcel, y: Parcel)
    requires |l| == |h| == 1 && !x.toLo && y.toLo && x.frame.id != y.frame.id
    requires ParcelOk(c, l, h, x, Origin(true, 0)) && ParcelOk(c, l, h, y, Origin(false, 0))
    ensures WireOk(c, l, h, [x, y], [Origin(true, 0), Origin(false, 0)])
  {
  }

  lemma ParcelsBegin(lo: Store, hi: Store, a: Draw, b: Draw)
    requires Glaring(lo, hi, a, b)
    ensures var w, c := Begin(lo, hi, a, b), PairFor(lo, hi, a, b);
            var l, h := FirstWorld(lo, hi, a).mail, FirstWorld(hi, lo, b).mail;
            && |l| == |h| == 1 && w.wire[0].frame.id == a.words.id && w.wire[1].frame.id == b.words.id
            && ParcelOk(c, l, h, w.wire[0], Origin(true, 0)) && ParcelOk(c, l, h, w.wire[1], Origin(false, 0))
  {
    FrameBegins(lo, hi, a, b);
    FrameBegins(hi, lo, b, a);
  }

  lemma WireBegins(lo: Store, hi: Store, a: Draw, b: Draw)
    requires Glaring(lo, hi, a, b)
    ensures WireOk(PairFor(lo, hi, a, b), FirstWorld(lo, hi, a).mail, FirstWorld(hi, lo, b).mail,
                   Begin(lo, hi, a, b).wire,
                   [Origin(true, 0), Origin(false, 0)])
  {
    ParcelsBegin(lo, hi, a, b);
    var w := Begin(lo, hi, a, b);
    TwoParcels(PairFor(lo, hi, a, b), FirstWorld(lo, hi, a).mail, FirstWorld(hi, lo, b).mail, w.wire[0], w.wire[1]);
  }

  lemma BooksBegin(lo: Store, hi: Store, a: Draw, b: Draw, g: Story)
    requires Glaring(lo, hi, a, b)
    requires g.l == FirstWorld(lo, hi, a) && g.h == FirstWorld(hi, lo, b) && !g.loAdopted && !g.hiAdopted
    requires g.of == [Origin(true, 0), Origin(false, 0)] && g.l.read == [] && g.h.read == []
    ensures Booked(PairFor(lo, hi, a, b), Begin(lo, hi, a, b), g)
  {
    WireBegins(lo, hi, a, b);
    SideBegins(lo, hi, a, b);
    SideBegins(hi, lo, b, a);
  }

  lemma ReadsBegin(s: Store, peer: Store, d: Draw)
    ensures FirstWorld(s, peer, d).read == []
  {
  }

  lemma Begins(lo: Store, hi: Store, a: Draw, b: Draw) returns (g: Story)
    requires Glaring(lo, hi, a, b)
    ensures StoryOk(PairFor(lo, hi, a, b), Begin(lo, hi, a, b), g)
  {
    var d := DuoBegins(lo, hi, a, b);
    g := Story(d.own, d.ownView, d.peer, d.peerView, false, false, [Origin(true, 0), Origin(false, 0)]);
    assert LoDuo(g) == d;
    PairIsPaired(lo, hi, a, b);
    ReadsBegin(lo, hi, a);
    ReadsBegin(hi, lo, b);
    BooksBegin(lo, hi, a, b, g);
  }

  // ---- the promises ----

  ghost predicate BothHeard(w: Two) {
    |w.wire| >= 2 && Processed(w, w.wire[0]) && Processed(w, w.wire[1])
  }

  /** The X3DH secret behind the session that outgoing messages are encrypted on. */
  function CurrentSecret(s: Store, peer: string): Option<Key> {
    match Current(s, peer)
    case None => None
    case Some(session) => Some(Run.RootOrigin(session.root))
  }

  lemma ConvergedSecrets(c: Pair, w: Two, g: Story)
    requires StoryOk(c, w, g) && BothHeard(w)
    ensures CurrentSecret(w.lo, c.lo.peer) == CurrentSecret(w.hi, c.hi.peer) == Some(c.lo.ownSecret)
  {
    Converged(c, w, g);
  }

  lemma Reached(lo: Store, hi: Store, a: Draw, b: Draw, evs: seq<Event>) returns (g: Story)
    requires Glaring(lo, hi, a, b) && AllowedAll(Begin(lo, hi, a, b), PairFor(lo, hi, a, b), evs)
    ensures StoryOk(PairFor(lo, hi, a, b), StepAll(Begin(lo, hi, a, b), PairFor(lo, hi, a, b), evs), g)
  {
    var g0 := Begins(lo, hi, a, b);
    g := RunKeeps(PairFor(lo, hi, a, b), Begin(lo, hi, a, b), g0, evs);
  }

  /**
   Convergence. Whatever is sent, and in whatever order it is delivered or redelivered, once each
   side has processed the other's first message both send on sessions with one X3DH secret: the
   one the designated initiator made.
   */
  lemma GlareConverges(lo: Store, hi: Store, a: Draw, b: Draw, evs: seq<Event>)
    requires Glaring(lo, hi, a, b) && AllowedAll(Begin(lo, hi, a, b), PairFor(lo, hi, a, b), evs)
    ensures var w := StepAll(Begin(lo, hi, a, b), PairFor(lo, hi, a, b), evs);
            BothHeard(w) ==>
              CurrentSecret(w.lo, hi.name) == CurrentSecret(w.hi, lo.name) == Some(Shared(lo, hi, a).secret)
  {
    var g := Reached(lo, hi, a, b, evs);
    var w := StepAll(Begin(lo, hi, a, b), PairFor(lo, hi, a, b), evs);
    if BothHeard(w) {
      ConvergedSecrets(PairFor(lo, hi, a, b), w, g);
    }
  }

  /** The parcel is the peer's first message, or comes after it was processed. */
  ghost predicate Due(w: Two, c: Pair, k: nat)
    requires k < |w.wire| && |w.wire| >= 2
  {
    var x := w.wire[k];
    x.frame.x3dh.Some? || Processed(w, w.wire[if x.toLo then 1 else 0])
  }

  /**
   What becomes of every message, exactly. In every reachable state, for each message in flight on
   either session: when it is delivered next it is read as it was said if and only if it does not
   overtake the peer's first message, which only messages of the peer's session can, and its session
   can still read it (not read, not evicted, no gap that is too long). One that overtook the first
   message is left untouched for redelivery.
   */
  lemma MessagesReadExactly(lo: Store, hi: Store, a: Draw, b: Draw, evs: seq<Event>) returns (g: Story)
    requires Glaring(lo, hi, a, b) && AllowedAll(Begin(lo, hi, a, b), PairFor(lo, hi, a, b), evs)
    ensures var c, w := PairFor(lo, hi, a, b), StepAll(Begin(lo, hi, a, b), PairFor(lo, hi, a, b), evs);
            && StoryOk(c, w, g)
            && (forall k, env :: 0 <= k < |w.wire| && !Processed(w, w.wire[k]) ==>
                  && Fated(c, w, g, k, env)
                  && (CanRead(g, w.wire[k], g.of[k]) <==> Due(w, c, k) || !OfPeer(w.wire[k], g.of[k])))
  {
    var c := PairFor(lo, hi, a, b);
    g := Reached(lo, hi, a, b, evs);
    var w := StepAll(Begin(lo, hi, a, b), c, evs);
    forall k, env | 0 <= k < |w.wire| && !Processed(w, w.wire[k])
      ensures Fated(c, w, g, k, env)
      ensures CanRead(g, w.wire[k], g.of[k]) <==> Due(w, c, k) || !OfPeer(w.wire[k], g.of[k])
    {
      ParcelReads(c, w, g, k, env);
      assert ParcelOk(c, g.l.mail, g.h.mail, w.wire[k], g.of[k]);
    }
  }

  /**
   Nothing is lost while no more was sent than may be skipped: each message in flight is read as it
   was said the next time it is delivered, or, if it overtook the peer's first message, is left
   untouched for redelivery.
   */
  lemma EveryMessageReadable(lo: Store, hi: Store, a: Draw, b: Draw, evs: seq<Event>, k: nat, env: Env)
    requires Glaring(lo, hi, a, b) && AllowedAll(Begin(lo, hi, a, b), PairFor(lo, hi, a, b), evs)
    requires var w := StepAll(Begin(lo, hi, a, b), PairFor(lo, hi, a, b), evs);
             k < |w.wire| <= DEFAULT_MAX_SKIP && !Processed(w, w.wire[k])
    ensures var w := StepAll(Begin(lo, hi, a, b), PairFor(lo, hi, a, b), evs);
            var x := w.wire[k];
            var s := StoreOf(w, x.toLo);
            && |w.wire| >= 2
            && (Took(s, x.frame, env, x.said) || DecryptIncoming(s, x.frame, env) == Received(Retry, s))
            && (Due(w, PairFor(lo, hi, a, b), k) ==> Took(s, x.frame, env, x.said))
  {
    var g := MessagesReadExactly(lo, hi, a, b, evs);
    var c, w := PairFor(lo, hi, a, b), StepAll(Begin(lo, hi, a, b), PairFor(lo, hi, a, b), evs);
    ShortWireReads(c, w, g, k);
    assert Fated(c, w, g, k, env);
  }
}
