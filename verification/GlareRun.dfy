/** Both sides of a glare together, and the wire between them. */
module GlareRun {
  import opened Crypto
  import opened Ratchet
  import opened X3dh
  import opened SessionRecord
  import opened SessionSet
  import opened Messaging
  import opened GlareSide
  import opened Glare
  import Run = RatchetRun
  import Inbox

  /** A frame on the server-stamped path, and what was said in it. The wire keeps every frame. */
  datatype Parcel = Parcel(toLo: bool, frame: MessageFrame, said: Plaintext)

  /** `lo` is the designated initiator. */
  datatype Two = Two(lo: Store, hi: Store, wire: seq<Parcel>)

  datatype Event = Say(byLo: bool, words: Words) | Arrive(parcel: nat, env: Env)

  datatype Pair = Pair(lo: Party, hi: Party)

  function Step(w: Two, c: Pair, ev: Event): Two {
    match ev
    case Say(byLo, x) => (
      match Said(if byLo then w.lo else w.hi, if byLo then c.lo else c.hi, x)
      case Err(_) => w
      case Ok((frame, s')) =>
        Two(if byLo then s' else w.lo, if byLo then w.hi else s',
            w.wire + [Parcel(!byLo, frame, PlainOf(if byLo then w.lo else w.hi, x))]))
    case Arrive(k, env) =>
      if k >= |w.wire| then w
      else
        var x := w.wire[k];
        var s' := DecryptIncoming(if x.toLo then w.lo else w.hi, x.frame, env).store;
        if x.toLo then w.(lo := s') else w.(hi := s')
  }

  function StepAll(w: Two, c: Pair, evs: seq<Event>): Two
    decreases |evs|
  {
    if evs == [] then w else StepAll(Step(w, c, evs[0]), c, evs[1..])
  }

  // ---- the story behind the two stores ----

  /** Which session a parcel belongs to, and which letter of it. */
  datatype Origin = Origin(inLo: bool, letter: nat)

  /** The session `lo` started, the one `hi` started, and who adopted the other's. */
  datatype Story = Story(
    l: Run.World<Plaintext>, lv: Run.View<Plaintext>,
    h: Run.World<Plaintext>, hv: Run.View<Plaintext>,
    loAdopted: bool, hiAdopted: bool, of: seq<Origin>)

  function LoDuo(g: Story): Duo {
    Duo(g.l, g.lv, g.h, g.hv)
  }

  function HiDuo(g: Story): Duo {
    Duo(g.h, g.hv, g.l, g.lv)
  }

  ghost predicate Paired(c: Pair) {
    && c.lo.name == c.hi.peer && c.hi.name == c.lo.peer
    && c.lo.ownSecret == c.hi.peerSecret && c.lo.ownAd == c.hi.peerAd
    && c.hi.ownSecret == c.lo.peerSecret && c.hi.ownAd == c.lo.peerAd
    && IsDesignatedInitiator(c.lo.name, c.hi.name) && !IsDesignatedInitiator(c.hi.name, c.lo.name)
  }

  predicate OfPeer(x: Parcel, o: Origin) {
    o.inLo != x.toLo
  }

  predicate ParcelOk(c: Pair, l: seq<Run.Letter<Plaintext>>, h: seq<Run.Letter<Plaintext>>, x: Parcel, o: Origin) {
    var mail := if o.inLo then l else h;
    CarriesIn(if x.toLo then c.lo else c.hi, mail, x.frame, OfPeer(x, o), o.letter) && x.said == mail[o.letter].plain
  }

  ghost predicate WireOk(c: Pair, l: seq<Run.Letter<Plaintext>>, h: seq<Run.Letter<Plaintext>>, wire: seq<Parcel>,
                         of: seq<Origin>) {
    && |wire| == |of| >= 2 && |l| + |h| == |wire|
    && (forall k :: 0 <= k < |wire| ==> ParcelOk(c, l, h, wire[k], of[k]))
    && (forall j, k :: 0 <= j < k < |wire| ==> wire[j].frame.id != wire[k].frame.id)
    && (forall j, k :: 0 <= j < k < |wire| ==> of[j] != of[k])
    && of[0] == Origin(true, 0) && !wire[0].toLo && of[1] == Origin(false, 0) && wire[1].toLo
  }

  predicate Processed(w: Two, x: Parcel) {
    x.frame.id in (if x.toLo then w.lo else w.hi).processed
  }

  function WorldOf(g: Story, o: Origin): Run.World<Plaintext> {
    if o.inLo then g.l else g.h
  }

  /** A letter that was read has its parcel processed. */
  ghost predicate ReadMarked(w: Two, g: Story) {
    |w.wire| == |g.of|
    && forall k :: 0 <= k < |w.wire| ==>
         (Run.WasRead(WorldOf(g, g.of[k]).read, g.of[k].letter) ==> Processed(w, w.wire[k]))
  }

  ghost predicate SidesOk(c: Pair, w: Two, g: Story) {
    && SideOk(w.lo, c.lo, g.l.alice, g.h.bob, g.loAdopted)
    && SideOk(w.hi, c.hi, g.h.alice, g.l.bob, g.hiAdopted)
  }

  /** A side adopted the other's session exactly when it processed the other's first message. */
  ghost predicate AdoptedWhenProcessed(w: Two, g: Story) {
    |w.wire| >= 2 && (g.hiAdopted <==> Processed(w, w.wire[0])) && (g.loAdopted <==> Processed(w, w.wire[1]))
  }

  ghost predicate Booked(c: Pair, w: Two, g: Story) {
    SidesOk(c, w, g) && WireOk(c, g.l.mail, g.h.mail, w.wire, g.of) && ReadMarked(w, g) && AdoptedWhenProcessed(w, g)
  }

  ghost predicate StoryOk(c: Pair, w: Two, g: Story) {
    Paired(c) && DuoOk(c.lo, LoDuo(g)) && Booked(c, w, g)
  }

  // ---- an arrival ----

  lemma ReadGrows(w: Run.World<Plaintext>, t: Run.Terms, k: nat, newKey: nat, j: nat)
    requires Run.WasRead(Delivered(w, t, k, newKey).read, j)
    ensures Run.WasRead(w.read, j) || j == k
  {
  }

  lemma MailStays(w: Run.World<Plaintext>, t: Run.Terms, k: nat, newKey: nat)
    ensures Delivered(w, t, k, newKey).mail == w.mail
    ensures k < |w.mail| && w.mail[k].toAlice ==> Delivered(w, t, k, newKey).bob == w.bob
    ensures k < |w.mail| && !w.mail[k].toAlice ==> Delivered(w, t, k, newKey).alice == w.alice
  {
  }

  /** The letters of two parcels differ, so a processed hello cannot be the parcel at hand. */
  lemma HelloOnce(c: Pair, w: Two, g: Story, k: nat)
    requires WireOk(c, g.l.mail, g.h.mail, w.wire, g.of) && AdoptedWhenProcessed(w, g) && k < |w.wire|
    requires !Processed(w, w.wire[k])
    ensures OfPeer(w.wire[k], g.of[k]) && (if w.wire[k].toLo then g.loAdopted else g.hiAdopted) ==> g.of[k].letter != 0
  {
  }

  function StoryAfter(g: Story, toLo: bool, d: Duo, adopts: bool): Story {
    if toLo then Story(d.own, d.ownView, d.peer, d.peerView, g.loAdopted || adopts, g.hiAdopted, g.of)
    else Story(d.peer, d.peerView, d.own, d.ownView, g.loAdopted, g.hiAdopted || adopts, g.of)
  }

  function StoreOf(w: Two, toLo: bool): Store {
    if toLo then w.lo else w.hi
  }

  function PartyOf(c: Pair, toLo: bool): Party {
    if toLo then c.lo else c.hi
  }

  function DuoOf(g: Story, toLo: bool): Duo {
    if toLo then LoDuo(g) else HiDuo(g)
  }

  function AdoptedBy(g: Story, toLo: bool): bool {
    if toLo then g.loAdopted else g.hiAdopted
  }

  lemma EitherDuo(c: Pair, g: Story, toLo: bool)
    requires Paired(c)
    ensures DuoOk(PartyOf(c, toLo), DuoOf(g, toLo)) <==> DuoOk(c.lo, LoDuo(g))
  {
  }

  /** What a delivery to one side leaves alone: all letters, and the far ends of both sessions. */
  lemma MovedLeaves(s: Store, p: Party, d: Duo, d': Duo, adopted: bool, f: MessageFrame, ofPeer: bool, k: nat, env: Env)
    requires Moved(s, p, d, d', adopted, f, ofPeer, k, env) && Carries(p, d, f, ofPeer, k)
    ensures d'.own.mail == d.own.mail && d'.peer.mail == d.peer.mail
    ensures d'.own.bob == d.own.bob && d'.peer.alice == d.peer.alice
    ensures forall j :: Run.WasRead(d'.own.read, j) ==>
              Run.WasRead(d.own.read, j) || (!ofPeer && j == k && f.id in DecryptIncoming(s, f, env).store.processed)
    ensures forall j :: Run.WasRead(d'.peer.read, j) ==>
              Run.WasRead(d.peer.read, j) || (ofPeer && j == k && f.id in DecryptIncoming(s, f, env).store.processed)
  {
    if ofPeer {
      MailStays(d.peer, PeerTerms(p), k, env.newKey);
      forall j | Run.WasRead(d'.peer.read, j) && d'.peer != d.peer ensures Run.WasRead(d.peer.read, j) || j == k {
        ReadGrows(d.peer, PeerTerms(p), k, env.newKey, j);
      }
    } else {
      MailStays(d.own, OwnTerms(p), k, env.newKey);
      forall j | Run.WasRead(d'.own.read, j) && d'.own != d.own ensures Run.WasRead(d.own.read, j) || j == k {
        ReadGrows(d.own, OwnTerms(p), k, env.newKey, j);
      }
    }
  }

  lemma ArrivedMarks(c: Pair, w: Two, g: Story, w': Two, g': Story, k: nat)
    requires WireOk(c, g.l.mail, g.h.mail, w.wire, g.of) && ReadMarked(w, g) && k < |w.wire|
    requires w'.wire == w.wire && g'.of == g.of && w.lo.processed <= w'.lo.processed
    requires w.hi.processed <= w'.hi.processed
    requires forall j :: Run.WasRead(g'.l.read, j) ==>
               Run.WasRead(g.l.read, j) || (Origin(true, j) == g.of[k] && Processed(w', w.wire[k]))
    requires forall j :: Run.WasRead(g'.h.read, j) ==>
               Run.WasRead(g.h.read, j) || (Origin(false, j) == g.of[k] && Processed(w', w.wire[k]))
    ensures ReadMarked(w', g')
  {
  }

  lemma ArrivedAdopts(c: Pair, w: Two, g: Story, w': Two, g': Story, k: nat)
    requires WireOk(c, g.l.mail, g.h.mail, w.wire, g.of) && AdoptedWhenProcessed(w, g) && k < |w.wire|
    requires w'.wire == w.wire
    requires var x := w.wire[k];
             var s, s' := StoreOf(w, x.toLo), StoreOf(w', x.toLo);
             && StoreOf(w', !x.toLo) == StoreOf(w, !x.toLo)
             && s.processed <= s'.processed <= s.processed + {x.frame.id}
             && (OfPeer(x, g.of[k]) && g.of[k].letter == 0 ==> x.frame.id in s'.processed)
             && AdoptedBy(g', x.toLo) == (AdoptedBy(g, x.toLo) || (OfPeer(x, g.of[k]) && g.of[k].letter == 0))
             && AdoptedBy(g', !x.toLo) == AdoptedBy(g, !x.toLo)
    ensures AdoptedWhenProcessed(w', g')
  {
  }

  ghost predicate MovedAt(c: Pair, w: Two, g: Story, k: nat, env: Env, d': Duo)
    requires k < |w.wire| == |g.of|
  {
    var x := w.wire[k];
    Moved(StoreOf(w, x.toLo), PartyOf(c, x.toLo), DuoOf(g, x.toLo), d', AdoptedBy(g, x.toLo), x.frame,
          OfPeer(x, g.of[k]), g.of[k].letter, env)
  }

  function StoryAt(w: Two, g: Story, k: nat, d': Duo): Story
    requires k < |w.wire| == |g.of|
  {
    var x := w.wire[k];
    StoryAfter(g, x.toLo, d', OfPeer(x, g.of[k]) && g.of[k].letter == 0)
  }

  lemma ArrivedSides(c: Pair, w: Two, g: Story, k: nat, env: Env, d': Duo)
    requires k < |w.wire| == |g.of| && SidesOk(c, w, g) && MovedAt(c, w, g, k, env, d')
    requires ParcelOk(c, g.l.mail, g.h.mail, w.wire[k], g.of[k])
    ensures SidesOk(c, Step(w, c, Arrive(k, env)), StoryAt(w, g, k, d'))
    ensures StoryAt(w, g, k, d').l.mail == g.l.mail && StoryAt(w, g, k, d').h.mail == g.h.mail
  {
    var x := w.wire[k];
    MovedLeaves(StoreOf(w, x.toLo), PartyOf(c, x.toLo), DuoOf(g, x.toLo), d', AdoptedBy(g, x.toLo), x.frame,
                OfPeer(x, g.of[k]), g.of[k].letter, env);
  }

  lemma ArrivedBooks(c: Pair, w: Two, g: Story, k: nat, env: Env, d': Duo)
    requires WireOk(c, g.l.mail, g.h.mail, w.wire, g.of) && ReadMarked(w, g) && AdoptedWhenProcessed(w, g)
    requires k < |w.wire| && MovedAt(c, w, g, k, env, d')
    ensures ReadMarked(Step(w, c, Arrive(k, env)), StoryAt(w, g, k, d'))
    ensures AdoptedWhenProcessed(Step(w, c, Arrive(k, env)), StoryAt(w, g, k, d'))
  {
    assert ParcelOk(c, g.l.mail, g.h.mail, w.wire[k], g.of[k]);
    ArrivedReads(c, w, g, k, env, d');
    ArrivedMarks(c, w, g, Step(w, c, Arrive(k, env)), StoryAt(w, g, k, d'), k);
    ArrivedAdopts(c, w, g, Step(w, c, Arrive(k, env)), StoryAt(w, g, k, d'), k);
  }

  /** Only the letter at hand can have been read newly, and then its parcel is processed. */
  lemma ArrivedReads(c: Pair, w: Two, g: Story, k: nat, env: Env, d': Duo)
    requires k < |w.wire| == |g.of| && MovedAt(c, w, g, k, env, d')
    requires ParcelOk(c, g.l.mail, g.h.mail, w.wire[k], g.of[k])
    ensures var w', g' := Step(w, c, Arrive(k, env)), StoryAt(w, g, k, d');
            && (forall j :: Run.WasRead(g'.l.read, j) ==>
                  Run.WasRead(g.l.read, j) || (Origin(true, j) == g.of[k] && Processed(w', w.wire[k])))
            && (forall j :: Run.WasRead(g'.h.read, j) ==>
                  Run.WasRead(g.h.read, j) || (Origin(false, j) == g.of[k] && Processed(w', w.wire[k])))
  {
    var x := w.wire[k];
    MovedLeaves(StoreOf(w, x.toLo), PartyOf(c, x.toLo), DuoOf(g, x.toLo), d', AdoptedBy(g, x.toLo), x.frame,
                OfPeer(x, g.of[k]), g.of[k].letter, env);
  }

  lemma ArriveMoves(c: Pair, w: Two, g: Story, k: nat, env: Env) returns (d': Duo)
    requires StoryOk(c, w, g) && k < |w.wire| && !Processed(w, w.wire[k])
    ensures MovedAt(c, w, g, k, env, d') && DuoOk(c.lo, LoDuo(StoryAt(w, g, k, d')))
  {
    var x := w.wire[k];
    assert ParcelOk(c, g.l.mail, g.h.mail, x, g.of[k]);
    HelloOnce(c, w, g, k);
    EitherDuo(c, g, x.toLo);
    d' := SideReceives(StoreOf(w, x.toLo), PartyOf(c, x.toLo), DuoOf(g, x.toLo), AdoptedBy(g, x.toLo), x.frame,
                       OfPeer(x, g.of[k]), g.of[k].letter, env);
    assert DuoOf(StoryAt(w, g, k, d'), x.toLo) == d';
    EitherDuo(c, StoryAt(w, g, k, d'), x.toLo);
  }

  lemma ArriveAgain(c: Pair, w: Two, k: nat, env: Env)
    requires k < |w.wire| && Processed(w, w.wire[k])
    ensures Step(w, c, Arrive(k, env)) == w
  {
  }

  lemma ArrivedOk(c: Pair, w: Two, g: Story, k: nat, env: Env, d': Duo)
    requires Booked(c, w, g) && k < |w.wire| && MovedAt(c, w, g, k, env, d')
    ensures Booked(c, Step(w, c, Arrive(k, env)), StoryAt(w, g, k, d'))
  {
    assert ParcelOk(c, g.l.mail, g.h.mail, w.wire[k], g.of[k]);
    ArrivedSides(c, w, g, k, env, d');
    ArrivedBooks(c, w, g, k, env, d');
    assert Step(w, c, Arrive(k, env)).wire == w.wire;
  }

  lemma ArriveKeeps(c: Pair, w: Two, g: Story, k: nat, env: Env) returns (g': Story)
    requires StoryOk(c, w, g)
    ensures StoryOk(c, Step(w, c, Arrive(k, env)), g')
  {
    g' := g;
    if k < |w.wire| {
      if Processed(w, w.wire[k]) {
        ArriveAgain(c, w, k, env);
      } else {
        var d' := ArriveMoves(c, w, g, k, env);
        g' := StoryAt(w, g, k, d');
        ArrivedOk(c, w, g, k, env, d');
      }
    }
  }

  // ---- a send ----

  /** Ids are drawn at random: a new one was never used on the wire nor marked processed. */
  ghost predicate NewId(w: Two, id: string) {
    id !in w.lo.processed && id !in w.hi.processed && forall k :: 0 <= k < |w.wire| ==> w.wire[k].frame.id != id
  }

  ghost predicate MaySayNow(c: Pair, w: Two, g: Story, byLo: bool, x: Words) {
    NewId(w, x.id) && MaySay(PartyOf(c, byLo), DuoOf(g, byLo), AdoptedBy(g, byLo))
  }

  function StorySaid(g: Story, byLo: bool, d: Duo, o: Option<Origin>): Story {
    var of := if o.Some? then g.of + [o.value] else g.of;
    if byLo then Story(d.own, d.ownView, d.peer, d.peerView, g.loAdopted, g.hiAdopted, of)
    else Story(d.peer, d.peerView, d.own, d.ownView, g.loAdopted, g.hiAdopted, of)
  }

  /** The new letter is the last of the session its sender sends on. */
  function NewOrigin(c: Pair, g: Story, byLo: bool): Origin {
    var onTheirs := SendsOnTheirs(PartyOf(c, byLo), AdoptedBy(g, byLo));
    var inLo := byLo != onTheirs;
    Origin(inLo, |WorldOf(g, Origin(inLo, 0)).mail|)
  }

  lemma PostLeaves(w: Run.World<Plaintext>, t: Run.Terms, byAlice: bool, plain: Plaintext, nonce: nat)
    ensures var w' := Posted(w, t, byAlice, plain, nonce);
            (if byAlice then w'.bob == w.bob else w'.alice == w.alice) && w'.read == w.read
  {
  }

  ghost predicate SaidAt(c: Pair, w: Two, g: Story, byLo: bool, x: Words, d': Duo) {
    var s, p, d, adopted := StoreOf(w, byLo), PartyOf(c, byLo), DuoOf(g, byLo), AdoptedBy(g, byLo);
    var r := Said(s, p, x);
    && (if SendsOnTheirs(p, adopted)
        then d'.own == d.own && d'.peer.alice == d.peer.alice && d'.peer.read == d.peer.read
        else d'.peer == d.peer && d'.own.bob == d.own.bob && d'.own.read == d.own.read)
    && (if r.Err? then d'.own == d.own && d'.peer == d.peer
        else
          && SideOk(r.value.1, p, d'.own.alice, d'.peer.bob, adopted)
          && r.value.1.processed == s.processed
          && r.value.0.id == x.id && r.value.0.from == Some(s.name) && r.value.0.x3dh.None?
          && (if SendsOnTheirs(p, adopted) then Appended(d.peer.mail, d'.peer.mail, r.value.0, true, PlainOf(s, x))
              else Appended(d.own.mail, d'.own.mail, r.value.0, false, PlainOf(s, x))))
  }

  function StorySaidAt(c: Pair, w: Two, g: Story, byLo: bool, x: Words, d': Duo): Story {
    var sent := Said(StoreOf(w, byLo), PartyOf(c, byLo), x).Ok?;
    StorySaid(g, byLo, d', if sent then Some(NewOrigin(c, g, byLo)) else None)
  }

  lemma SayMoves(c: Pair, w: Two, g: Story, byLo: bool, x: Words) returns (d': Duo)
    requires StoryOk(c, w, g) && MaySayNow(c, w, g, byLo, x)
    ensures SaidAt(c, w, g, byLo, x, d') && DuoOk(c.lo, LoDuo(StorySaidAt(c, w, g, byLo, x, d')))
  {
    var s, p, d, adopted := StoreOf(w, byLo), PartyOf(c, byLo), DuoOf(g, byLo), AdoptedBy(g, byLo);
    EitherDuo(c, g, byLo);
    d' := SideSays(s, p, d, adopted, x);
    PostLeaves(d.peer, PeerTerms(p), false, PlainOf(s, x), x.nonce);
    PostLeaves(d.own, OwnTerms(p), true, PlainOf(s, x), x.nonce);
    assert DuoOf(StorySaidAt(c, w, g, byLo, x, d'), byLo) == d';
    EitherDuo(c, StorySaidAt(c, w, g, byLo, x, d'), byLo);
  }

  lemma SaidSides(c: Pair, w: Two, g: Story, byLo: bool, x: Words, d': Duo)
    requires SidesOk(c, w, g) && SaidAt(c, w, g, byLo, x, d')
    ensures SidesOk(c, Step(w, c, Say(byLo, x)), StorySaidAt(c, w, g, byLo, x, d'))
  {
  }

  lemma ParcelsExtend(c: Pair, l: seq<Run.Letter<Plaintext>>, h: seq<Run.Letter<Plaintext>>,
                      l': seq<Run.Letter<Plaintext>>, h': seq<Run.Letter<Plaintext>>,
                      wire: seq<Parcel>, of: seq<Origin>, x: Parcel, o: Origin)
    requires WireOk(c, l, h, wire, of) && l <= l' && h <= h'
    requires ParcelOk(c, l', h', x, o) && o.letter == |if o.inLo then l else h| && |l'| + |h'| == |l| + |h| + 1
    requires forall k :: 0 <= k < |wire| ==> wire[k].frame.id != x.frame.id
    ensures WireOk(c, l', h', wire + [x], of + [o])
  {
  }

  lemma SaidWire(c: Pair, w: Two, g: Story, byLo: bool, x: Words, d': Duo)
    requires Paired(c) && WireOk(c, g.l.mail, g.h.mail, w.wire, g.of) && NewId(w, x.id) && SaidAt(c, w, g, byLo, x, d')
    requires Knows(StoreOf(w, byLo), PartyOf(c, byLo))
    ensures var w', g' := Step(w, c, Say(byLo, x)), StorySaidAt(c, w, g, byLo, x, d');
            WireOk(c, g'.l.mail, g'.h.mail, w'.wire, g'.of)
  {
    var s := StoreOf(w, byLo);
    var r := Said(s, PartyOf(c, byLo), x);
    if r.Ok? {
      var g' := StorySaidAt(c, w, g, byLo, x, d');
      var parcel := Parcel(!byLo, r.value.0, PlainOf(s, x));
      var o := NewOrigin(c, g, byLo);
      assert ParcelOk(c, g.l.mail, g.h.mail, w.wire[0], g.of[0]) && ParcelOk(c, g.l.mail, g.h.mail, w.wire[1], g.of[1]);
      assert ParcelOk(c, g'.l.mail, g'.h.mail, parcel, o);
      ParcelsExtend(c, g.l.mail, g.h.mail, g'.l.mail, g'.h.mail, w.wire, g.of, parcel, o);
    }
  }

  /** Nobody has read a letter that was not written. */
  ghost predicate ReadWritten(g: Story) {
    && (forall i :: 0 <= i < |g.l.read| ==> g.l.read[i].letter < |g.l.mail|)
    && (forall i :: 0 <= i < |g.h.read| ==> g.h.read[i].letter < |g.h.mail|)
  }

  lemma StoryReadWritten(c: Pair, g: Story)
    requires DuoOk(c.lo, LoDuo(g))
    ensures ReadWritten(g)
  {
  }

  lemma SaidMarks(c: Pair, w: Two, g: Story, byLo: bool, x: Words, d': Duo)
    requires |w.wire| > 0 && ReadWritten(g) && ReadMarked(w, g) && SaidAt(c, w, g, byLo, x, d')
    ensures ReadMarked(Step(w, c, Say(byLo, x)), StorySaidAt(c, w, g, byLo, x, d'))
  {
  }

  lemma SaidAdopts(c: Pair, w: Two, g: Story, byLo: bool, x: Words, d': Duo)
    requires AdoptedWhenProcessed(w, g) && SaidAt(c, w, g, byLo, x, d')
    ensures AdoptedWhenProcessed(Step(w, c, Say(byLo, x)), StorySaidAt(c, w, g, byLo, x, d'))
  {
  }

  lemma SaidOk(c: Pair, w: Two, g: Story, byLo: bool, x: Words, d': Duo)
    requires Paired(c) && Booked(c, w, g) && ReadWritten(g) && NewId(w, x.id) && SaidAt(c, w, g, byLo, x, d')
    ensures Booked(c, Step(w, c, Say(byLo, x)), StorySaidAt(c, w, g, byLo, x, d'))
  {
    SaidSides(c, w, g, byLo, x, d');
    SaidWire(c, w, g, byLo, x, d');
    SaidMarks(c, w, g, byLo, x, d');
    SaidAdopts(c, w, g, byLo, x, d');
  }

  lemma SayKeeps(c: Pair, w: Two, g: Story, byLo: bool, x: Words) returns (g': Story)
    requires StoryOk(c, w, g) && MaySayNow(c, w, g, byLo, x)
    ensures StoryOk(c, Step(w, c, Say(byLo, x)), g')
  {
    var d' := SayMoves(c, w, g, byLo, x);
    g' := StorySaidAt(c, w, g, byLo, x, d');
    StoryReadWritten(c, g);
    SaidOk(c, w, g, byLo, x, d');
  }

  // ---- every run ----

  /** The session outgoing messages are encrypted on. */
  function Current(s: Store, peer: string): Option<Session> {
    match LoadSet(s, peer)
    case None => None
    case Some(r) => Some(r.sessions[r.current].ratchet)
  }

  /** Ids are new, and message numbers fit their field. */
  ghost predicate Allowed(w: Two, c: Pair, ev: Event) {
    match ev
    case Arrive(_, _) => true
    case Say(byLo, x) =>
      var cur := Current(StoreOf(w, byLo), PartyOf(c, byLo).peer);
      NewId(w, x.id) && (cur.Some? ==> cur.value.sendNumber + 1 < U32)
  }

  ghost predicate AllowedAll(w: Two, c: Pair, evs: seq<Event>)
    decreases |evs|
  {
    evs == [] || (Allowed(w, c, evs[0]) && AllowedAll(Step(w, c, evs[0]), c, evs[1..]))
  }

  lemma CurrentKept(s: Store, p: Party, mine: Session, theirs: Session, adopted: bool)
    requires SideOk(s, p, mine, theirs, adopted)
    ensures Current(s, p.peer) == Some(if SendsOnTheirs(p, adopted) then theirs else mine)
  {
  }

  lemma {:induction false} RunKeeps(c: Pair, w: Two, g: Story, evs: seq<Event>) returns (g': Story)
    requires StoryOk(c, w, g) && AllowedAll(w, c, evs)
    ensures StoryOk(c, StepAll(w, c, evs), g')
    decreases |evs|
  {
    if evs == [] {
      g' := g;
    } else {
      var g1: Story;
      match evs[0] {
        case Say(byLo, x) =>
          var d := DuoOf(g, byLo);
          CurrentKept(StoreOf(w, byLo), PartyOf(c, byLo), d.own.alice, d.peer.bob, AdoptedBy(g, byLo));
          g1 := SayKeeps(c, w, g, byLo, x);
        case Arrive(k, env) =>
          g1 := ArriveKeeps(c, w, g, k, env);
      }
      g' := RunKeeps(c, Step(w, c, evs[0]), g1, evs[1..]);
    }
  }

  // ---- what follows from the story ----

  lemma RootsOf(v: Run.View<Plaintext>, w: Run.World<Plaintext>, t: Run.Terms)
    requires Run.Tracks(v, w, t) && !t.secret.RootOf?
    ensures Run.RootOrigin(w.alice.root) == t.secret && Run.RootOrigin(w.bob.root) == t.secret
  {
    Run.RootAtOrigin(v.sc.secret, v.sc.keys, v.a.epoch);
    Run.RootAtOrigin(v.sc.secret, v.sc.keys, v.b.epoch);
  }

  /** Once each processed the other's first message, both send on the session of the designated initiator. */
  lemma Converged(c: Pair, w: Two, g: Story)
    requires StoryOk(c, w, g) && Processed(w, w.wire[0]) && Processed(w, w.wire[1])
    ensures Current(w.lo, c.lo.peer) == Some(g.l.alice) && Current(w.hi, c.hi.peer) == Some(g.l.bob)
    ensures Run.RootOrigin(g.l.alice.root) == Run.RootOrigin(g.l.bob.root) == c.lo.ownSecret
  {
    CurrentKept(w.lo, c.lo, g.l.alice, g.h.bob, g.loAdopted);
    CurrentKept(w.hi, c.hi, g.h.alice, g.l.bob, g.hiAdopted);
    RootsOf(g.lv, g.l, OwnTerms(c.lo));
  }

  lemma ShortReadable(v: Run.View<Plaintext>, w: Run.World<Plaintext>, t: Run.Terms, k: nat)
    requires Run.Tracks(v, w, t) && k < |w.mail| && |w.mail| <= t.maxSkip && |w.mail| <= MAX_SKIPPED_STORED
    requires !Run.WasRead(w.read, k)
    ensures Readable(v, t, k)
  {
    assert Run.LetterOf(v.sc, v.slots[k], w.mail[k]);
    Run.Agreement(v, w, t, k, 0);
    Run.ShortMailInReach(v, w, t, k);
    Run.LosesNothing(v, w, t, k);
    Run.ReadableWhen(v.sc, Run.Recipient(v, k), v.slots[k], t.maxSkip);
  }

  /** Whether the side a parcel goes to can read its session yet. */
  ghost predicate CanRead(g: Story, x: Parcel, o: Origin) {
    InTime(AdoptedBy(g, x.toLo), OfPeer(x, o), o.letter)
  }

  /** Whether its session can read the letter: it was not read, not evicted, and opens no gap that is too long. */
  ghost predicate SessionReads(c: Pair, g: Story, o: Origin) {
    if o.inLo then LetterOpen(g.lv, g.l, OwnTerms(c.lo), o.letter) else LetterOpen(g.hv, g.h, PeerTerms(c.lo), o.letter)
  }

  /** What becomes of a parcel when it is delivered, exactly. */
  ghost predicate Fated(c: Pair, w: Two, g: Story, k: nat, env: Env)
    requires k < |w.wire| == |g.of|
  {
    var x := w.wire[k];
    var s := StoreOf(w, x.toLo);
    if !CanRead(g, x, g.of[k]) then DecryptIncoming(s, x.frame, env) == Received(Retry, s)
    else if SessionReads(c, g, g.of[k]) then Took(s, x.frame, env, x.said)
    else !Resolve(s, x.frame, env).Read?
  }

  lemma ParcelReads(c: Pair, w: Two, g: Story, k: nat, env: Env)
    requires StoryOk(c, w, g) && k < |w.wire| && !Processed(w, w.wire[k])
    ensures Fated(c, w, g, k, env)
  {
    var x, o := w.wire[k], g.of[k];
    assert ParcelOk(c, g.l.mail, g.h.mail, x, o);
    HelloOnce(c, w, g, k);
    EitherDuo(c, g, x.toLo);
    if o.inLo {
      ReadableExactly(g.lv, g.l, OwnTerms(c.lo), o.letter);
    } else {
      ReadableExactly(g.hv, g.h, PeerTerms(c.lo), o.letter);
    }
    SideReads(StoreOf(w, x.toLo), PartyOf(c, x.toLo), DuoOf(g, x.toLo), AdoptedBy(g, x.toLo), x.frame, OfPeer(x, o),
              o.letter, env);
  }

  /** While no more was sent than may be skipped, every letter not processed can be read by its session. */
  lemma ShortWireReads(c: Pair, w: Two, g: Story, k: nat)
    requires StoryOk(c, w, g) && k < |w.wire| <= DEFAULT_MAX_SKIP && !Processed(w, w.wire[k])
    ensures SessionReads(c, g, g.of[k])
  {
    var o := g.of[k];
    assert ParcelOk(c, g.l.mail, g.h.mail, w.wire[k], o);
    assert !Run.WasRead(WorldOf(g, o).read, o.letter);
    if o.inLo {
      ShortReadable(g.lv, g.l, OwnTerms(c.lo), o.letter);
      ReadableExactly(g.lv, g.l, OwnTerms(c.lo), o.letter);
    } else {
      ShortReadable(g.hv, g.h, PeerTerms(c.lo), o.letter);
      ReadableExactly(g.hv, g.h, PeerTerms(c.lo), o.letter);
    }
  }
}
