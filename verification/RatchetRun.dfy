/**
 Two parties, one shared secret, and a network that reorders, repeats, drops and injects.
 The world holds only what really exists: two session states, the letters sent so far and the
 plaintexts returned. The proofs relate it to the script and the two ideal ends.
 */
module RatchetRun {
  import opened Crypto
  import opened Ratchet
  import opened RatchetScript
  import opened RatchetAgreement

  datatype Letter<+P> = Letter(toAlice: bool, frame: Frame<P>, plain: P)

  /** A delivery that returned a plaintext. */
  datatype Reading<+P> = Reading(letter: nat, plain: P)

  datatype World<+P> = World(alice: Session, bob: Session, mail: seq<Letter<P>>, read: seq<Reading<P>>)

  datatype Event<+P> =
    | Send(byAlice: bool, plain: P, nonce: nat)
    | Deliver(letter: nat, newKey: nat)
    | Inject(toAlice: bool, frame: Frame<P>, newKey: nat)

  /** The fixed circumstances of a run. */
  datatype Terms = Terms(secret: Key, ad: AssocData, maxSkip: nat)

  function Start<P>(t: Terms, signedPreKey: nat, newKey: nat): World<P> {
    World(InitInitiator(t.secret, Point(signedPreKey), newKey), InitResponder(t.secret, signedPreKey), [], [])
  }

  function Post<P>(w: World<P>, t: Terms, byAlice: bool, plain: P, nonce: nat): World<P> {
    match Encrypt(if byAlice then w.alice else w.bob, plain, t.ad, nonce)
    case Err(_) => w
    case Ok(x) =>
      World(if byAlice then x.next else w.alice, if byAlice then w.bob else x.next,
            w.mail + [Letter(!byAlice, x.frame, plain)], w.read)
  }

  function Hand<P>(w: World<P>, t: Terms, toAlice: bool, f: Frame<P>, newKey: nat): Decrypted<P> {
    TryDecrypt(if toAlice then w.alice else w.bob, f, t.ad, t.maxSkip, newKey)
  }

  function Step<P>(w: World<P>, t: Terms, ev: Event<P>): World<P> {
    match ev
    case Send(byAlice, plain, nonce) => Post(w, t, byAlice, plain, nonce)
    case Deliver(k, newKey) =>
      if k >= |w.mail| then w
      else
        var l := w.mail[k];
        var d := Hand(w, t, l.toAlice, l.frame, newKey);
        World(if l.toAlice then d.next else w.alice, if l.toAlice then w.bob else d.next, w.mail,
              if d.outcome.Plain? then w.read + [Reading(k, d.outcome.plain)] else w.read)
    case Inject(toAlice, f, newKey) =>
      var d := Hand(w, t, toAlice, f, newKey);
      w.(alice := if toAlice then d.next else w.alice, bob := if toAlice then w.bob else d.next)
  }

  function Run<P>(w: World<P>, t: Terms, evs: seq<Event<P>>): World<P>
    decreases |evs|
  {
    if evs == [] then w else Run(Step(w, t, evs[0]), t, evs[1..])
  }

  // ---- what the environment may do ----

  function RootOrigin(k: Key): Key {
    if k.RootOf? then RootOrigin(k.root) else k
  }

  /** The shared secret a header key goes back to. */
  function HeaderOrigin(k: Key): Key {
    match k
    case HeaderA(secret) => secret
    case HeaderB(secret) => secret
    case HeaderOf(root, _) => RootOrigin(root)
    case _ => k
  }

  /** A header sealed by somebody who does not hold this session's secret. */
  predicate Foreign(secret: Key, h: SealedHeader) {
    h.JunkHeader? || HeaderOrigin(h.key) != secret
  }

  /** The shared secret a message key goes back to. */
  function ChainOrigin(k: Key): Key {
    match k
    case NextChain(chain) => ChainOrigin(chain)
    case ChainOf(root, _) => RootOrigin(root)
    case _ => k
  }

  function BodyOrigin(k: Key): Key {
    if k.MessageKey? then ChainOrigin(k.chain) else k
  }

  /**
   What somebody without the secret can make: a header or a body sealed elsewhere, junk, or a
   genuine header with a body that was not sealed under it.
   */
  predicate Outside<P>(t: Terms, f: Frame<P>) {
    || Foreign(t.secret, f.header)
    || f.body.JunkBody? || f.body.bound != f.header || f.body.ad != t.ad || BodyOrigin(f.body.key) != t.secret
  }

  /** A genuine frame thrown back at its sender. */
  ghost predicate Reflected<P>(w: World<P>, toAlice: bool, f: Frame<P>) {
    exists k :: 0 <= k < |w.mail| && w.mail[k].frame == f && w.mail[k].toAlice != toAlice
  }

  /** Message numbers stay within their 32-bit field; injected frames come from outside, or are thrown back. */
  ghost predicate Allowed<P>(w: World<P>, t: Terms, ev: Event<P>) {
    match ev
    case Send(byAlice, _, _) => (if byAlice then w.alice else w.bob).sendNumber + 1 < U32
    case Deliver(_, _) => true
    case Inject(toAlice, f, _) => Outside(t, f) || Reflected(w, toAlice, f)
  }

  ghost predicate AllowedRun<P>(w: World<P>, t: Terms, evs: seq<Event<P>>)
    decreases |evs|
  {
    evs == [] || (Allowed(w, t, evs[0]) && AllowedRun(Step(w, t, evs[0]), t, evs[1..]))
  }

  // ---- the relation to the script ----

  /** What an observer knows: the script, the two ends, and the slot of each letter. */
  datatype View<+P> = View(sc: Script<P>, a: End, b: End, slots: seq<Slot>)

  ghost predicate Facing<P>(v: View<P>) {
    && v.a.epoch % 2 == 1 && v.b.epoch % 2 == 0
    && (v.a.epoch == v.b.epoch + 1 || v.b.epoch == v.a.epoch + 1)
    && |v.sc.keys| == 1 + (if v.a.epoch < v.b.epoch then v.b.epoch else v.a.epoch)
  }

  ghost predicate LetterOf<P>(sc: Script<P>, s: Slot, l: Letter<P>) {
    && InScript(sc, s)
    && (s.chain % 2 == 0 <==> l.toAlice)
    && l.frame == FrameAt(sc, s) && l.plain == sc.sent[s.chain][s.number].plain
  }

  ghost predicate MailTracked<P>(sc: Script<P>, slots: seq<Slot>, mail: seq<Letter<P>>) {
    && |slots| == |mail|
    && (forall k :: 0 <= k < |mail| ==> LetterOf(sc, slots[k], mail[k]))
    && (forall i, j :: 0 <= i < j < |slots| ==> slots[i] != slots[j])
    && (forall s :: InScript(sc, s) ==> s in slots)
  }

  ghost predicate WasRead<P>(read: seq<Reading<P>>, k: nat) {
    exists i :: 0 <= i < |read| && read[i].letter == k
  }

  ghost predicate ReadTracked<P>(v: View<P>, w: World<P>) {
    && (forall i :: 0 <= i < |w.read| ==>
          w.read[i].letter < |w.mail| && w.read[i].plain == w.mail[w.read[i].letter].plain)
    && (forall i, j :: 0 <= i < j < |w.read| ==> w.read[i].letter != w.read[j].letter)
    && |v.slots| == |w.mail|
    && (forall k :: 0 <= k < |w.mail| ==>
          (WasRead(w.read, k) <==> v.slots[k] in (if w.mail[k].toAlice then v.a else v.b).got))
  }

  ghost predicate Tracks<P>(v: View<P>, w: World<P>, t: Terms) {
    && v.sc.secret == t.secret && v.sc.ad == t.ad
    && EndValid(v.sc, v.a) && EndValid(v.sc, v.b) && Facing(v)
    && w.alice == StateOf(v.sc, v.a) && w.bob == StateOf(v.sc, v.b)
    && MailTracked(v.sc, v.slots, w.mail)
    && ReadTracked(v, w)
    && (|w.mail| <= MAX_SKIPPED_STORED ==> v.a.lost == {} && v.b.lost == {})
  }

  lemma StartTracks<P>(t: Terms, signedPreKey: nat, newKey: nat) returns (v: View<P>)
    ensures Tracks(v, Start(t, signedPreKey, newKey), t)
  {
    var sc: Script<P> := Script(t.secret, t.ad, [signedPreKey, newKey], [[], []]);
    v := View(sc, End(1, 0, [], {}, {}), End(0, 0, [], {}, {}), []);
    assert Entries(sc.secret, sc.keys, []) == [];
    assert SharedSecret(newKey, Point(signedPreKey)) == SharedSecret(signedPreKey, Point(newKey));
  }

  // ---- sending ----

  ghost function Said<P>(sc: Script<P>, i: nat, m: Sent<P>): Script<P>
    requires i < |sc.sent|
  {
    sc.(sent := sc.sent[i := sc.sent[i] + [m]])
  }

  lemma EncryptSimulates<P>(sc: Script<P>, e: End, plain: P, nonce: nat)
    requires EndShape(sc, e) && e.epoch >= 1 && |sc.sent[e.epoch]| + 1 < U32
    ensures var sc' := Said(sc, e.epoch, Sent(plain, nonce));
            var s := Slot(e.epoch, |sc.sent[e.epoch]|);
            && EndShape(sc', e) && InScript(sc', s)
            && Encrypt(StateOf(sc, e), plain, sc.ad, nonce) == Ok(Encrypted(FrameAt(sc', s), StateOf(sc', e)))
  {
  }

  /** A new message on one chain changes no frame already sent and not the other end. */
  lemma SaidElsewhere<P>(sc: Script<P>, i: nat, m: Sent<P>, e: End)
    requires EndValid(sc, e) && 1 <= i < |sc.sent| && |sc.sent[i]| + 1 < U32
    requires i == e.epoch + 1 || i == e.epoch - 1 || i == e.epoch
    ensures EndValid(Said(sc, i, m), e)
    ensures i != e.epoch ==> StateOf(Said(sc, i, m), e) == StateOf(sc, e)
  {
  }

  lemma SaidMail<P>(sc: Script<P>, i: nat, m: Sent<P>, slots: seq<Slot>, mail: seq<Letter<P>>, l: Letter<P>)
    requires |sc.keys| == |sc.sent| && 1 <= i < |sc.sent| && |sc.sent| <= i + 2 && MailTracked(sc, slots, mail)
    requires LetterOf(Said(sc, i, m), Slot(i, |sc.sent[i]|), l)
    ensures MailTracked(Said(sc, i, m), slots + [Slot(i, |sc.sent[i]|)], mail + [l])
  {
  }

  lemma PostTracks<P>(v: View<P>, w: World<P>, t: Terms, byAlice: bool, plain: P, nonce: nat) returns (v': View<P>)
    requires Tracks(v, w, t) && (if byAlice then w.alice else w.bob).sendNumber + 1 < U32
    ensures Tracks(v', Post(w, t, byAlice, plain, nonce), t) && v.slots <= v'.slots
  {
    var e := if byAlice then v.a else v.b;
    if e.epoch == 0 {
      v' := v;
    } else {
      var i := e.epoch;
      var m := Sent(plain, nonce);
      var s := Slot(i, |v.sc.sent[i]|);
      var sc' := Said(v.sc, i, m);
      EncryptSimulates(v.sc, e, plain, nonce);
      SaidElsewhere(v.sc, i, m, v.a);
      SaidElsewhere(v.sc, i, m, v.b);
      var l := Letter(!byAlice, FrameAt(sc', s), plain);
      SaidMail(v.sc, i, m, v.slots, w.mail, l);
      v' := View(sc', v.a, v.b, v.slots + [s]);
      PostedRead(v, w, s, l);
    }
  }

  lemma PostedRead<P>(v: View<P>, w: World<P>, s: Slot, l: Letter<P>)
    requires ReadTracked(v, w)
    requires s !in v.a.got && s !in v.b.got
    ensures ReadTracked(v.(slots := v.slots + [s]), w.(mail := w.mail + [l]))
  {
  }

  // ---- receiving ----

  /** Drawing a new key changes neither the other end nor any letter. */
  lemma GrownElsewhere<P>(sc: Script<P>, newKey: nat, e: End)
    requires EndValid(sc, e) && |sc.keys| == e.epoch + 1
    ensures EndValid(Grown(sc, newKey), e) && StateOf(Grown(sc, newKey), e) == StateOf(sc, e)
  {
    GrownShape(sc, newKey, e);
    GrownBalance(sc, newKey, e);
  }

  lemma GrownShape<P>(sc: Script<P>, newKey: nat, e: End)
    requires EndShape(sc, e) && |sc.keys| == e.epoch + 1
    ensures EndShape(Grown(sc, newKey), e) && StateOf(Grown(sc, newKey), e) == StateOf(sc, e)
  {
    var i := e.epoch;
    RootAtExtend(sc.secret, sc.keys, newKey, i);
    HeaderAtExtend(sc.secret, sc.keys, newKey, i + 1);
    HeaderAtExtend(sc.secret, sc.keys, newKey, i + 2);
    EntriesExtend(sc.secret, sc.keys, newKey, e.cached);
    if i >= 1 {
      ChainAtExtend(sc.secret, sc.keys, newKey, i, |sc.sent[i]|);
      HeaderAtExtend(sc.secret, sc.keys, newKey, i);
    }
    if i >= 2 {
      ChainAtExtend(sc.secret, sc.keys, newKey, i - 1, e.received);
      HeaderAtExtend(sc.secret, sc.keys, newKey, i - 1);
    }
  }

  lemma GrownBalance<P>(sc: Script<P>, newKey: nat, e: End)
    requires Balanced(sc, e) && |sc.sent| == |sc.keys| == e.epoch + 1
    ensures Balanced(Grown(sc, newKey), e)
  {
  }

  lemma GrownMail<P>(sc: Script<P>, newKey: nat, slots: seq<Slot>, mail: seq<Letter<P>>)
    requires Shaped(sc) && MailTracked(sc, slots, mail)
    ensures MailTracked(Grown(sc, newKey), slots, mail)
  {
    forall k | 0 <= k < |mail| ensures LetterOf(Grown(sc, newKey), slots[k], mail[k]) {
      FrameExtends(sc, slots[k], newKey);
    }
    assert forall x :: InScript(Grown(sc, newKey), x) ==> InScript(sc, x);
  }

  /** One end reads a slot; the script, the other end and the letters follow. */
  lemma ReadKeepsOther<P>(sc: Script<P>, e: End, other: End, s: Slot, newKey: nat, slots: seq<Slot>,
                          mail: seq<Letter<P>>)
    requires EndValid(sc, other) && InScript(sc, s) && MailTracked(sc, slots, mail)
    requires s !in e.cached && s.chain == e.epoch + 1 ==> |sc.keys| == other.epoch + 1
    ensures var sc' := ScriptAfter(sc, e, s, newKey);
            EndValid(sc', other) && StateOf(sc', other) == StateOf(sc, other) && MailTracked(sc', slots, mail)
  {
    if s !in e.cached && s.chain == e.epoch + 1 {
      GrownElsewhere(sc, newKey, other);
      GrownMail(sc, newKey, slots, mail);
    }
  }

  lemma ReadRecorded<P>(v: View<P>, v': View<P>, w: World<P>, w': World<P>, k: nat)
    requires ReadTracked(v, w) && k < |w.mail| && w'.mail == w.mail && v'.slots == v.slots
    requires forall i, j :: 0 <= i < j < |v.slots| ==> v.slots[i] != v.slots[j]
    requires !WasRead(w.read, k)
    requires w'.read == w.read + [Reading(k, w.mail[k].plain)]
    requires if w.mail[k].toAlice then v'.a.got == v.a.got + {v.slots[k]} && v'.b == v.b
             else v'.b.got == v.b.got + {v.slots[k]} && v'.a == v.a
    ensures ReadTracked(v', w')
  {
    forall j | 0 <= j < |w.mail|
      ensures WasRead(w'.read, j) <==> WasRead(w.read, j) || j == k
    {
      assert w'.read[|w.read|].letter == k;
      if WasRead(w.read, j) {
        var i :| 0 <= i < |w.read| && w.read[i].letter == j;
        assert w'.read[i].letter == j;
      }
    }
  }

  /** A letter is readable now: it was not read, not evicted, and opens no gap that is too long. */
  ghost predicate Open<P>(v: View<P>, t: Terms, k: nat)
    requires k < |v.slots| && InScript(v.sc, v.slots[k])
  {
    Readable(v.sc, Recipient(v, k), v.slots[k], t.maxSkip)
  }

  ghost function Recipient<P>(v: View<P>, k: nat): End
    requires k < |v.slots|
  {
    if v.slots[k].chain % 2 == 0 then v.a else v.b
  }

  /** The letter is the frame of its slot, and its reader is the end the slot is addressed to. */
  lemma LetterReaches<P>(v: View<P>, w: World<P>, t: Terms, k: nat)
    requires Tracks(v, w, t) && k < |w.mail|
    ensures LetterOf(v.sc, v.slots[k], w.mail[k])
    ensures EndValid(v.sc, Recipient(v, k)) && Addressed(v.sc, Recipient(v, k), v.slots[k])
    ensures (if w.mail[k].toAlice then w.alice else w.bob) == StateOf(v.sc, Recipient(v, k))
    ensures v.sc.ad == t.ad
  {
  }

  lemma HandSimulates<P>(v: View<P>, w: World<P>, t: Terms, k: nat, newKey: nat)
    requires Tracks(v, w, t) && k < |w.mail|
    ensures Addressed(v.sc, Recipient(v, k), v.slots[k])
    ensures var d := Hand(w, t, w.mail[k].toAlice, w.mail[k].frame, newKey);
            var e := Recipient(v, k);
            var sc' := ScriptAfter(v.sc, e, v.slots[k], newKey);
            if Open(v, t, k) then
              && EndValid(sc', Read(v.sc, e, v.slots[k]))
              && d == Decrypted(Plain(w.mail[k].plain), StateOf(sc', Read(v.sc, e, v.slots[k])))
            else !d.outcome.Plain? && d.next == StateOf(v.sc, e)
  {
    LetterReaches(v, w, t, k);
    HandsSlot(v.sc, Recipient(v, k), v.slots[k], w, t, w.mail[k], newKey);
  }

  lemma HandsSlot<P>(sc: Script<P>, e: End, s: Slot, w: World<P>, t: Terms, l: Letter<P>, newKey: nat)
    requires EndValid(sc, e) && Addressed(sc, e, s) && LetterOf(sc, s, l) && sc.ad == t.ad
    requires (if l.toAlice then w.alice else w.bob) == StateOf(sc, e)
    ensures var d := Hand(w, t, l.toAlice, l.frame, newKey);
            var sc' := ScriptAfter(sc, e, s, newKey);
            if Readable(sc, e, s, t.maxSkip) then
              EndValid(sc', Read(sc, e, s)) && d == Decrypted(Plain(l.plain), StateOf(sc', Read(sc, e, s)))
            else !d.outcome.Plain? && d.next == StateOf(sc, e)
  {
    DecryptSimulates(sc, e, s, t.maxSkip, newKey);
  }

  lemma OpenUnread<P>(v: View<P>, w: World<P>, t: Terms, k: nat)
    requires Tracks(v, w, t) && k < |w.mail| && Open(v, t, k)
    ensures !WasRead(w.read, k)
  {
  }

  lemma DeliverTracks<P>(v: View<P>, w: World<P>, t: Terms, k: nat, newKey: nat) returns (v': View<P>)
    requires Tracks(v, w, t) && k < |w.mail|
    ensures Tracks(v', Step(w, t, Deliver(k, newKey)), t) && v'.slots == v.slots
  {
    HandSimulates(v, w, t, k, newKey);
    if Open(v, t, k) {
      v' := ReadsLetter(v, w, t, k, newKey);
    } else {
      v' := v;
    }
  }

  ghost function ViewAfter<P>(v: View<P>, k: nat, newKey: nat): View<P>
    requires k < |v.slots| && InScript(v.sc, v.slots[k])
  {
    var s := v.slots[k];
    var e := Recipient(v, k);
    var sc' := ScriptAfter(v.sc, e, s, newKey);
    if s.chain % 2 == 0 then View(sc', Read(v.sc, e, s), v.b, v.slots) else View(sc', v.a, Read(v.sc, e, s), v.slots)
  }

  predicate Distinct(s: seq<Slot>) {
    forall i, j :: 0 <= i < j < |s| ==> s[i] != s[j]
  }

  lemma {:induction false} DistinctCount(xs: seq<Slot>)
    requires Distinct(xs)
    ensures |set x | x in xs| == |xs|
  {
    if xs != [] {
      DistinctCount(xs[1..]);
      assert xs == [xs[0]] + xs[1..];
      assert (set x | x in xs) == {xs[0]} + set x | x in xs[1..];
    }
  }

  lemma {:induction false} SetCount(xs: seq<Slot>)
    ensures |set x | x in xs| <= |xs|
  {
    if xs != [] {
      SetCount(xs[1..]);
      assert xs == [xs[0]] + xs[1..];
      assert (set x | x in xs) == {xs[0]} + set x | x in xs[1..];
    }
  }

  lemma {:induction false} SubsetCount<T>(a: set<T>, b: set<T>)
    requires a <= b
    ensures |a| <= |b|
  {
    if a != {} {
      var x :| x in a;
      SubsetCount(a - {x}, b - {x});
    }
  }

  /** Slots that were all sent, and differ, are no more than the letters. */
  lemma NoMoreThanLetters(xs: seq<Slot>, slots: seq<Slot>)
    requires Distinct(xs) && forall x :: x in xs ==> x in slots
    ensures |xs| <= |slots|
  {
    DistinctCount(xs);
    SetCount(slots);
    SubsetCount(set x | x in xs, set x | x in slots);
  }

  lemma GapCounted<P>(sc: Script<P>, e: End, s: Slot, slots: seq<Slot>)
    requires EndShape(sc, e) && Ascending(e.cached) && Addressed(sc, e, s) && Ahead(e, s)
    requires forall x :: x in e.cached ==> x in slots
    requires forall x :: InScript(sc, x) ==> x in slots
    ensures |e.cached + Gap(sc, e.epoch, e.received, s)| <= |slots|
  {
    var gap := Gap(sc, e.epoch, e.received, s);
    GapFollows(sc, e, s);
    forall x | x in gap ensures x in slots {
      GapSent(sc, e, s, x);
    }
    NoMoreThanLetters(e.cached + gap, slots);
  }

  /** Eviction needs more letters than the store holds. */
  lemma EvictionNeedsMail<P>(sc: Script<P>, e: End, s: Slot, slots: seq<Slot>)
    requires EndValid(sc, e) && Addressed(sc, e, s) && (s in e.cached || Ahead(e, s)) && e.lost == {}
    requires forall x :: InScript(sc, x) ==> x in slots
    requires |slots| <= MAX_SKIPPED_STORED
    ensures Read(sc, e, s).lost == {}
  {
    if s !in e.cached {
      forall x | x in e.cached ensures x in slots {
        assert Passed(sc, e, x);
      }
      GapCounted(sc, e, s, slots);
    }
  }

  lemma GapSent<P>(sc: Script<P>, e: End, s: Slot, x: Slot)
    requires EndShape(sc, e) && InScript(sc, s) && Ahead(e, s) && x in Gap(sc, e.epoch, e.received, s)
    ensures InScript(sc, x)
  {
  }

  /** The sessions and the letters after letter `k` was read. */
  lemma ReadsEnds<P>(v: View<P>, w: World<P>, t: Terms, k: nat, newKey: nat)
    requires Tracks(v, w, t) && k < |w.mail| && Open(v, t, k)
    ensures var v', w' := ViewAfter(v, k, newKey), Step(w, t, Deliver(k, newKey));
            && EndValid(v'.sc, v'.a) && EndValid(v'.sc, v'.b)
            && w'.alice == StateOf(v'.sc, v'.a) && w'.bob == StateOf(v'.sc, v'.b)
            && MailTracked(v'.sc, v'.slots, w'.mail)
            && w'.read == w.read + [Reading(k, w.mail[k].plain)]
  {
    HandSimulates(v, w, t, k, newKey);
    var s := v.slots[k];
    assert LetterOf(v.sc, s, w.mail[k]);
    var other := if s.chain % 2 == 0 then v.b else v.a;
    ReadKeepsOther(v.sc, Recipient(v, k), other, s, newKey, v.slots, w.mail);
  }

  lemma ReadEvicts<P>(v: View<P>, w: World<P>, t: Terms, k: nat, newKey: nat)
    requires Tracks(v, w, t) && k < |w.mail| && Open(v, t, k)
    ensures |w.mail| <= MAX_SKIPPED_STORED ==> Read(v.sc, Recipient(v, k), v.slots[k]).lost == {}
  {
    HandSimulates(v, w, t, k, newKey);
    if |w.mail| <= MAX_SKIPPED_STORED {
      EvictionNeedsMail(v.sc, Recipient(v, k), v.slots[k], v.slots);
    }
  }

  lemma ReadsLetter<P>(v: View<P>, w: World<P>, t: Terms, k: nat, newKey: nat) returns (v': View<P>)
    requires Tracks(v, w, t) && k < |w.mail| && Open(v, t, k)
    ensures Tracks(v', Step(w, t, Deliver(k, newKey)), t) && v'.slots == v.slots
  {
    ReadsEnds(v, w, t, k, newKey);
    OpenUnread(v, w, t, k);
    v' := ViewAfter(v, k, newKey);
    assert LetterOf(v.sc, v.slots[k], w.mail[k]);
    ReadRecorded(v, v', w, Step(w, t, Deliver(k, newKey)), k);
    ReadFaces(v, k, newKey);
    ReadEvicts(v, w, t, k, newKey);
  }

  lemma ReadFaces<P>(v: View<P>, k: nat, newKey: nat)
    requires Facing(v) && k < |v.slots| && InScript(v.sc, v.slots[k])
    ensures Facing(ViewAfter(v, k, newKey))
  {
  }

  // ---- injected frames ----

  lemma {:induction false} RootAtOrigin(secret: Key, keys: seq<nat>, i: nat)
    requires i < |keys| && !secret.RootOf?
    ensures RootOrigin(RootAt(secret, keys, i)) == secret
  {
    if i > 0 {
      RootAtOrigin(secret, keys, i - 1);
    }
  }

  lemma HeaderAtOrigin(secret: Key, keys: seq<nat>, i: nat)
    requires 1 <= i <= |keys| + 1 && !secret.RootOf?
    ensures HeaderOrigin(HeaderAt(secret, keys, i)) == secret
  {
    if i > 2 {
      RootAtOrigin(secret, keys, i - 3);
    }
  }

  /** A frame from outside the session is "not this session", and nothing moves. */
  lemma ForeignIgnored<P>(sc: Script<P>, e: End, f: Frame<P>, maxSkip: nat, newKey: nat)
    requires EndShape(sc, e) && !sc.secret.RootOf? && Foreign(sc.secret, f.header)
    ensures TryDecrypt(StateOf(sc, e), f, sc.ad, maxSkip, newKey) == Decrypted(NotThisSession, StateOf(sc, e))
  {
    var st := StateOf(sc, e);
    forall k | 0 <= k < |st.skipped| ensures !Matches(st.skipped[k], f.header) {
      HeaderAtOrigin(sc.secret, sc.keys, e.cached[k].chain);
    }
    HeaderAtOrigin(sc.secret, sc.keys, e.epoch + 1);
    if e.epoch > 1 {
      HeaderAtOrigin(sc.secret, sc.keys, e.epoch - 1);
    }
  }

  // ---- forged bodies ----

  lemma {:induction false} ChainAtOrigin(secret: Key, keys: seq<nat>, i: nat, n: nat)
    requires 1 <= i < |keys| && !secret.RootOf?
    ensures ChainOrigin(ChainAt(secret, keys, i, n)) == secret
  {
    if n == 0 {
      RootAtOrigin(secret, keys, i - 1);
    } else {
      ChainAtOrigin(secret, keys, i, n - 1);
    }
  }

  /** Every key a session may read with goes back to its secret. */
  ghost predicate KeysFrom(secret: Key, st: Session) {
    && RootOrigin(st.root) == secret
    && (st.receiveChain.Some? ==> ChainOrigin(st.receiveChain.value) == secret)
    && (forall k :: 0 <= k < |st.skipped| ==> BodyOrigin(st.skipped[k].messageKey) == secret)
  }

  lemma StateKeysFrom<P>(sc: Script<P>, e: End)
    requires EndShape(sc, e) && !sc.secret.RootOf?
    ensures KeysFrom(sc.secret, StateOf(sc, e))
  {
    RootAtOrigin(sc.secret, sc.keys, e.epoch);
    if e.epoch > 1 {
      ChainAtOrigin(sc.secret, sc.keys, e.epoch - 1, e.received);
    }
    forall k | 0 <= k < |e.cached| ensures BodyOrigin(StateOf(sc, e).skipped[k].messageKey) == sc.secret {
      ChainAtOrigin(sc.secret, sc.keys, e.cached[k].chain, e.cached[k].number);
    }
  }

  lemma {:induction false} WalkOrigin(chain: Key, headerKey: Key, from: nat, until: nat, store: seq<Skipped>)
    ensures ChainOrigin(WalkChain(chain, headerKey, from, until, store).chain) == ChainOrigin(chain)
    decreases until - from
  {
    if from < until {
      WalkOrigin(NextChain(chain), headerKey, from + 1, until, Put(store, Skipped(headerKey, from, MessageKey(chain))));
    }
  }

  lemma SkipOrigin(st: Session, until: nat, maxSkip: nat)
    ensures var r := Skip(st, until, maxSkip);
            r.Ok? ==>
              && r.value.root == st.root && (r.value.receiveChain.Some? <==> st.receiveChain.Some?)
              && (st.receiveChain.Some? ==>
                    ChainOrigin(r.value.receiveChain.value) == ChainOrigin(st.receiveChain.value))
  {
    if st.receiveChain.Some? && st.receiveHeader.Some? {
      WalkOrigin(st.receiveChain.value, st.receiveHeader.value, st.receiveNumber, until, st.skipped);
    }
  }

  lemma AdvanceOrigin(st: Session, o: Opened, maxSkip: nat, newKey: nat, secret: Key)
    requires KeysFrom(secret, st)
    ensures var r := Advance(st, o, maxSkip, newKey);
            r.Ok? && r.value.receiveChain.Some? ==> ChainOrigin(r.value.receiveChain.value) == secret
  {
    if o.steps {
      SkipOrigin(st, o.header.previous, maxSkip);
      var skipped := Skip(st, o.header.previous, maxSkip);
      if skipped.Ok? {
        SkipOrigin(DhStep(skipped.value, o.header, newKey), o.header.number, maxSkip);
      }
    } else {
      SkipOrigin(st, o.header.number, maxSkip);
    }
  }

  /**
   Only a body sealed under its own header, and with a key of the session, is ever read; a failed
   attempt moves nothing.
   */
  lemma OnlyGenuineBodies<P>(st: Session, f: Frame<P>, ad: AssocData, maxSkip: nat, newKey: nat, secret: Key)
    requires KeysFrom(secret, st)
    ensures var d := TryDecrypt(st, f, ad, maxSkip, newKey);
            && (d.outcome.Plain? ==>
                  f.body.SealedBody? && f.body.bound == f.header && f.body.ad == ad && BodyOrigin(f.body.key) == secret)
            && (!d.outcome.Plain? ==> d.next == st)
  {
    var o := DecryptHeader(st, f.header);
    if o.Some? {
      AdvanceOrigin(st, o.value, maxSkip, newKey, secret);
    }
  }

  /** A frame from outside is never read, and moves nothing. */
  lemma OutsideIgnored<P>(sc: Script<P>, e: End, t: Terms, f: Frame<P>, newKey: nat)
    requires EndShape(sc, e) && !t.secret.RootOf? && sc.secret == t.secret && sc.ad == t.ad && Outside(t, f)
    ensures var d := TryDecrypt(StateOf(sc, e), f, t.ad, t.maxSkip, newKey);
            !d.outcome.Plain? && d.next == StateOf(sc, e)
  {
    if Foreign(t.secret, f.header) {
      ForeignIgnored(sc, e, f, t.maxSkip, newKey);
    } else {
      StateKeysFrom(sc, e);
      OnlyGenuineBodies(StateOf(sc, e), f, t.ad, t.maxSkip, newKey, t.secret);
    }
  }

  // ---- frames thrown back ----

  /** A sender holds no key for the headers it seals. */
  lemma OwnFrameIgnored<P>(sc: Script<P>, e: End, s: Slot, maxSkip: nat, newKey: nat)
    requires EndValid(sc, e) && InScript(sc, s) && s.chain % 2 == e.epoch % 2
    ensures TryDecrypt(StateOf(sc, e), FrameAt(sc, s), sc.ad, maxSkip, newKey)
         == Decrypted(NotThisSession, StateOf(sc, e))
  {
    var st := StateOf(sc, e);
    var h := FrameAt(sc, s).header;
    forall k | 0 <= k < |st.skipped| ensures !Matches(st.skipped[k], h) {
      assert e.cached[k] in e.cached;
      assert Passed(sc, e, e.cached[k]);
      NotMyHeader(sc, e.cached[k].chain, s);
    }
    NotMyHeader(sc, e.epoch + 1, s);
    if e.epoch > 1 {
      NotMyHeader(sc, e.epoch - 1, s);
    }
  }

  lemma NotMyHeader<P>(sc: Script<P>, i: nat, s: Slot)
    requires InScript(sc, s) && 1 <= i <= |sc.keys| + 1 && i % 2 != s.chain % 2
    ensures HeaderAt(sc.secret, sc.keys, i) != HeaderAt(sc.secret, sc.keys, s.chain)
  {
    if HeaderAt(sc.secret, sc.keys, i) == HeaderAt(sc.secret, sc.keys, s.chain) {
      HeaderKeysDiffer(sc.secret, sc.keys, i, s.chain);
    }
  }

  /** Nothing an outsider throws in changes either session. */
  lemma InjectionIgnored<P>(v: View<P>, w: World<P>, t: Terms, toAlice: bool, f: Frame<P>, newKey: nat)
    requires Tracks(v, w, t) && !t.secret.RootOf? && (Outside(t, f) || Reflected(w, toAlice, f))
    ensures var d := Hand(w, t, toAlice, f, newKey);
            !d.outcome.Plain? && d.next == if toAlice then w.alice else w.bob
  {
    var e := if toAlice then v.a else v.b;
    if Outside(t, f) {
      OutsideIgnored(v.sc, e, t, f, newKey);
    } else {
      var k :| 0 <= k < |w.mail| && w.mail[k].frame == f && w.mail[k].toAlice != toAlice;
      assert LetterOf(v.sc, v.slots[k], w.mail[k]);
      OwnFrameIgnored(v.sc, e, v.slots[k], t.maxSkip, newKey);
    }
  }

  // ---- every run ----

  lemma StepTracks<P>(v: View<P>, w: World<P>, t: Terms, ev: Event<P>) returns (v': View<P>)
    requires Tracks(v, w, t) && Allowed(w, t, ev) && !t.secret.RootOf?
    ensures Tracks(v', Step(w, t, ev), t)
  {
    match ev
    case Send(byAlice, plain, nonce) =>
      v' := PostTracks(v, w, t, byAlice, plain, nonce);
    case Deliver(k, newKey) =>
      if k < |w.mail| {
        v' := DeliverTracks(v, w, t, k, newKey);
      } else {
        v' := v;
      }
    case Inject(toAlice, f, newKey) =>
      InjectionIgnored(v, w, t, toAlice, f, newKey);
      v' := v;
  }

  lemma {:induction false} RunTracks<P>(v: View<P>, w: World<P>, t: Terms, evs: seq<Event<P>>) returns (v': View<P>)
    requires Tracks(v, w, t) && AllowedRun(w, t, evs) && !t.secret.RootOf?
    ensures Tracks(v', Run(w, t, evs), t)
    decreases |evs|
  {
    if evs == [] {
      v' := v;
    } else {
      var v1 := StepTracks(v, w, t, evs[0]);
      v' := RunTracks(v1, Step(w, t, evs[0]), t, evs[1..]);
    }
  }

  // ---- the theorems ----

  /** In every reachable world the two sessions are the two ends of one script. */
  lemma RunFromStart<P>(t: Terms, signedPreKey: nat, firstKey: nat, evs: seq<Event<P>>) returns (v: View<P>)
    requires !t.secret.RootOf? && AllowedRun(Start(t, signedPreKey, firstKey), t, evs)
    ensures Tracks(v, Run(Start(t, signedPreKey, firstKey), t, evs), t)
  {
    var v0 := StartTracks<P>(t, signedPreKey, firstKey);
    v := RunTracks(v0, Start(t, signedPreKey, firstKey), t, evs);
  }

  /**
   Agreement. In every reachable world a letter in flight decrypts if and only if it was not
   read, was not evicted, and lies behind its reader or within `maxSkip`; what it decrypts to
   is what was sent; and an attempt that returns no plaintext leaves the session as it was.
   */
  lemma Agreement<P>(v: View<P>, w: World<P>, t: Terms, k: nat, newKey: nat)
    requires Tracks(v, w, t) && k < |w.mail|
    ensures InScript(v.sc, v.slots[k])
    ensures var d := Hand(w, t, w.mail[k].toAlice, w.mail[k].frame, newKey);
            var s := v.slots[k];
            var e := Recipient(v, k);
            && (d.outcome.Plain? <==>
                  && !WasRead(w.read, k) && s !in e.lost
                  && (Passed(v.sc, e, s) || InReach(v.sc, e, s, t.maxSkip)))
            && (d.outcome.Plain? ==> d.outcome.plain == w.mail[k].plain)
            && (!d.outcome.Plain? ==> d.next == if w.mail[k].toAlice then w.alice else w.bob)
  {
    HandSimulates(v, w, t, k, newKey);
    assert LetterOf(v.sc, v.slots[k], w.mail[k]);
    ReadableWhen(v.sc, Recipient(v, k), v.slots[k], t.maxSkip);
  }

  lemma ReadableWhen<P>(sc: Script<P>, e: End, s: Slot, maxSkip: nat)
    requires EndValid(sc, e) && InScript(sc, s)
    ensures Readable(sc, e, s, maxSkip) <==>
            s !in e.got && s !in e.lost && (Passed(sc, e, s) || InReach(sc, e, s, maxSkip))
  {
  }

  /** Exactly once. Whatever the network does, each letter is read at most once and as it was written. */
  lemma ExactlyOnce<P>(t: Terms, signedPreKey: nat, firstKey: nat, evs: seq<Event<P>>)
    requires !t.secret.RootOf? && AllowedRun(Start(t, signedPreKey, firstKey), t, evs)
    ensures var w := Run(Start(t, signedPreKey, firstKey), t, evs);
            && (forall i :: 0 <= i < |w.read| ==>
                  w.read[i].letter < |w.mail| && w.read[i].plain == w.mail[w.read[i].letter].plain)
            && (forall i, j :: 0 <= i < j < |w.read| ==> w.read[i].letter != w.read[j].letter)
  {
    var v := RunFromStart(t, signedPreKey, firstKey, evs);
  }

  /**
   Eviction. In every reachable world, whatever a full store dropped is older, in the order of
   chain and number, than everything it still holds, and nothing was dropped that had been read.
   */
  lemma EvictsOldestOnly<P>(t: Terms, signedPreKey: nat, firstKey: nat, evs: seq<Event<P>>) returns (v: View<P>)
    requires !t.secret.RootOf? && AllowedRun(Start(t, signedPreKey, firstKey), t, evs)
    ensures Tracks(v, Run(Start(t, signedPreKey, firstKey), t, evs), t)
    ensures forall e :: e == v.a || e == v.b ==>
              && |e.cached| <= MAX_SKIPPED_STORED
              && (forall x, y :: x in e.lost && y in e.cached ==> Before(x, y))
              && (forall x :: x in e.lost ==> x !in e.got)
  {
    v := RunFromStart(t, signedPreKey, firstKey, evs);
  }

  /** Every chain is no longer than the mail. */
  lemma ChainCount<P>(v: View<P>, w: World<P>, t: Terms, i: nat)
    requires Tracks(v, w, t) && 1 <= i < |v.sc.sent|
    ensures |v.sc.sent[i]| <= |w.mail|
  {
    NoMoreThanLetters(Fill(i, 0, |v.sc.sent[i]|), v.slots);
  }

  /**
   No loss. While no more letters were sent than may be skipped, and no more than the store
   holds, every letter not yet read can be read, at any moment and in any order.
   */
  lemma NothingLost<P>(t: Terms, signedPreKey: nat, firstKey: nat, evs: seq<Event<P>>, k: nat, newKey: nat)
    requires !t.secret.RootOf? && AllowedRun(Start(t, signedPreKey, firstKey), t, evs)
    requires var w := Run(Start(t, signedPreKey, firstKey), t, evs);
             k < |w.mail| && |w.mail| <= t.maxSkip && |w.mail| <= MAX_SKIPPED_STORED && !WasRead(w.read, k)
    ensures var w := Run(Start(t, signedPreKey, firstKey), t, evs);
            Hand(w, t, w.mail[k].toAlice, w.mail[k].frame, newKey).outcome == Plain(w.mail[k].plain)
  {
    var w := Run(Start<P>(t, signedPreKey, firstKey), t, evs);
    var v := RunFromStart(t, signedPreKey, firstKey, evs);
    Agreement(v, w, t, k, newKey);
    ShortMailInReach(v, w, t, k);
    LosesNothing(v, w, t, k);
  }

  lemma LosesNothing<P>(v: View<P>, w: World<P>, t: Terms, k: nat)
    requires Tracks(v, w, t) && k < |w.mail| && |w.mail| <= MAX_SKIPPED_STORED
    ensures Recipient(v, k).lost == {}
  {
  }

  lemma ShortMailInReach<P>(v: View<P>, w: World<P>, t: Terms, k: nat)
    requires Tracks(v, w, t) && k < |w.mail| && |w.mail| <= t.maxSkip
    requires InScript(v.sc, v.slots[k])
    ensures Passed(v.sc, Recipient(v, k), v.slots[k]) || InReach(v.sc, Recipient(v, k), v.slots[k], t.maxSkip)
  {
    var s := v.slots[k];
    var e := Recipient(v, k);
    LetterReaches(v, w, t, k);
    ChainCount(v, w, t, s.chain);
    if s.chain == e.epoch + 1 && e.epoch >= 2 {
      ChainCount(v, w, t, e.epoch - 1);
    }
    ShortChainsInReach(v.sc, e, s, t.maxSkip);
  }

  lemma ShortChainsInReach<P>(sc: Script<P>, e: End, s: Slot, maxSkip: nat)
    requires EndShape(sc, e) && Addressed(sc, e, s)
    requires |sc.sent[s.chain]| <= maxSkip
    requires s.chain == e.epoch + 1 && e.epoch >= 2 ==> |sc.sent[e.epoch - 1]| <= maxSkip
    ensures Passed(sc, e, s) || InReach(sc, e, s, maxSkip)
  {
  }

  /**
   Why the guard on message numbers: once a chain passes 2^32 messages its header field wraps,
   and the message after a gap of one is refused although the gap is within reach.
   */
  lemma WrappedNumberRefused<P>(st: Session, chain: Key, headerKey: Key, plain: P, ad: AssocData, dh: Point,
                                maxSkip: nat, newKey: nat)
    requires st.receiveChain == Some(chain) && st.receiveHeader == Some(headerKey) && st.skipped == []
    requires maxSkip >= 1
    ensures forall r: nat :: var h := SealHeader(headerKey, 0, Header(dh, 0, r + 1));
            var f := Frame(h, SealedBody(MessageKey(NextChain(chain)), ad, h, plain));
            && (r + 1 < U32 ==> TryDecrypt(st.(receiveNumber := r), f, ad, maxSkip, newKey).outcome == Plain(plain))
            && (r == U32 ==> TryDecrypt(st.(receiveNumber := r), f, ad, maxSkip, newKey).outcome == Thrown(BadTag))
  {
    forall r: nat
      ensures var h := SealHeader(headerKey, 0, Header(dh, 0, r + 1));
              var f := Frame(h, SealedBody(MessageKey(NextChain(chain)), ad, h, plain));
              && (r + 1 < U32 ==> TryDecrypt(st.(receiveNumber := r), f, ad, maxSkip, newKey).outcome == Plain(plain))
              && (r == U32 ==> TryDecrypt(st.(receiveNumber := r), f, ad, maxSkip, newKey).outcome == Thrown(BadTag))
    {
      if r + 1 < U32 {
        SkipsOne(st.(receiveNumber := r), chain, headerKey, maxSkip);
      } else {
        assert ChainSteps(NextChain(chain)) == ChainSteps(chain) + 1;
      }
    }
  }

  lemma SkipsOne(st: Session, chain: Key, headerKey: Key, maxSkip: nat)
    requires st.receiveChain == Some(chain) && st.receiveHeader == Some(headerKey) && st.skipped == [] && maxSkip >= 1
    ensures Skip(st, st.receiveNumber + 1, maxSkip)
         == Ok(st.(receiveChain := Some(NextChain(chain)), receiveNumber := st.receiveNumber + 1,
                   skipped := [Skipped(headerKey, st.receiveNumber, MessageKey(chain))]))
  {
    assert WalkChain(chain, headerKey, st.receiveNumber, st.receiveNumber + 1, [])
        == WalkChain(NextChain(chain), headerKey, st.receiveNumber + 1, st.receiveNumber + 1,
                     Put([], Skipped(headerKey, st.receiveNumber, MessageKey(chain))));
  }
}
