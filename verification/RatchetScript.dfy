/**
 The two ends of one session, as an outside observer who knows every secret would describe
 them. Ratchet keys alternate: key 0 is the responder's signed prekey, key 1 the initiator's
 first ratchet key, key 2 the responder's next one, and so on. Chain `i` is sent by the owner
 of key `i`; slot (i, n) is the n-th message of chain i.
 */
module RatchetScript {
  import opened Crypto
  import opened Ratchet

  datatype Sent<+P> = Sent(plain: P, nonce: nat)

  /** What has happened so far: the ratchet keys drawn and the messages sent on each chain. */
  datatype Script<+P> = Script(secret: Key, ad: AssocData, keys: seq<nat>, sent: seq<seq<Sent<P>>>)

  datatype Slot = Slot(chain: nat, number: nat)

  ghost predicate Shaped<P>(sc: Script<P>) {
    && |sc.keys| == |sc.sent| >= 2
    && sc.sent[0] == []
    && forall i :: 0 <= i < |sc.sent| ==> |sc.sent[i]| < U32
  }

  // ---- the keys of the script ----

  ghost function DhAt(keys: seq<nat>, i: nat): Key
    requires 1 <= i < |keys|
  {
    SharedSecret(keys[i - 1], Point(keys[i]))
  }

  ghost function RootAt(secret: Key, keys: seq<nat>, i: nat): Key
    requires i < |keys|
  {
    if i == 0 then secret else RootOf(RootAt(secret, keys, i - 1), DhAt(keys, i))
  }

  ghost function ChainAt(secret: Key, keys: seq<nat>, i: nat, n: nat): Key
    requires 1 <= i < |keys|
  {
    if n == 0 then ChainOf(RootAt(secret, keys, i - 1), DhAt(keys, i)) else NextChain(ChainAt(secret, keys, i, n - 1))
  }

  ghost function HeaderAt(secret: Key, keys: seq<nat>, i: nat): Key
    requires 1 <= i <= |keys| + 1
  {
    if i == 1 then HeaderA(secret)
    else if i == 2 then HeaderB(secret)
    else HeaderOf(RootAt(secret, keys, i - 3), DhAt(keys, i - 2))
  }

  /** The length of the chain its owner sent before chain `i`. */
  ghost function PreviousLength<P>(sent: seq<seq<Sent<P>>>, i: nat): nat
    requires i < |sent|
  {
    if i >= 2 then |sent[i - 2]| else 0
  }

  ghost predicate InScript<P>(sc: Script<P>, s: Slot) {
    1 <= s.chain < |sc.keys| == |sc.sent| && s.number < |sc.sent[s.chain]|
  }

  /** The frame that went over the wire for a slot. */
  ghost function FrameAt<P>(sc: Script<P>, s: Slot): Frame<P>
    requires InScript(sc, s)
  {
    var m := sc.sent[s.chain][s.number];
    var h := SealHeader(HeaderAt(sc.secret, sc.keys, s.chain), m.nonce,
                        Header(Point(sc.keys[s.chain]), PreviousLength(sc.sent, s.chain), s.number));
    Frame(h, SealedBody(MessageKey(ChainAt(sc.secret, sc.keys, s.chain, s.number)), sc.ad, h, m.plain))
  }

  ghost function HeaderOfSlot<P>(sc: Script<P>, s: Slot): Header
    requires InScript(sc, s)
  {
    Header(Point(sc.keys[s.chain]), PreviousLength(sc.sent, s.chain), s.number)
  }

  /** Within 32 bits nothing is lost in the header's number fields. */
  lemma HeaderFields<P>(sc: Script<P>, s: Slot)
    requires Shaped(sc) && InScript(sc, s)
    ensures FrameAt(sc, s).header == SealedHeader(HeaderAt(sc.secret, sc.keys, s.chain),
                                                  sc.sent[s.chain][s.number].nonce, HeaderOfSlot(sc, s))
  {
  }

  // ---- distinctness of derived keys ----

  function RootDepth(k: Key): nat {
    if k.RootOf? then 1 + RootDepth(k.root) else 0
  }

  function ChainSteps(k: Key): nat {
    if k.NextChain? then 1 + ChainSteps(k.chain) else 0
  }

  lemma {:induction false} RootAtDepth(secret: Key, keys: seq<nat>, i: nat)
    requires i < |keys|
    ensures RootDepth(RootAt(secret, keys, i)) == RootDepth(secret) + i
  {
    if i > 0 {
      RootAtDepth(secret, keys, i - 1);
    }
  }

  lemma {:induction false} ChainAtSteps(secret: Key, keys: seq<nat>, i: nat, n: nat)
    requires 1 <= i < |keys|
    ensures ChainSteps(ChainAt(secret, keys, i, n)) == n
  {
    if n > 0 {
      ChainAtSteps(secret, keys, i, n - 1);
    }
  }

  /** No two chains of a session share a header key, so a header names its chain. */
  lemma HeaderKeysDiffer(secret: Key, keys: seq<nat>, i: nat, j: nat)
    requires 1 <= i <= |keys| + 1 && 1 <= j <= |keys| + 1
    requires HeaderAt(secret, keys, i) == HeaderAt(secret, keys, j)
    ensures i == j
  {
    if i > 2 && j > 2 {
      RootAtDepth(secret, keys, i - 3);
      RootAtDepth(secret, keys, j - 3);
    }
  }

  // ---- drawing another key changes no earlier one ----

  lemma {:induction false} RootAtExtend(secret: Key, keys: seq<nat>, k: nat, i: nat)
    requires i < |keys|
    ensures RootAt(secret, keys + [k], i) == RootAt(secret, keys, i)
  {
    if i > 0 {
      RootAtExtend(secret, keys, k, i - 1);
    }
  }

  lemma {:induction false} ChainAtExtend(secret: Key, keys: seq<nat>, k: nat, i: nat, n: nat)
    requires 1 <= i < |keys|
    ensures ChainAt(secret, keys + [k], i, n) == ChainAt(secret, keys, i, n)
  {
    if n == 0 {
      RootAtExtend(secret, keys, k, i - 1);
    } else {
      ChainAtExtend(secret, keys, k, i, n - 1);
    }
  }

  lemma HeaderAtExtend(secret: Key, keys: seq<nat>, k: nat, i: nat)
    requires 1 <= i <= |keys| + 1
    ensures HeaderAt(secret, keys + [k], i) == HeaderAt(secret, keys, i)
  {
    if i > 2 {
      RootAtExtend(secret, keys, k, i - 3);
    }
  }

  // ---- one end of the session ----

  /**
   One end: the index of the ratchet key it holds, how far it has read the peer's current
   chain, the skipped slots it caches, and what became of every slot behind that point.
   */
  datatype End = End(epoch: nat, received: nat, cached: seq<Slot>, got: set<Slot>, lost: set<Slot>)

  predicate Before(a: Slot, b: Slot) {
    a.chain < b.chain || (a.chain == b.chain && a.number < b.number)
  }

  ghost predicate Ascending(s: seq<Slot>) {
    forall i, j :: 0 <= i < j < |s| ==> Before(s[i], s[j])
  }

  /** The slots an end has read past: every earlier chain of the peer, and part of the current one. */
  ghost predicate Passed<P>(sc: Script<P>, e: End, s: Slot) {
    && InScript(sc, s)
    && s.chain < e.epoch && (e.epoch - s.chain) % 2 == 1
    && (s.chain == e.epoch - 1 ==> s.number < e.received)
  }

  ghost predicate Within(keys: seq<nat>, slots: seq<Slot>) {
    forall k :: 0 <= k < |slots| ==> 1 <= slots[k].chain < |keys|
  }

  ghost predicate Behind(epoch: nat, received: nat, slots: seq<Slot>) {
    forall k :: 0 <= k < |slots| ==>
      slots[k].chain < epoch && (slots[k].chain == epoch - 1 ==> slots[k].number < received)
  }

  /** The positions of an end fit the script. */
  ghost predicate EndShape<P>(sc: Script<P>, e: End) {
    && Shaped(sc)
    && e.epoch < |sc.keys| <= e.epoch + 2
    && (if e.epoch >= 2 then e.received <= |sc.sent[e.epoch - 1]| else e.received == 0)
    && |e.cached| <= MAX_SKIPPED_STORED
    && Within(sc.keys, e.cached)
    && Behind(e.epoch, e.received, e.cached)
  }

  /** Every slot behind the end was read, is cached or was evicted, and only one of the three. */
  ghost predicate Balanced<P>(sc: Script<P>, e: End) {
    && (forall s :: Passed(sc, e, s) <==> s in e.cached || s in e.got || s in e.lost)
    && (forall s :: s in e.got ==> s !in e.lost && s !in e.cached)
    && (forall s :: s in e.lost ==> s !in e.cached)
  }

  /** The evicted slots are older than every slot still cached. */
  ghost predicate OldestFirst(e: End) {
    forall s, t :: s in e.lost && t in e.cached ==> Before(s, t)
  }

  ghost predicate EndValid<P>(sc: Script<P>, e: End) {
    EndShape(sc, e) && Ascending(e.cached) && Balanced(sc, e) && OldestFirst(e)
  }

  ghost function Entry(secret: Key, keys: seq<nat>, s: Slot): Skipped
    requires 1 <= s.chain < |keys|
  {
    Skipped(HeaderAt(secret, keys, s.chain), s.number, MessageKey(ChainAt(secret, keys, s.chain, s.number)))
  }

  ghost function Entries(secret: Key, keys: seq<nat>, slots: seq<Slot>): (r: seq<Skipped>)
    requires Within(keys, slots)
    ensures |r| == |slots|
    ensures forall k :: 0 <= k < |slots| ==> r[k] == Entry(secret, keys, slots[k])
  {
    seq(|slots|, k requires 0 <= k < |slots| => Entry(secret, keys, slots[k]))
  }

  /** The session state that an end holds, computed from the script. */
  ghost function StateAt<P>(sc: Script<P>, epoch: nat, received: nat, cached: seq<Slot>): Session
    requires Shaped(sc) && epoch < |sc.keys| && Within(sc.keys, cached)
  {
    var i := epoch;
    Session(
      RootAt(sc.secret, sc.keys, i),
      sc.keys[i],
      if i == 0 then None else Some(Point(sc.keys[i - 1])),
      if i == 0 then None else Some(ChainAt(sc.secret, sc.keys, i, |sc.sent[i]|)),
      if i <= 1 then None else Some(ChainAt(sc.secret, sc.keys, i - 1, received)),
      if i == 0 then None else Some(HeaderAt(sc.secret, sc.keys, i)),
      if i <= 1 then None else Some(HeaderAt(sc.secret, sc.keys, i - 1)),
      Some(HeaderAt(sc.secret, sc.keys, i + 2)),
      Some(HeaderAt(sc.secret, sc.keys, i + 1)),
      |sc.sent[i]|,
      received,
      PreviousLength(sc.sent, i),
      Entries(sc.secret, sc.keys, cached))
  }

  ghost function StateOf<P>(sc: Script<P>, e: End): Session
    requires EndShape(sc, e)
  {
    StateAt(sc, e.epoch, e.received, e.cached)
  }

  // ---- the ideal receiver ----

  function Fill(chain: nat, from: nat, until: nat): (r: seq<Slot>)
    ensures |r| == if from < until then until - from else 0
    ensures forall k :: 0 <= k < |r| ==> r[k] == Slot(chain, from + k)
  {
    seq(if from < until then until - from else 0, k requires k >= 0 => Slot(chain, from + k))
  }

  /** The slots left unread on the chain the peer has finished. */
  ghost function FinishedGap<P>(sc: Script<P>, epoch: nat, received: nat): seq<Slot>
    requires epoch < |sc.sent|
  {
    if epoch >= 2 then Fill(epoch - 1, received, |sc.sent[epoch - 1]|) else []
  }

  /** The slots that enter the cache on the way to slot `s`. */
  ghost function Gap<P>(sc: Script<P>, epoch: nat, received: nat, s: Slot): seq<Slot>
    requires InScript(sc, s)
  {
    if s.chain == epoch + 1 then FinishedGap(sc, epoch, received) + Fill(s.chain, 0, s.number)
    else Fill(s.chain, received, s.number)
  }

  /** The cache after `gap` entered it: the oldest slots make room. */
  function Keep(cached: seq<Slot>, gap: seq<Slot>): (r: seq<Slot>)
    ensures |r| <= MAX_SKIPPED_STORED
  {
    KeepNewest(cached + gap, MAX_SKIPPED_STORED)
  }

  /** A slot ahead of the end is in reach when neither gap it opens is longer than `maxSkip`. */
  ghost predicate InReach<P>(sc: Script<P>, e: End, s: Slot, maxSkip: nat)
    requires InScript(sc, s)
  {
    if s.chain == e.epoch + 1
    then PreviousLength(sc.sent, s.chain) <= e.received + maxSkip && s.number <= maxSkip
    else s.chain == e.epoch - 1 && e.received <= s.number <= e.received + maxSkip
  }

  /** The slot can be read now: cached, or ahead and in reach. */
  ghost predicate Readable<P>(sc: Script<P>, e: End, s: Slot, maxSkip: nat)
    requires InScript(sc, s)
  {
    s in e.cached || (!Passed(sc, e, s) && InReach(sc, e, s, maxSkip))
  }

  /** The slots that find no room. */
  ghost function Evicted(cached: seq<Slot>, gap: seq<Slot>): set<Slot> {
    set x | x in cached + gap && x !in Keep(cached, gap)
  }

  /** Where reading slot `s` leaves an ideal receiver. */
  ghost function Move<P>(sc: Script<P>, e: End, s: Slot): End
    requires InScript(sc, s)
  {
    if s in e.cached then e.(cached := RemoveAt(e.cached, IndexOf(e.cached, s)))
    else e.(epoch := if s.chain == e.epoch + 1 then e.epoch + 2 else e.epoch,
            received := s.number + 1,
            cached := Keep(e.cached, Gap(sc, e.epoch, e.received, s)))
  }

  /** What reading slot `s` does to an ideal receiver, books included. */
  ghost function Read<P>(sc: Script<P>, e: End, s: Slot): End
    requires InScript(sc, s)
  {
    var lost := if s in e.cached then {} else Evicted(e.cached, Gap(sc, e.epoch, e.received, s));
    Move(sc, e, s).(got := e.got + {s}, lost := e.lost + lost)
  }

  /** A new ratchet key opens a new, empty chain. */
  ghost function Grown<P>(sc: Script<P>, newKey: nat): Script<P> {
    sc.(keys := sc.keys + [newKey], sent := sc.sent + [[]])
  }

  /** The script after slot `s` was read: entering a new chain of the peer draws a new key. */
  ghost function ScriptAfter<P>(sc: Script<P>, e: End, s: Slot, newKey: nat): Script<P> {
    if s !in e.cached && s.chain == e.epoch + 1 then Grown(sc, newKey) else sc
  }
}
