/**
 Message keys are used once. The peer, the network and the skip limits are arbitrary here:
 frames may claim any numbers and carry any keys.
 */
module RatchetSingleUse {
  import opened Crypto
  import opened Ratchet
  import opened RatchetScript

  /** What can happen to one session. */
  datatype Act<+P> =
    | Says(plain: P, sayAd: AssocData, nonce: nat)
    | Gets(frame: Frame<P>, ad: AssocData, maxSkip: nat, newKey: nat)

  function Perform<P>(st: Session, act: Act<P>): Session {
    match act
    case Says(plain, ad, nonce) => (
      match Encrypt(st, plain, ad, nonce)
      case Ok(x) => x.next
      case Err(_) => st)
    case Gets(f, ad, maxSkip, newKey) => TryDecrypt(st, f, ad, maxSkip, newKey).next
  }

  function PerformAll<P>(st: Session, acts: seq<Act<P>>): Session
    decreases |acts|
  {
    if acts == [] then st else PerformAll(Perform(st, acts[0]), acts[1..])
  }

  ghost predicate Initial(st: Session) {
    || (exists secret, responder, newKey :: st == InitInitiator(secret, responder, newKey))
    || (exists secret, signedPreKey :: st == InitResponder(secret, signedPreKey))
  }

  // ---- the order in which chain keys are left behind ----

  function ChainBase(k: Key): Key {
    if k.NextChain? then ChainBase(k.chain) else k
  }

  /** `c` is a chain key the receiver had moved past by the time it held `d`. */
  ghost predicate LeftBehind(c: Key, d: Key) {
    var b, e := ChainBase(c), ChainBase(d);
    && b.ChainOf? && e.ChainOf?
    && (RootDepth(b.root) < RootDepth(e.root) || (b == e && ChainSteps(c) < ChainSteps(d)))
  }

  ghost predicate Retired(k: Key, chain: Key) {
    k.MessageKey? && LeftBehind(k.chain, chain)
  }

  ghost predicate DistinctKeys(s: seq<Skipped>) {
    forall i, j :: 0 <= i < j < |s| ==> s[i].messageKey != s[j].messageKey
  }

  /** The stored keys and the used keys are retired, all different, and none is both. */
  ghost predicate Spent(chain: Key, store: seq<Skipped>, used: set<Key>) {
    && (forall k :: k in used ==> Retired(k, chain))
    && (forall i :: 0 <= i < |store| ==> Retired(store[i].messageKey, chain) && store[i].messageKey !in used)
    && DistinctKeys(store)
  }

  ghost predicate Inv(st: Session, used: set<Key>) {
    match st.receiveChain
    case None => st.skipped == [] && used == {}
    case Some(chain) =>
      && ChainBase(chain).ChainOf? && RootDepth(ChainBase(chain).root) < RootDepth(st.root)
      && Spent(chain, st.skipped, used)
  }

  lemma {:induction false} PutPlace(s: seq<Skipped>, x: Skipped) returns (p: nat)
    ensures p <= |s| && Put(s, x) == if p < |s| then s[p := x] else s + [x]
  {
    if s == [] || SameSlot(s[0], x) {
      p := 0;
    } else {
      var q := PutPlace(s[1..], x);
      p := q + 1;
    }
  }

  lemma WalkOne(chain: Key, headerKey: Key, n: nat, store: seq<Skipped>, used: set<Key>)
    requires Spent(chain, store, used) && ChainBase(chain).ChainOf?
    ensures Spent(NextChain(chain), Put(store, Skipped(headerKey, n, MessageKey(chain))), used)
  {
    var p := PutPlace(store, Skipped(headerKey, n, MessageKey(chain)));
  }

  lemma {:induction false} WalkSpends(chain: Key, headerKey: Key, from: nat, until: nat, store: seq<Skipped>,
                                      used: set<Key>)
    requires Spent(chain, store, used) && ChainBase(chain).ChainOf?
    ensures var w := WalkChain(chain, headerKey, from, until, store);
            Spent(w.chain, w.store, used) && ChainBase(w.chain) == ChainBase(chain)
    decreases until - from
  {
    if from < until {
      WalkOne(chain, headerKey, from, store, used);
      WalkSpends(NextChain(chain), headerKey, from + 1, until,
                 Put(store, Skipped(headerKey, from, MessageKey(chain))), used);
    }
  }

  lemma SkipKeeps(st: Session, until: nat, maxSkip: nat, used: set<Key>)
    requires Inv(st, used) && Skip(st, until, maxSkip).Ok?
    ensures Inv(Skip(st, until, maxSkip).value, used)
    ensures Skip(st, until, maxSkip).value.root == st.root
  {
    if st.receiveChain.Some? && st.receiveHeader.Some? {
      WalkSpends(st.receiveChain.value, st.receiveHeader.value, st.receiveNumber, until, st.skipped, used);
    }
  }

  /** A DH step starts a chain from a deeper root, so every older key stays behind it. */
  lemma StepKeeps(st: Session, h: Header, newKey: nat, used: set<Key>)
    requires Inv(st, used)
    ensures Inv(DhStep(st, h, newKey), used)
  {
  }

  lemma AdvanceKeeps(st: Session, o: Opened, maxSkip: nat, newKey: nat, used: set<Key>)
    requires Inv(st, used) && Advance(st, o, maxSkip, newKey).Ok?
    ensures Inv(Advance(st, o, maxSkip, newKey).value, used)
  {
    if o.steps {
      SkipKeeps(st, o.header.previous, maxSkip, used);
      var mid := Skip(st, o.header.previous, maxSkip).value;
      StepKeeps(mid, o.header, newKey, used);
      SkipKeeps(DhStep(mid, o.header, newKey), o.header.number, maxSkip, used);
    } else {
      SkipKeeps(st, o.header.number, maxSkip, used);
    }
  }

  lemma UseStored(chain: Key, store: seq<Skipped>, used: set<Key>, k: nat)
    requires Spent(chain, store, used) && k < |store|
    ensures Spent(chain, RemoveAt(store, k), used + {store[k].messageKey})
  {
  }

  lemma UseHead(chain: Key, store: seq<Skipped>, used: set<Key>)
    requires Spent(chain, store, used) && ChainBase(chain).ChainOf?
    ensures Spent(NextChain(chain), store, used + {MessageKey(chain)})
    ensures MessageKey(chain) !in used
  {
  }

  /** A decryption that succeeds retires its key, and the key had not been used before. */
  lemma DecryptSpends<P>(st: Session, f: Frame<P>, ad: AssocData, maxSkip: nat, newKey: nat, used: set<Key>)
    requires Inv(st, used)
    ensures var d := TryDecrypt(st, f, ad, maxSkip, newKey);
            if d.outcome.Plain? then f.body.SealedBody? && f.body.key !in used && Inv(d.next, used + {f.body.key})
            else d.next == st
  {
    match FindSkipped(st.skipped, f.header)
    case Some(k) =>
      UseStored(st.receiveChain.value, st.skipped, used, k);
    case None =>
      match DecryptHeader(st, f.header)
      case None =>
      case Some(o) =>
        match Advance(st, o, maxSkip, newKey)
        case Err(_) =>
        case Ok(trial) =>
          AdvanceKeeps(st, o, maxSkip, newKey, used);
          if trial.receiveChain.Some? {
            UseHead(trial.receiveChain.value, trial.skipped, used);
          }
  }

  lemma PerformSpends<P>(st: Session, act: Act<P>, used: set<Key>) returns (used': set<Key>)
    requires Inv(st, used)
    ensures used <= used' && Inv(Perform(st, act), used')
  {
    used' := used;
    if act.Gets? {
      DecryptSpends(st, act.frame, act.ad, act.maxSkip, act.newKey, used);
      if TryDecrypt(st, act.frame, act.ad, act.maxSkip, act.newKey).outcome.Plain? {
        used' := used + {act.frame.body.key};
      }
    }
  }

  lemma {:induction false} PerformAllSpends<P>(st: Session, acts: seq<Act<P>>, used: set<Key>) returns (used': set<Key>)
    requires Inv(st, used)
    ensures used <= used' && Inv(PerformAll(st, acts), used')
    decreases |acts|
  {
    if acts == [] {
      used' := used;
    } else {
      var used1 := PerformSpends(st, acts[0], used);
      used' := PerformAllSpends(Perform(st, acts[0]), acts[1..], used1);
    }
  }

  /**
   Single use. A session has returned a plaintext for `f`. Whatever it does and receives
   afterwards, it never again returns a plaintext for `f`, nor for any frame under the same
   message key.
   */
  lemma SingleUse<P>(st0: Session, before: seq<Act<P>>, f: Frame<P>, ad: AssocData, maxSkip: nat, newKey: nat,
                     after: seq<Act<P>>, g: Frame<P>, ad': AssocData, maxSkip': nat, newKey': nat)
    requires Initial(st0)
    requires TryDecrypt(PerformAll(st0, before), f, ad, maxSkip, newKey).outcome.Plain?
    requires g.body.SealedBody? && f.body.SealedBody? ==> g.body.key == f.body.key
    ensures var st := TryDecrypt(PerformAll(st0, before), f, ad, maxSkip, newKey).next;
            var d := TryDecrypt(PerformAll(st, after), g, ad', maxSkip', newKey');
            !d.outcome.Plain? && d.next == PerformAll(st, after)
  {
    var used := PerformAllSpends(st0, before, {});
    var st := PerformAll(st0, before);
    DecryptSpends(st, f, ad, maxSkip, newKey, used);
    var next := TryDecrypt(st, f, ad, maxSkip, newKey).next;
    var used' := PerformAllSpends(next, after, used + {f.body.key});
    DecryptSpends(PerformAll(next, after), g, ad', maxSkip', newKey', used');
  }
}
