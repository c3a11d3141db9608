/** What becomes of any frame at all, told by the keys its header and body are sealed under. */
module RatchetOutcome {
  import opened Crypto
  import opened Ratchet

  // ---- which headers a session recognises ----

  predicate SealedUnder(key: Option<Key>, h: SealedHeader) {
    h.SealedHeader? && key == Some(h.key)
  }

  /** The message is the one this key was kept for. */
  predicate KeptFor(x: Skipped, h: SealedHeader) {
    h.SealedHeader? && h.key == x.headerKey && h.header.number == x.number
  }

  ghost predicate Recognises(st: Session, h: SealedHeader) {
    || (exists k :: 0 <= k < |st.skipped| && KeptFor(st.skipped[k], h))
    || SealedUnder(st.receiveHeader, h) || SealedUnder(st.nextReceiveHeader, h)
  }

  /** A frame is "not this session" if and only if no header key of the session opens its header. */
  lemma NotThisSessionExactly<P>(st: Session, f: Frame<P>, ad: AssocData, maxSkip: nat, newKey: nat)
    ensures TryDecrypt(st, f, ad, maxSkip, newKey).outcome.NotThisSession? <==> !Recognises(st, f.header)
  {
    var found := FindSkipped(st.skipped, f.header);
    if found.Some? {
      assert KeptFor(st.skipped[found.value], f.header);
    } else {
      forall k | 0 <= k < |st.skipped| ensures !KeptFor(st.skipped[k], f.header) {
        assert !Matches(st.skipped[k], f.header);
      }
    }
  }

  // ---- which bodies it reads ----

  /** The body was sealed under this message key, for this session, together with this header. */
  ghost predicate Genuine<P>(f: Frame<P>, messageKey: Key, ad: AssocData) {
    f.body.SealedBody? && f.body == SealedBody(messageKey, ad, f.header, f.body.plain)
  }

  /** Read under this key, or an exception: corruption on a recognised session is never passed over. */
  ghost predicate DecidedBy<P>(d: Decrypted<P>, f: Frame<P>, messageKey: Key, ad: AssocData) {
    if Genuine(f, messageKey, ad) then d.outcome == Plain(f.body.plain) else d.outcome == Thrown(BadTag)
  }

  /** The first key kept for the message decides, and is used up only when it reads. */
  lemma KeptKeyDecides<P>(st: Session, f: Frame<P>, ad: AssocData, maxSkip: nat, newKey: nat, k: nat)
    requires k < |st.skipped| && KeptFor(st.skipped[k], f.header)
    requires forall j :: 0 <= j < k ==> !KeptFor(st.skipped[j], f.header)
    ensures var d := TryDecrypt(st, f, ad, maxSkip, newKey);
            && DecidedBy(d, f, st.skipped[k].messageKey, ad)
            && d.next == if d.outcome.Plain? then st.(skipped := st.skipped[..k] + st.skipped[k + 1..]) else st
  {
    assert Matches(st.skipped[k], f.header);
    var found := FindSkipped(st.skipped, f.header).value;
    assert KeptFor(st.skipped[found], f.header);
  }

  function Stepped(chain: Key, n: nat): Key
    decreases n
  {
    if n == 0 then chain else Stepped(NextChain(chain), n - 1)
  }

  lemma {:induction false} WalkSteps(chain: Key, headerKey: Key, from: nat, until: nat, store: seq<Skipped>)
    ensures WalkChain(chain, headerKey, from, until, store).chain
         == Stepped(chain, if from < until then until - from else 0)
    decreases until - from
  {
    if from < until {
      WalkSteps(NextChain(chain), headerKey, from + 1, until, Put(store, Skipped(headerKey, from, MessageKey(chain))));
    }
  }

  ghost predicate NoneKept(st: Session, h: SealedHeader) {
    forall k :: 0 <= k < |st.skipped| ==> !KeptFor(st.skipped[k], h)
  }

  lemma NoneFound(st: Session, h: SealedHeader)
    requires NoneKept(st, h)
    ensures FindSkipped(st.skipped, h).None?
  {
    forall k | 0 <= k < |st.skipped| ensures !Matches(st.skipped[k], h) {
      assert !KeptFor(st.skipped[k], h);
    }
  }

  /**
   A message of the current chain is read under the key as many steps on as its number says, unless
   that is too far.
   */
  lemma CurrentChainDecides<P>(st: Session, f: Frame<P>, ad: AssocData, maxSkip: nat, newKey: nat)
    requires NoneKept(st, f.header) && SealedUnder(st.receiveHeader, f.header) && st.receiveChain.Some?
    ensures var d := TryDecrypt(st, f, ad, maxSkip, newKey);
            var n := f.header.header.number;
            var ahead := if st.receiveNumber < n then n - st.receiveNumber else 0;
            if ahead > maxSkip then d.outcome == Thrown(TooManySkipped)
            else DecidedBy(d, f, MessageKey(Stepped(st.receiveChain.value, ahead)), ad)
  {
    NoneFound(st, f.header);
    WalkSteps(st.receiveChain.value, st.receiveHeader.value, st.receiveNumber, f.header.header.number, st.skipped);
  }

  /**
   The first chain after a DH step: both gaps must be short enough, and the new chain is that of the
   header's point.
   */
  lemma NextChainDecides<P>(st: Session, f: Frame<P>, ad: AssocData, maxSkip: nat, newKey: nat)
    requires NoneKept(st, f.header)
    requires !SealedUnder(st.receiveHeader, f.header) && SealedUnder(st.nextReceiveHeader, f.header)
    requires st.receiveChain.Some? ==> st.receiveHeader.Some?
    ensures var d := TryDecrypt(st, f, ad, maxSkip, newKey);
            var h := f.header.header;
            if h.previous > st.receiveNumber + maxSkip || h.number > maxSkip then d.outcome == Thrown(TooManySkipped)
            else DecidedBy(d, f, MessageKey(Stepped(ChainOf(st.root, SharedSecret(st.self, h.dh)), h.number)), ad)
  {
    NoneFound(st, f.header);
    var h := f.header.header;
    var skipped := Skip(st, h.previous, maxSkip);
    if skipped.Ok? {
      var stepped := DhStep(skipped.value, h, newKey);
      WalkSteps(stepped.receiveChain.value, stepped.receiveHeader.value, 0, h.number, stepped.skipped);
    }
  }
}
