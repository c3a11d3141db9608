/** What becomes of any group message at all, told by its signature and the key its body is sealed under. */
module GroupOutcome {
  import opened Crypto
  import opened Ratchet
  import opened SenderKey
  import opened RatchetOutcome

  /** The signature is this sender's, over the iteration as an unsigned 32-bit number, this body and this group. */
  ghost predicate SignedBy<P>(m: GroupMessage<P>, signer: nat, group: string) {
    && m.signature.GroupSignature? && m.signature.signer == signer && m.signature.group == group
    && m.signature.body == m.body && 0 <= m.signature.iteration32 < U32
    && exists laps: int :: m.iteration == m.signature.iteration32 + laps * U32
  }

  ghost predicate SealedFor<P>(b: GroupBody<P>, key: Key, group: string) {
    b.GroupBody? && b.key == key && b.group == group
  }

  /** Read under this key, or an exception. */
  ghost predicate ReadUnder<P>(d: GroupOpened<P>, m: GroupMessage<P>, key: Key, group: string) {
    d.outcome == if SealedFor(m.body, key, group) then Ok(m.body.plain) else Err(BadGroupTag)
  }

  lemma LapsOver<P>(m: GroupMessage<P>, signer: nat, group: string)
    ensures SenderKey.Genuine(m, group, signer) <==> SignedBy(m, signer, group)
  {
    assert m.iteration == m.iteration % U32 + m.iteration / U32 * U32;
    if SignedBy(m, signer, group) {
      var laps :| m.iteration == m.signature.iteration32 + laps * U32;
      SameRemainder(m.iteration, m.signature.iteration32, laps);
    }
  }

  lemma SameRemainder(n: int, r: int, laps: int)
    requires n == r + laps * U32 && 0 <= r < U32
    ensures n % U32 == r
  {
  }

  /** A message is turned away for its signature if and only if it is not signed by the sender for this group. */
  lemma SignatureDecides<P>(r: Receiver, m: GroupMessage<P>, group: string, maxSkip: nat)
    ensures var d := GroupDecrypt(r, m, group, maxSkip);
            if SignedBy(m, r.signer, group) then d.outcome != Err(BadGroupSignature)
            else d.outcome == Err(BadGroupSignature) && d.next == r
  {
    LapsOver(m, r.signer, group);
  }

  /** The first key kept for the iteration decides, and is used up whether it reads or not. */
  lemma KeptGroupKeyDecides<P>(r: Receiver, m: GroupMessage<P>, group: string, maxSkip: nat, k: nat)
    requires SignedBy(m, r.signer, group) && k < |r.skipped| && r.skipped[k].iteration == m.iteration
    requires forall j :: 0 <= j < k ==> r.skipped[j].iteration != m.iteration
    ensures var d := GroupDecrypt(r, m, group, maxSkip);
            && ReadUnder(d, m, r.skipped[k].messageKey, group)
            && d.next == r.(skipped := r.skipped[..k] + r.skipped[k + 1..])
  {
    LapsOver(m, r.signer, group);
  }

  /** Map.set: the key of an iteration takes the place of an earlier one for it, or goes last. */
  lemma {:induction false} PutKeySets(s: seq<Cached>, x: Cached)
    ensures match FindKey(s, x.iteration)
            case Some(k) => PutKey(s, x) == s[..k] + [x] + s[k + 1..]
            case None => PutKey(s, x) == s + [x]
  {
    if s != [] && s[0].iteration != x.iteration {
      PutKeySets(s[1..], x);
    }
  }

  /** The keys of `n` iterations from `from` on, in order. */
  function Passed(chain: Key, from: int, n: nat): (r: seq<Cached>)
    ensures |r| == n
    ensures forall k: nat :: k < n ==> r[k] == Cached(from + k, MessageKey(Stepped(chain, k)))
    decreases n
  {
    if n == 0 then [] else [Cached(from, MessageKey(chain))] + Passed(NextChain(chain), from + 1, n - 1)
  }

  ghost predicate KeptBelow(s: seq<Cached>, iteration: int) {
    forall k :: 0 <= k < |s| ==> s[k].iteration < iteration
  }

  lemma {:induction false} WalkPasses(chain: Key, from: int, until: int, store: seq<Cached>)
    requires from <= until
    ensures WalkKeys(chain, from, until, store).chain == Stepped(chain, until - from)
    ensures KeptBelow(store, from)
         ==> WalkKeys(chain, from, until, store).store == store + Passed(chain, from, until - from)
    decreases until - from
  {
    if from < until {
      var x := Cached(from, MessageKey(chain));
      PutKeySets(store, x);
      WalkPasses(NextChain(chain), from + 1, until, PutKey(store, x));
      assert store + [x] + Passed(NextChain(chain), from + 1, until - from - 1)
          == store + ([x] + Passed(NextChain(chain), from + 1, until - from - 1));
    }
  }

  ghost predicate NoKeyKept(r: Receiver, iteration: int) {
    forall k :: 0 <= k < |r.skipped| ==> r.skipped[k].iteration != iteration
  }

  /**
   With no key kept, the chain decides: too old or too far changes nothing; otherwise the key is as
   many steps on as the iteration says, the keys passed over are kept, and the chain stands behind
   it, whether the body then opens or not.
   */
  lemma GroupChainDecides<P>(r: Receiver, m: GroupMessage<P>, group: string, maxSkip: nat)
    requires SignedBy(m, r.signer, group) && NoKeyKept(r, m.iteration)
    ensures var d := GroupDecrypt(r, m, group, maxSkip);
            var ahead := m.iteration - r.iteration;
            if ahead < 0 then d == GroupOpened(Err(TooOld), r)
            else if ahead > maxSkip then d == GroupOpened(Err(TooFar), r)
            else
              && ReadUnder(d, m, MessageKey(Stepped(r.chain, ahead)), group)
              && d.next.chain == Stepped(r.chain, ahead + 1) && d.next.iteration == m.iteration + 1
              && d.next.signer == r.signer
              && (KeptBelow(r.skipped, r.iteration) ==>
                    d.next.skipped == KeepNewest(r.skipped + Passed(r.chain, r.iteration, ahead), MAX_SKIPPED_STORED))
  {
    LapsOver(m, r.signer, group);
    assert FindKey(r.skipped, m.iteration).None?;
    if 0 <= m.iteration - r.iteration <= maxSkip {
      WalkPasses(r.chain, r.iteration, m.iteration, r.skipped);
      OneStepOn(r.chain, m.iteration - r.iteration);
    }
  }

  lemma {:induction false} OneStepOn(chain: Key, n: nat)
    ensures NextChain(Stepped(chain, n)) == Stepped(chain, n + 1)
    decreases n
  {
    if n > 0 {
      OneStepOn(NextChain(chain), n - 1);
    }
  }
}
