/**
 The concrete ratchet agrees with the ideal receiver: whatever was sent is read back, in any
 order, exactly when it has not been read, evicted or skipped too far past.
 */
module RatchetAgreement {
  import opened Crypto
  import opened Ratchet
  import opened RatchetScript

  // ---- the skipped-key store mirrors the cached slots ----

  lemma MatchesOwnSlot<P>(sc: Script<P>, t: Slot, s: Slot)
    requires Shaped(sc) && InScript(sc, s) && 1 <= t.chain < |sc.keys|
    ensures Matches(Entry(sc.secret, sc.keys, t), FrameAt(sc, s).header) <==> t == s
  {
    HeaderFields(sc, s);
    if HeaderAt(sc.secret, sc.keys, t.chain) == HeaderAt(sc.secret, sc.keys, s.chain) {
      HeaderKeysDiffer(sc.secret, sc.keys, t.chain, s.chain);
    }
  }

  lemma FindCached<P>(sc: Script<P>, cached: seq<Slot>, s: Slot)
    requires Shaped(sc) && InScript(sc, s) && Within(sc.keys, cached)
    ensures FindSkipped(Entries(sc.secret, sc.keys, cached), FrameAt(sc, s).header)
         == if s in cached then Some(IndexOf(cached, s)) else None
  {
    forall k | 0 <= k < |cached|
      ensures Matches(Entries(sc.secret, sc.keys, cached)[k], FrameAt(sc, s).header) <==> cached[k] == s
    {
      MatchesOwnSlot(sc, cached[k], s);
    }
  }

  lemma PutSlot(secret: Key, keys: seq<nat>, slots: seq<Slot>, t: Slot)
    requires Within(keys, slots) && 1 <= t.chain < |keys| && t !in slots
    ensures Put(Entries(secret, keys, slots), Entry(secret, keys, t)) == Entries(secret, keys, slots + [t])
  {
    forall k | 0 <= k < |slots| ensures !SameSlot(Entry(secret, keys, slots[k]), Entry(secret, keys, t)) {
      if HeaderAt(secret, keys, slots[k].chain) == HeaderAt(secret, keys, t.chain) {
        HeaderKeysDiffer(secret, keys, slots[k].chain, t.chain);
      }
    }
    PutAppends(Entries(secret, keys, slots), Entry(secret, keys, t));
  }

  lemma {:induction false} WalkFills(secret: Key, keys: seq<nat>, i: nat, from: nat, until: nat, slots: seq<Slot>)
    requires Within(keys, slots) && 1 <= i < |keys| && from <= until
    requires forall k :: 0 <= k < |slots| ==> slots[k].chain == i ==> slots[k].number < from
    ensures WalkChain(ChainAt(secret, keys, i, from), HeaderAt(secret, keys, i), from, until,
                      Entries(secret, keys, slots))
         == Walk(ChainAt(secret, keys, i, until), Entries(secret, keys, slots + Fill(i, from, until)))
    decreases until - from
  {
    if from == until {
      assert slots + Fill(i, from, until) == slots;
    } else {
      PutSlot(secret, keys, slots, Slot(i, from));
      WalkFills(secret, keys, i, from + 1, until, slots + [Slot(i, from)]);
      assert slots + [Slot(i, from)] + Fill(i, from + 1, until) == slots + Fill(i, from, until);
    }
  }

  lemma SkipFills<P>(sc: Script<P>, epoch: nat, received: nat, cached: seq<Slot>, until: nat, maxSkip: nat)
    requires Shaped(sc) && 2 <= epoch < |sc.keys| && Within(sc.keys, cached)
    requires received <= until <= received + maxSkip
    requires forall k :: 0 <= k < |cached| ==> cached[k].chain == epoch - 1 ==> cached[k].number < received
    ensures var kept := Keep(cached, Fill(epoch - 1, received, until));
            && Within(sc.keys, kept)
            && Skip(StateAt(sc, epoch, received, cached), until, maxSkip) == Ok(StateAt(sc, epoch, until, kept))
  {
    WalkFills(sc.secret, sc.keys, epoch - 1, received, until, cached);
    var all := cached + Fill(epoch - 1, received, until);
    var kept := Keep(cached, Fill(epoch - 1, received, until));
    assert KeepNewest(Entries(sc.secret, sc.keys, all), MAX_SKIPPED_STORED) == Entries(sc.secret, sc.keys, kept);
  }

  lemma StepExtends<P>(sc: Script<P>, epoch: nat, received: nat, cached: seq<Slot>, previous: nat, number: nat,
                       newKey: nat)
    requires Shaped(sc) && |sc.keys| == epoch + 2 && Within(sc.keys, cached)
    ensures var sc' := Grown(sc, newKey);
            && Shaped(sc') && Within(sc'.keys, cached)
            && DhStep(StateAt(sc, epoch, received, cached), Header(Point(sc.keys[epoch + 1]), previous, number), newKey)
            == StateAt(sc', epoch + 2, 0, cached)
  {
    var i := epoch;
    var keys := sc.keys + [newKey];
    RootAtExtend(sc.secret, sc.keys, newKey, i);
    RootAtExtend(sc.secret, sc.keys, newKey, i + 1);
    HeaderAtExtend(sc.secret, sc.keys, newKey, i + 1);
    HeaderAtExtend(sc.secret, sc.keys, newKey, i + 2);
    EntriesExtend(sc.secret, sc.keys, newKey, cached);
    assert DhAt(keys, i + 1) == SharedSecret(keys[i], Point(keys[i + 1]));
    assert DhAt(keys, i + 2) == SharedSecret(newKey, Point(keys[i + 1]));
    assert RootAt(sc.secret, keys, i + 2) == RootOf(RootAt(sc.secret, keys, i + 1), DhAt(keys, i + 2));
  }

  lemma EntriesExtend(secret: Key, keys: seq<nat>, newKey: nat, slots: seq<Slot>)
    requires Within(keys, slots)
    ensures Within(keys + [newKey], slots)
    ensures Entries(secret, keys + [newKey], slots) == Entries(secret, keys, slots)
  {
    forall k | 0 <= k < |slots|
      ensures Entry(secret, keys + [newKey], slots[k]) == Entry(secret, keys, slots[k])
    {
      HeaderAtExtend(secret, keys, newKey, slots[k].chain);
      ChainAtExtend(secret, keys, newKey, slots[k].chain, slots[k].number);
    }
  }

  // ---- the ideal receiver keeps its invariant ----

  /** Slot `s` was sent by the other end. */
  ghost predicate Addressed<P>(sc: Script<P>, e: End, s: Slot) {
    InScript(sc, s) && (s.chain + e.epoch) % 2 == 1
  }

  lemma KeepIsSuffix(cached: seq<Slot>, gap: seq<Slot>)
    requires Ascending(cached + gap)
    ensures Ascending(Keep(cached, gap))
    ensures forall x, y :: x in Evicted(cached, gap) && y in Keep(cached, gap) ==> Before(x, y)
  {
  }

  /** Slot `s` lies ahead of everything the end has read on its chain. */
  ghost predicate Ahead(e: End, s: Slot) {
    s !in e.cached && (s.chain == e.epoch + 1 || (s.chain == e.epoch - 1 && e.received <= s.number))
  }

  /** What lies behind the end after reading `s`: what did before, the gap, and `s`. */
  lemma PassedAfter<P>(sc: Script<P>, e: End, s: Slot, newKey: nat)
    requires EndShape(sc, e) && Addressed(sc, e, s) && Ahead(e, s)
    ensures forall t :: Passed(ScriptAfter(sc, e, s, newKey), Move(sc, e, s), t)
                   <==> Passed(sc, e, t) || t in Gap(sc, e.epoch, e.received, s) || t == s
    ensures forall t :: t in Gap(sc, e.epoch, e.received, s) ==> !Passed(sc, e, t) && t != s
    ensures !Passed(sc, e, s)
  {
    if s.chain == e.epoch + 1 {
      PassedNext(sc, e, s, newKey);
    } else {
      PassedCurrent(sc, e, s, newKey);
    }
  }

  lemma PassedCurrent<P>(sc: Script<P>, e: End, s: Slot, newKey: nat)
    requires EndShape(sc, e) && InScript(sc, s) && Ahead(e, s) && s.chain == e.epoch - 1
    ensures forall t :: Passed(ScriptAfter(sc, e, s, newKey), Move(sc, e, s), t)
                   <==> Passed(sc, e, t) || t in Gap(sc, e.epoch, e.received, s) || t == s
  {
    var gap := Gap(sc, e.epoch, e.received, s);
    forall t: Slot | t.chain == s.chain && e.received <= t.number < s.number ensures t in gap {
      assert gap[t.number - e.received] == t;
    }
  }

  /** The gap before a slot of the next chain: the rest of the finished chain, then the new one up to the slot. */
  lemma GapNextHas<P>(sc: Script<P>, e: End, s: Slot)
    requires e.epoch < |sc.sent| && InScript(sc, s) && s.chain == e.epoch + 1
    ensures forall t: Slot :: t in Gap(sc, e.epoch, e.received, s) <==>
              || (t.chain == s.chain && t.number < s.number)
              || (e.epoch >= 2 && t.chain == e.epoch - 1 && e.received <= t.number < |sc.sent[e.epoch - 1]|)
  {
    var finished := FinishedGap(sc, e.epoch, e.received);
    var gap := Gap(sc, e.epoch, e.received, s);
    assert gap == finished + Fill(s.chain, 0, s.number);
    forall t: Slot | t.chain == s.chain && t.number < s.number ensures t in gap {
      assert gap[|finished| + t.number] == t;
    }
    forall t: Slot | e.epoch >= 2 && t.chain == e.epoch - 1 && e.received <= t.number < |sc.sent[e.epoch - 1]|
      ensures t in gap
    {
      assert gap[t.number - e.received] == t;
    }
  }

  lemma PassedNextAt<P>(sc: Script<P>, e: End, s: Slot, newKey: nat, t: Slot)
    requires EndShape(sc, e) && InScript(sc, s) && Ahead(e, s) && s.chain == e.epoch + 1
    ensures Passed(ScriptAfter(sc, e, s, newKey), Move(sc, e, s), t) <==>
              || Passed(sc, e, t) || t == s
              || (t.chain == s.chain && t.number < s.number)
              || (e.epoch >= 2 && t.chain == e.epoch - 1 && e.received <= t.number < |sc.sent[e.epoch - 1]|)
  {
  }

  lemma PassedNext<P>(sc: Script<P>, e: End, s: Slot, newKey: nat)
    requires EndShape(sc, e) && InScript(sc, s) && Ahead(e, s) && s.chain == e.epoch + 1
    ensures forall t :: Passed(ScriptAfter(sc, e, s, newKey), Move(sc, e, s), t)
                   <==> Passed(sc, e, t) || t in Gap(sc, e.epoch, e.received, s) || t == s
  {
    GapNextHas(sc, e, s);
    forall t
      ensures Passed(ScriptAfter(sc, e, s, newKey), Move(sc, e, s), t)
         <==> Passed(sc, e, t) || t in Gap(sc, e.epoch, e.received, s) || t == s
    {
      PassedNextAt(sc, e, s, newKey, t);
    }
  }

  lemma ReadValid<P>(sc: Script<P>, e: End, s: Slot, maxSkip: nat, newKey: nat)
    requires EndValid(sc, e) && Addressed(sc, e, s) && Readable(sc, e, s, maxSkip)
    ensures EndValid(ScriptAfter(sc, e, s, newKey), Read(sc, e, s))
  {
    if s in e.cached {
      TakesCached(sc, e, s);
    } else {
      TakesAhead(sc, e, s, newKey);
    }
  }

  lemma RemoveCached(cached: seq<Slot>, s: Slot)
    requires s in cached && Ascending(cached)
    ensures var rest := RemoveAt(cached, IndexOf(cached, s));
            Ascending(rest) && forall x :: x in rest <==> x in cached && x != s
  {
  }

  lemma TakesCached<P>(sc: Script<P>, e: End, s: Slot)
    requires EndValid(sc, e) && InScript(sc, s) && s in e.cached
    ensures EndValid(sc, Read(sc, e, s))
  {
    RemoveCached(e.cached, s);
    var e' := Read(sc, e, s);
    assert forall t :: Passed(sc, e', t) <==> Passed(sc, e, t);
    assert EndShape(sc, e') by {
      RemovedShape(sc, e, IndexOf(e.cached, s));
    }
  }

  lemma RemovedShape<P>(sc: Script<P>, e: End, k: nat)
    requires EndShape(sc, e) && k < |e.cached|
    ensures EndShape(sc, e.(cached := RemoveAt(e.cached, k)))
  {
  }

  /** The gap is in order, and after everything cached. */
  lemma GapFollows<P>(sc: Script<P>, e: End, s: Slot)
    requires EndShape(sc, e) && Ascending(e.cached) && InScript(sc, s) && Ahead(e, s)
    ensures Ascending(e.cached + Gap(sc, e.epoch, e.received, s))
  {
  }

  lemma MovesShape<P>(sc: Script<P>, e: End, s: Slot, newKey: nat)
    requires EndShape(sc, e) && InScript(sc, s) && Ahead(e, s)
    ensures EndShape(ScriptAfter(sc, e, s, newKey), Move(sc, e, s))
  {
    if s.chain == e.epoch + 1 {
      EntersShape(sc, e, s, newKey);
    }
  }

  /** A gap into the next chain is the rest of the last chain and the start of the new one. */
  lemma GapEnters<P>(sc: Script<P>, e: End, s: Slot)
    requires EndShape(sc, e) && InScript(sc, s) && s.chain == e.epoch + 1
    ensures var gap := Gap(sc, e.epoch, e.received, s);
            forall k :: 0 <= k < |gap| ==>
              && 1 <= gap[k].chain <= e.epoch + 1 && gap[k].chain != e.epoch
              && (gap[k].chain == e.epoch + 1 ==> gap[k].number < s.number)
  {
    assert Gap(sc, e.epoch, e.received, s) == FinishedGap(sc, e.epoch, e.received) + Fill(s.chain, 0, s.number);
  }

  /** What is cached or skipped over lies behind the new chain. */
  lemma CachedEnters<P>(sc: Script<P>, e: End, s: Slot, keys: seq<nat>)
    requires EndShape(sc, e) && InScript(sc, s) && s.chain == e.epoch + 1 && |keys| >= e.epoch + 2
    ensures var held := e.cached + Gap(sc, e.epoch, e.received, s);
            Within(keys, held) && Behind(e.epoch + 2, s.number + 1, held)
  {
    GapEnters(sc, e, s);
  }

  lemma EntersShape<P>(sc: Script<P>, e: End, s: Slot, newKey: nat)
    requires EndShape(sc, e) && InScript(sc, s) && s !in e.cached && s.chain == e.epoch + 1
    ensures EndShape(ScriptAfter(sc, e, s, newKey), Move(sc, e, s))
  {
    var sc' := Grown(sc, newKey);
    assert Shaped(sc');
    CachedEnters(sc, e, s, sc'.keys);
  }

  /** Every slot of `cached + gap` is kept or evicted. */
  lemma KeptOrEvicted(cached: seq<Slot>, gap: seq<Slot>)
    ensures forall x :: x in cached || x in gap <==> x in Keep(cached, gap) || x in Evicted(cached, gap)
    ensures forall x :: x in Evicted(cached, gap) ==> x !in Keep(cached, gap)
  {
  }

  lemma TakesAhead<P>(sc: Script<P>, e: End, s: Slot, newKey: nat)
    requires EndValid(sc, e) && Addressed(sc, e, s) && Ahead(e, s)
    ensures EndValid(ScriptAfter(sc, e, s, newKey), Read(sc, e, s))
  {
    MovesShape(sc, e, s, newKey);
    GapFollows(sc, e, s);
    KeepIsSuffix(e.cached, Gap(sc, e.epoch, e.received, s));
    BooksBalance(sc, e, s, newKey);
    OldestLost(sc, e, s);
  }

  lemma BooksBalance<P>(sc: Script<P>, e: End, s: Slot, newKey: nat)
    requires EndShape(sc, e) && Balanced(sc, e) && Addressed(sc, e, s) && Ahead(e, s)
    ensures Balanced(ScriptAfter(sc, e, s, newKey), Read(sc, e, s))
  {
    PassedAfter(sc, e, s, newKey);
    KeptOrEvicted(e.cached, Gap(sc, e.epoch, e.received, s));
  }

  lemma OldestLost<P>(sc: Script<P>, e: End, s: Slot)
    requires EndValid(sc, e) && Addressed(sc, e, s) && Ahead(e, s)
    ensures OldestFirst(Read(sc, e, s))
  {
    var gap := Gap(sc, e.epoch, e.received, s);
    GapFollows(sc, e, s);
    KeepIsSuffix(e.cached, gap);
    KeptOrEvicted(e.cached, gap);
    forall x, y | x in e.lost && y in gap ensures Before(x, y) {
      assert Passed(sc, e, x);
    }
  }

  // ---- the concrete ratchet does what the ideal receiver does ----

  lemma HeaderOpens<P>(sc: Script<P>, e: End, s: Slot)
    requires EndShape(sc, e) && Addressed(sc, e, s)
    ensures DecryptHeader(StateOf(sc, e), FrameAt(sc, s).header)
         == if s.chain == e.epoch - 1 then Some(Opened(HeaderOfSlot(sc, s), false))
            else if s.chain == e.epoch + 1 then Some(Opened(HeaderOfSlot(sc, s), true))
            else None
  {
    HeaderFields(sc, s);
    if e.epoch > 1 && HeaderAt(sc.secret, sc.keys, e.epoch - 1) == HeaderAt(sc.secret, sc.keys, s.chain) {
      HeaderKeysDiffer(sc.secret, sc.keys, e.epoch - 1, s.chain);
    }
    if HeaderAt(sc.secret, sc.keys, e.epoch + 1) == HeaderAt(sc.secret, sc.keys, s.chain) {
      HeaderKeysDiffer(sc.secret, sc.keys, e.epoch + 1, s.chain);
    }
  }

  lemma ReadsCached<P>(sc: Script<P>, e: End, s: Slot, maxSkip: nat, newKey: nat)
    requires EndShape(sc, e) && Addressed(sc, e, s) && s in e.cached
    requires EndShape(sc, Move(sc, e, s))
    ensures TryDecrypt(StateOf(sc, e), FrameAt(sc, s), sc.ad, maxSkip, newKey)
         == Decrypted(Plain(sc.sent[s.chain][s.number].plain), StateOf(sc, Move(sc, e, s)))
  {
    FindCached(sc, e.cached, s);
    var k := IndexOf(e.cached, s);
    assert RemoveAt(Entries(sc.secret, sc.keys, e.cached), k) == Entries(sc.secret, sc.keys, RemoveAt(e.cached, k));
  }

  /** The frame of the slot opens under the message key of this chain key. */
  ghost predicate OpensTo<P>(sc: Script<P>, s: Slot, chain: Key)
    requires InScript(sc, s)
  {
    OpenBody(MessageKey(chain), sc.ad, FrameAt(sc, s)) == Some(sc.sent[s.chain][s.number].plain)
  }

  /** A slot at the head of the receiving chain opens under the next message key. */
  lemma OpensAt<P>(sc: Script<P>, s: Slot, epoch: nat, cached: seq<Slot>)
    requires Shaped(sc) && InScript(sc, s) && s.chain + 1 == epoch && 2 <= epoch < |sc.keys| && Within(sc.keys, cached)
    ensures var trial := StateAt(sc, epoch, s.number, cached);
            && trial.receiveChain.Some?
            && OpensTo(sc, s, trial.receiveChain.value)
            && trial.(receiveChain := Some(NextChain(trial.receiveChain.value)), receiveNumber := s.number + 1)
            == StateAt(sc, epoch, s.number + 1, cached)
  {
  }

  lemma FrameExtends<P>(sc: Script<P>, s: Slot, newKey: nat)
    requires Shaped(sc) && InScript(sc, s)
    ensures var sc' := Grown(sc, newKey);
            InScript(sc', s) && FrameAt(sc', s) == FrameAt(sc, s)
  {
    HeaderAtExtend(sc.secret, sc.keys, newKey, s.chain);
    ChainAtExtend(sc.secret, sc.keys, newKey, s.chain, s.number);
  }

  lemma CurrentAdvances<P>(sc: Script<P>, epoch: nat, received: nat, cached: seq<Slot>, s: Slot, maxSkip: nat,
                           newKey: nat)
    requires Shaped(sc) && epoch < |sc.keys| && Within(sc.keys, cached) && Behind(epoch, received, cached)
    requires InScript(sc, s) && s.chain == epoch - 1 && received <= s.number <= received + maxSkip
    ensures var kept := Keep(cached, Fill(s.chain, received, s.number));
            && Within(sc.keys, kept)
            && Advance(StateAt(sc, epoch, received, cached), Opened(HeaderOfSlot(sc, s), false), maxSkip, newKey)
            == Ok(StateAt(sc, epoch, s.number, kept))
  {
    SkipFills(sc, epoch, received, cached, s.number, maxSkip);
  }

  lemma FinishesTry<P>(st: Session, f: Frame<P>, ad: AssocData, maxSkip: nat, newKey: nat, o: Opened, trial: Session)
    requires FindSkipped(st.skipped, f.header).None? && DecryptHeader(st, f.header) == Some(o)
    requires Advance(st, o, maxSkip, newKey) == Ok(trial)
    requires trial.receiveChain.Some? && OpenBody(MessageKey(trial.receiveChain.value), ad, f).Some?
    ensures TryDecrypt(st, f, ad, maxSkip, newKey)
         == Decrypted(Plain(OpenBody(MessageKey(trial.receiveChain.value), ad, f).value),
                      trial.(receiveChain := Some(NextChain(trial.receiveChain.value)),
                             receiveNumber := o.header.number + 1))
  {
  }

  lemma DecryptsCurrent<P>(sc: Script<P>, epoch: nat, received: nat, cached: seq<Slot>, s: Slot, maxSkip: nat,
                           newKey: nat)
    requires Shaped(sc) && epoch < |sc.keys| && Within(sc.keys, cached) && Behind(epoch, received, cached)
    requires InScript(sc, s) && s.chain == epoch - 1 && received <= s.number <= received + maxSkip
    requires DecryptHeader(StateAt(sc, epoch, received, cached), FrameAt(sc, s).header)
          == Some(Opened(HeaderOfSlot(sc, s), false))
    requires FindSkipped(Entries(sc.secret, sc.keys, cached), FrameAt(sc, s).header).None?
    ensures var kept := Keep(cached, Fill(s.chain, received, s.number));
            && Within(sc.keys, kept)
            && TryDecrypt(StateAt(sc, epoch, received, cached), FrameAt(sc, s), sc.ad, maxSkip, newKey)
            == Decrypted(Plain(sc.sent[s.chain][s.number].plain), StateAt(sc, epoch, s.number + 1, kept))
  {
    CurrentAdvances(sc, epoch, received, cached, s, maxSkip, newKey);
    var kept := Keep(cached, Fill(s.chain, received, s.number));
    OpensAt(sc, s, epoch, kept);
    FinishesTry(StateAt(sc, epoch, received, cached), FrameAt(sc, s), sc.ad, maxSkip, newKey,
                Opened(HeaderOfSlot(sc, s), false), StateAt(sc, epoch, s.number, kept));
  }

  lemma NotFound<P>(sc: Script<P>, e: End, s: Slot)
    requires EndShape(sc, e) && InScript(sc, s) && s !in e.cached
    ensures FindSkipped(Entries(sc.secret, sc.keys, e.cached), FrameAt(sc, s).header).None?
  {
    FindCached(sc, e.cached, s);
  }

  lemma OpensCurrent<P>(sc: Script<P>, e: End, s: Slot)
    requires EndShape(sc, e) && InScript(sc, s) && s.chain == e.epoch - 1
    ensures DecryptHeader(StateAt(sc, e.epoch, e.received, e.cached), FrameAt(sc, s).header)
         == Some(Opened(HeaderOfSlot(sc, s), false))
  {
  }

  lemma OpensNext<P>(sc: Script<P>, e: End, s: Slot)
    requires EndShape(sc, e) && InScript(sc, s) && s.chain == e.epoch + 1
    ensures DecryptHeader(StateAt(sc, e.epoch, e.received, e.cached), FrameAt(sc, s).header)
         == Some(Opened(HeaderOfSlot(sc, s), true))
  {
  }

  lemma MoveCurrent<P>(sc: Script<P>, e: End, s: Slot, newKey: nat)
    requires EndShape(sc, e) && InScript(sc, s) && s !in e.cached && s.chain == e.epoch - 1 && e.received <= s.number
    requires EndShape(sc, Move(sc, e, s))
    ensures ScriptAfter(sc, e, s, newKey) == sc
    ensures StateOf(sc, Move(sc, e, s)) == StateAt(sc, e.epoch, s.number + 1,
                                                   Keep(e.cached, Fill(s.chain, e.received, s.number)))
  {
  }

  lemma MoveNext<P>(sc: Script<P>, e: End, s: Slot, newKey: nat)
    requires EndShape(sc, e) && InScript(sc, s) && s !in e.cached && s.chain == e.epoch + 1
    requires EndShape(ScriptAfter(sc, e, s, newKey), Move(sc, e, s))
    ensures ScriptAfter(sc, e, s, newKey) == Grown(sc, newKey)
    ensures StateOf(ScriptAfter(sc, e, s, newKey), Move(sc, e, s))
         == StateAt(Grown(sc, newKey), e.epoch + 2, s.number + 1, Keep(e.cached, Gap(sc, e.epoch, e.received, s)))
  {
  }

  lemma ReadsCurrent<P>(sc: Script<P>, e: End, s: Slot, maxSkip: nat, newKey: nat)
    requires EndShape(sc, e) && Addressed(sc, e, s)
    requires s !in e.cached && s.chain == e.epoch - 1 && e.received <= s.number <= e.received + maxSkip
    requires EndShape(sc, Move(sc, e, s))
    ensures TryDecrypt(StateOf(sc, e), FrameAt(sc, s), sc.ad, maxSkip, newKey)
         == Decrypted(Plain(sc.sent[s.chain][s.number].plain), StateOf(sc, Move(sc, e, s)))
  {
    NotFound(sc, e, s);
    OpensCurrent(sc, e, s);
    DecryptsCurrent(sc, e.epoch, e.received, e.cached, s, maxSkip, newKey);
    MoveCurrent(sc, e, s, newKey);
  }

  lemma KeepTwice(cached: seq<Slot>, a: seq<Slot>, b: seq<Slot>)
    ensures Keep(Keep(cached, a), b) == Keep(cached, a + b)
  {
  }

  /** The first of the two skips: to the end of the chain the peer has left. */
  lemma FinishesChain<P>(sc: Script<P>, epoch: nat, received: nat, cached: seq<Slot>, maxSkip: nat) returns (left: nat)
    requires Shaped(sc) && epoch + 1 < |sc.keys| && Within(sc.keys, cached) && Behind(epoch, received, cached)
    requires if epoch >= 2 then received <= |sc.sent[epoch - 1]| else received == 0
    requires PreviousLength(sc.sent, epoch + 1) <= received + maxSkip
    ensures var kept := Keep(cached, FinishedGap(sc, epoch, received));
            && Within(sc.keys, kept) && (forall k :: 0 <= k < |kept| ==> kept[k].chain < epoch)
            && (|cached| <= MAX_SKIPPED_STORED ==>
                  var previous := PreviousLength(sc.sent, epoch + 1);
                  Skip(StateAt(sc, epoch, received, cached), previous, maxSkip) == Ok(StateAt(sc, epoch, left, kept)))
  {
    if epoch >= 2 {
      left := PreviousLength(sc.sent, epoch + 1);
      SkipFills(sc, epoch, received, cached, left, maxSkip);
    } else {
      left := received;
      assert cached + FinishedGap(sc, epoch, received) == cached;
    }
  }

  /** The second skip: past a fresh DH step, from the start of the peer's new chain. */
  lemma EntersChain<P>(sc: Script<P>, epoch: nat, left: nat, first: seq<Slot>, s: Slot, maxSkip: nat, newKey: nat)
    requires Shaped(sc) && |sc.keys| == epoch + 2 && Within(sc.keys, first)
    requires forall k :: 0 <= k < |first| ==> first[k].chain < epoch
    requires InScript(sc, s) && s.chain == epoch + 1 && s.number <= maxSkip
    ensures var sc' := Grown(sc, newKey);
            var kept := Keep(first, Fill(s.chain, 0, s.number));
            && Shaped(sc') && Within(sc'.keys, kept)
            && Skip(DhStep(StateAt(sc, epoch, left, first), HeaderOfSlot(sc, s), newKey), s.number, maxSkip)
            == Ok(StateAt(sc', epoch + 2, s.number, kept))
  {
    var sc' := Grown(sc, newKey);
    StepExtends(sc, epoch, left, first, HeaderOfSlot(sc, s).previous, s.number, newKey);
    SkipFills(sc', epoch + 2, 0, first, s.number, maxSkip);
  }

  lemma AdvancesTwice(st: Session, mid: Session, last: Session, h: Header, maxSkip: nat, newKey: nat)
    requires Skip(st, h.previous, maxSkip) == Ok(mid)
    requires Skip(DhStep(mid, h, newKey), h.number, maxSkip) == Ok(last)
    ensures Advance(st, Opened(h, true), maxSkip, newKey) == Ok(last)
  {
  }

  lemma NextAdvances<P>(sc: Script<P>, epoch: nat, received: nat, cached: seq<Slot>, s: Slot, maxSkip: nat, newKey: nat)
    requires Shaped(sc) && |sc.keys| == epoch + 2 && Within(sc.keys, cached) && Behind(epoch, received, cached)
    requires if epoch >= 2 then received <= |sc.sent[epoch - 1]| else received == 0
    requires |cached| <= MAX_SKIPPED_STORED
    requires InScript(sc, s) && s.chain == epoch + 1
    requires PreviousLength(sc.sent, epoch + 1) <= received + maxSkip && s.number <= maxSkip
    ensures var sc' := Grown(sc, newKey);
            var kept := Keep(cached, Gap(sc, epoch, received, s));
            && Shaped(sc') && Within(sc'.keys, kept)
            && Advance(StateAt(sc, epoch, received, cached), Opened(HeaderOfSlot(sc, s), true), maxSkip, newKey)
            == Ok(StateAt(sc', epoch + 2, s.number, kept))
  {
    var left := FinishesChain(sc, epoch, received, cached, maxSkip);
    var first := Keep(cached, FinishedGap(sc, epoch, received));
    EntersChain(sc, epoch, left, first, s, maxSkip, newKey);
    KeepTwice(cached, FinishedGap(sc, epoch, received), Fill(s.chain, 0, s.number));
    AdvancesTwice(StateAt(sc, epoch, received, cached), StateAt(sc, epoch, left, first),
                  StateAt(Grown(sc, newKey), epoch + 2, s.number, Keep(cached, Gap(sc, epoch, received, s))),
                  HeaderOfSlot(sc, s), maxSkip, newKey);
  }

  lemma DecryptsNext<P>(sc: Script<P>, st: Session, s: Slot, kept: seq<Slot>, maxSkip: nat, newKey: nat)
    requires Shaped(sc) && InScript(sc, s) && Shaped(Grown(sc, newKey)) && Within(Grown(sc, newKey).keys, kept)
    requires |sc.keys| == s.chain + 1
    requires FindSkipped(st.skipped, FrameAt(sc, s).header).None?
    requires DecryptHeader(st, FrameAt(sc, s).header) == Some(Opened(HeaderOfSlot(sc, s), true))
    requires Advance(st, Opened(HeaderOfSlot(sc, s), true), maxSkip, newKey)
          == Ok(StateAt(Grown(sc, newKey), s.chain + 1, s.number, kept))
    ensures TryDecrypt(st, FrameAt(sc, s), sc.ad, maxSkip, newKey)
         == Decrypted(Plain(sc.sent[s.chain][s.number].plain),
                      StateAt(Grown(sc, newKey), s.chain + 1, s.number + 1, kept))
  {
    FrameExtends(sc, s, newKey);
    var sc' := Grown(sc, newKey);
    OpensAt(sc', s, s.chain + 1, kept);
    FinishesTry(st, FrameAt(sc, s), sc.ad, maxSkip, newKey, Opened(HeaderOfSlot(sc, s), true),
                StateAt(sc', s.chain + 1, s.number, kept));
  }

  lemma ReadsNextFrom<P>(sc: Script<P>, e: End, s: Slot, maxSkip: nat, newKey: nat)
    requires EndShape(sc, e) && InScript(sc, s)
    requires s.chain == e.epoch + 1 && InReach(sc, e, s, maxSkip)
    requires FindSkipped(Entries(sc.secret, sc.keys, e.cached), FrameAt(sc, s).header).None?
    requires DecryptHeader(StateAt(sc, e.epoch, e.received, e.cached), FrameAt(sc, s).header)
          == Some(Opened(HeaderOfSlot(sc, s), true))
    ensures var sc' := Grown(sc, newKey);
            var kept := Keep(e.cached, Gap(sc, e.epoch, e.received, s));
            && Shaped(sc') && Within(sc'.keys, kept)
            && TryDecrypt(StateOf(sc, e), FrameAt(sc, s), sc.ad, maxSkip, newKey)
            == Decrypted(Plain(sc.sent[s.chain][s.number].plain), StateAt(sc', e.epoch + 2, s.number + 1, kept))
  {
    NextAdvances(sc, e.epoch, e.received, e.cached, s, maxSkip, newKey);
    DecryptsNext(sc, StateOf(sc, e), s, Keep(e.cached, Gap(sc, e.epoch, e.received, s)), maxSkip, newKey);
  }

  lemma ReadsNext<P>(sc: Script<P>, e: End, s: Slot, maxSkip: nat, newKey: nat)
    requires EndShape(sc, e) && InScript(sc, s)
    requires s !in e.cached && s.chain == e.epoch + 1 && InReach(sc, e, s, maxSkip)
    requires EndShape(ScriptAfter(sc, e, s, newKey), Move(sc, e, s))
    ensures TryDecrypt(StateOf(sc, e), FrameAt(sc, s), sc.ad, maxSkip, newKey)
         == Decrypted(Plain(sc.sent[s.chain][s.number].plain), StateOf(ScriptAfter(sc, e, s, newKey), Move(sc, e, s)))
  {
    NotFound(sc, e, s);
    OpensNext(sc, e, s);
    ReadsNextFrom(sc, e, s, maxSkip, newKey);
    MoveNext(sc, e, s, newKey);
  }

  /** A slot that cannot be read is refused, and the session does not move. */
  lemma Refuses<P>(sc: Script<P>, e: End, s: Slot, maxSkip: nat, newKey: nat)
    requires EndShape(sc, e) && Addressed(sc, e, s) && !Readable(sc, e, s, maxSkip)
    ensures TryDecrypt(StateOf(sc, e), FrameAt(sc, s), sc.ad, maxSkip, newKey)
         == Decrypted(if !Passed(sc, e, s) then Thrown(TooManySkipped)
                      else if s.chain == e.epoch - 1 then Thrown(BadTag)
                      else NotThisSession,
                      StateOf(sc, e))
  {
    FindCached(sc, e.cached, s);
    HeaderOpens(sc, e, s);
    if s.chain == e.epoch - 1 && s.number < e.received {
      StaleRefused(sc, e, s, maxSkip, newKey);
    } else if s.chain == e.epoch + 1 {
      SkipsThenRefuses(sc, e, s, maxSkip, newKey);
    }
  }

  lemma StaleRefused<P>(sc: Script<P>, e: End, s: Slot, maxSkip: nat, newKey: nat)
    requires EndShape(sc, e) && Addressed(sc, e, s) && s.chain == e.epoch - 1 && s.number < e.received
    ensures Advance(StateOf(sc, e), Opened(HeaderOfSlot(sc, s), false), maxSkip, newKey) == Ok(StateOf(sc, e))
    ensures StateOf(sc, e).receiveChain.Some?
    ensures OpenBody(MessageKey(StateOf(sc, e).receiveChain.value), sc.ad, FrameAt(sc, s)).None?
  {
    ChainAtSteps(sc.secret, sc.keys, s.chain, s.number);
    ChainAtSteps(sc.secret, sc.keys, s.chain, e.received);
  }

  lemma SkipsThenRefuses<P>(sc: Script<P>, e: End, s: Slot, maxSkip: nat, newKey: nat)
    requires EndShape(sc, e) && Addressed(sc, e, s) && s.chain == e.epoch + 1
    requires !InReach(sc, e, s, maxSkip)
    ensures Advance(StateOf(sc, e), Opened(HeaderOfSlot(sc, s), true), maxSkip, newKey) == Err(TooManySkipped)
  {
  }

  lemma ReadsSlot<P>(sc: Script<P>, e: End, s: Slot, maxSkip: nat, newKey: nat)
    requires EndValid(sc, e) && Addressed(sc, e, s) && Readable(sc, e, s, maxSkip)
    requires EndValid(ScriptAfter(sc, e, s, newKey), Read(sc, e, s))
    ensures TryDecrypt(StateOf(sc, e), FrameAt(sc, s), sc.ad, maxSkip, newKey)
         == Decrypted(Plain(sc.sent[s.chain][s.number].plain), StateOf(ScriptAfter(sc, e, s, newKey), Read(sc, e, s)))
  {
    if s in e.cached {
      ReadsCached(sc, e, s, maxSkip, newKey);
    } else if s.chain == e.epoch + 1 {
      ReadsNext(sc, e, s, maxSkip, newKey);
    } else {
      ReadsCurrent(sc, e, s, maxSkip, newKey);
    }
  }

  /**
   The simulation. One frame of the peer, delivered to one end in any state: the concrete
   ratchet returns the plaintext sent exactly when the ideal receiver can read the slot, and
   moves exactly as the ideal receiver does.
   */
  lemma DecryptSimulates<P>(sc: Script<P>, e: End, s: Slot, maxSkip: nat, newKey: nat)
    requires EndValid(sc, e) && Addressed(sc, e, s)
    ensures var d := TryDecrypt(StateOf(sc, e), FrameAt(sc, s), sc.ad, maxSkip, newKey);
            if Readable(sc, e, s, maxSkip) then
              var sc' := ScriptAfter(sc, e, s, newKey);
              var e' := Read(sc, e, s);
              EndValid(sc', e') && d == Decrypted(Plain(sc.sent[s.chain][s.number].plain), StateOf(sc', e'))
            else !d.outcome.Plain? && d.next == StateOf(sc, e)
  {
    if Readable(sc, e, s, maxSkip) {
      ReadValid(sc, e, s, maxSkip, newKey);
      ReadsSlot(sc, e, s, maxSkip, newKey);
    } else {
      Refuses(sc, e, s, maxSkip, newKey);
    }
  }
}
