/** The ratchet at rest: the bounded store of skipped keys, and saving and reloading a session. */
module RatchetStore {
  import opened Crypto
  import opened Ratchet
  import opened RatchetSingleUse

  // ---- the bound ----

  /** However far a frame claims to be ahead, the store never holds more than the cap. */
  lemma StoreBounded<P>(st: Session, f: Frame<P>, ad: AssocData, maxSkip: nat, newKey: nat)
    requires |st.skipped| <= MAX_SKIPPED_STORED
    ensures |TryDecrypt(st, f, ad, maxSkip, newKey).next.skipped| <= MAX_SKIPPED_STORED
  {
  }

  // ---- at rest ----

  /** Base64 strings holding the bytes of a key, a public point and a secret scalar. */
  datatype KeyText = KeyText(key: Key)
  datatype PointText = PointText(point: Point)
  datatype SecretText = SecretText(secret: nat)

  /** One entry of the saved map: its string key, and its value. */
  datatype StoredSkipped = StoredSkipped(idHeader: Key, idNumber: nat, headerKey: KeyText, messageKey: KeyText,
                                         number: nat)

  datatype StoredSession = StoredSession(
    root: KeyText,
    selfPublic: PointText,
    selfSecret: SecretText,
    remote: Option<PointText>,
    sendChain: Option<KeyText>,
    receiveChain: Option<KeyText>,
    sendHeader: Option<KeyText>,
    receiveHeader: Option<KeyText>,
    nextSendHeader: Option<KeyText>,
    nextReceiveHeader: Option<KeyText>,
    sendNumber: nat,
    receiveNumber: nat,
    previousLength: nat,
    skipped: seq<StoredSkipped>)

  function WriteKey(k: Option<Key>): Option<KeyText> {
    if k.Some? then Some(KeyText(k.value)) else None
  }

  function ReadKey(t: Option<KeyText>): Option<Key> {
    if t.Some? then Some(t.value.key) else None
  }

  function Serialize(st: Session): StoredSession {
    StoredSession(
      KeyText(st.root), PointText(Point(st.self)), SecretText(st.self),
      if st.remote.Some? then Some(PointText(st.remote.value)) else None,
      WriteKey(st.sendChain), WriteKey(st.receiveChain), WriteKey(st.sendHeader), WriteKey(st.receiveHeader),
      WriteKey(st.nextSendHeader), WriteKey(st.nextReceiveHeader),
      st.sendNumber, st.receiveNumber, st.previousLength,
      seq(|st.skipped|, k requires 0 <= k < |st.skipped| =>
        var x := st.skipped[k];
        StoredSkipped(x.headerKey, x.number, KeyText(x.headerKey), KeyText(x.messageKey), x.number)))
  }

  /** new Map(entries): entries are set one after the other. */
  function FromEntries(s: seq<StoredSkipped>): seq<Skipped> {
    if s == [] then []
    else
      var x := s[|s| - 1];
      Put(FromEntries(s[..|s| - 1]), Skipped(x.headerKey.key, x.number, x.messageKey.key))
  }

  function Deserialize(t: StoredSession): Session {
    Session(
      t.root.key,
      t.selfSecret.secret,
      if t.remote.Some? then Some(t.remote.value.point) else None,
      ReadKey(t.sendChain), ReadKey(t.receiveChain), ReadKey(t.sendHeader), ReadKey(t.receiveHeader),
      ReadKey(t.nextSendHeader), ReadKey(t.nextReceiveHeader),
      t.sendNumber, t.receiveNumber, t.previousLength,
      FromEntries(t.skipped))
  }

  // ---- no slot is stored twice ----

  ghost predicate DistinctSlots(s: seq<Skipped>) {
    forall i, j :: 0 <= i < j < |s| ==> !SameSlot(s[i], s[j])
  }

  lemma {:induction false} PutKeepsDistinct(s: seq<Skipped>, x: Skipped)
    requires DistinctSlots(s)
    ensures DistinctSlots(Put(s, x))
    ensures forall y :: y in Put(s, x) ==> SameSlot(y, x) || y in s
  {
    if s != [] && !SameSlot(s[0], x) {
      PutKeepsDistinct(s[1..], x);
      var r := Put(s[1..], x);
      forall j | 0 <= j < |r| ensures !SameSlot(s[0], r[j]) {
        assert r[j] in r;
        if r[j] in s[1..] {
          var i :| 0 <= i < |s[1..]| && s[1..][i] == r[j];
          assert s[i + 1] == r[j];
        }
      }
    }
  }

  lemma {:induction false} WalkKeepsDistinct(chain: Key, headerKey: Key, from: nat, until: nat, store: seq<Skipped>)
    requires DistinctSlots(store)
    ensures DistinctSlots(WalkChain(chain, headerKey, from, until, store).store)
    decreases until - from
  {
    if from < until {
      PutKeepsDistinct(store, Skipped(headerKey, from, MessageKey(chain)));
      WalkKeepsDistinct(NextChain(chain), headerKey, from + 1, until,
                        Put(store, Skipped(headerKey, from, MessageKey(chain))));
    }
  }

  lemma SkipKeepsDistinct(st: Session, until: nat, maxSkip: nat)
    requires DistinctSlots(st.skipped) && Skip(st, until, maxSkip).Ok?
    ensures DistinctSlots(Skip(st, until, maxSkip).value.skipped)
  {
    if st.receiveChain.Some? && st.receiveHeader.Some? {
      WalkKeepsDistinct(st.receiveChain.value, st.receiveHeader.value, st.receiveNumber, until, st.skipped);
    }
  }

  lemma PerformKeepsDistinct<P>(st: Session, act: Act<P>)
    requires DistinctSlots(st.skipped)
    ensures DistinctSlots(Perform(st, act).skipped)
  {
    if act.Gets? {
      match FindSkipped(st.skipped, act.frame.header)
      case Some(k) =>
        var rest := RemoveAt(st.skipped, k);
        forall i | 0 <= i < |rest| ensures rest[i] == if i < k then st.skipped[i] else st.skipped[i + 1] {
        }
      case None =>
        match DecryptHeader(st, act.frame.header)
        case None =>
        case Some(o) =>
          AdvanceKeepsDistinct(st, o, act.maxSkip, act.newKey);
    }
  }

  lemma AdvanceKeepsDistinct(st: Session, o: Opened, maxSkip: nat, newKey: nat)
    requires DistinctSlots(st.skipped)
    ensures Advance(st, o, maxSkip, newKey).Ok? ==> DistinctSlots(Advance(st, o, maxSkip, newKey).value.skipped)
  {
    if o.steps {
      if Skip(st, o.header.previous, maxSkip).Ok? {
        SkipKeepsDistinct(st, o.header.previous, maxSkip);
        var mid := DhStep(Skip(st, o.header.previous, maxSkip).value, o.header, newKey);
        if Skip(mid, o.header.number, maxSkip).Ok? {
          SkipKeepsDistinct(mid, o.header.number, maxSkip);
        }
      }
    } else if Skip(st, o.header.number, maxSkip).Ok? {
      SkipKeepsDistinct(st, o.header.number, maxSkip);
    }
  }

  // ---- saving and reloading ----

  lemma {:induction false} EntriesRoundTrip(st: Session, n: nat)
    requires DistinctSlots(st.skipped) && n <= |st.skipped|
    ensures FromEntries(Serialize(st).skipped[..n]) == st.skipped[..n]
  {
    if n > 0 {
      EntriesRoundTrip(st, n - 1);
      assert Serialize(st).skipped[..n][..n - 1] == Serialize(st).skipped[..n - 1];
      PutAppends(st.skipped[..n - 1], st.skipped[n - 1]);
    }
  }

  /** Reloading gives back the session, skipped keys in their order of insertion. */
  lemma RoundTrip(st: Session)
    requires DistinctSlots(st.skipped)
    ensures Deserialize(Serialize(st)) == st
  {
    EntriesRoundTrip(st, |st.skipped|);
    assert Serialize(st).skipped[..|st.skipped|] == Serialize(st).skipped;
    assert st.skipped[..|st.skipped|] == st.skipped;
  }

  /** The keystore's way: load, act, save, every time. */
  function PerformSaved<P>(t: StoredSession, acts: seq<Act<P>>): StoredSession
    decreases |acts|
  {
    if acts == [] then t else PerformSaved(Serialize(Perform(Deserialize(t), acts[0])), acts[1..])
  }

  /**
   Persisting is transparent. A run that saves and reloads between any two operations ends in
   the same session as one kept in memory, so it returns and evicts the same.
   */
  lemma {:induction false} PersistingIsTransparent<P>(st: Session, acts: seq<Act<P>>)
    requires DistinctSlots(st.skipped)
    ensures Deserialize(PerformSaved(Serialize(st), acts)) == PerformAll(st, acts)
    decreases |acts|
  {
    RoundTrip(st);
    if acts != [] {
      PerformKeepsDistinct(st, acts[0]);
      PersistingIsTransparent(Perform(st, acts[0]), acts[1..]);
    }
  }
}
