/**
 One sender, one receiver who joined at some point, and a network that delivers group messages
 in any order, any number of times, mixed with forgeries.
 */
module SenderKeyAgreement {
  import opened Crypto
  import opened Ratchet
  import opened SenderKey

  /** Fixed for a run: the first chain key, the signing key, the group and the skip limit. */
  datatype GroupTerms = GroupTerms(seed: Key, signing: nat, group: string, maxSkip: nat)

  datatype GroupReading<+P> = GroupReading(index: nat, plain: P)

  datatype GroupWorld<+P> = GroupWorld(
    sender: Sender, receiver: Option<Receiver>, sent: seq<P>, mail: seq<GroupMessage<P>>, read: seq<GroupReading<P>>)

  datatype GroupEvent<+P> = Say(plain: P) | Join | Arrive(index: nat) | Forge(message: GroupMessage<P>)

  function GroupStart<P>(t: GroupTerms): GroupWorld<P> {
    GroupWorld(Sender(t.seed, 0, t.signing), None, [], [], [])
  }

  function GroupStep<P(==)>(w: GroupWorld<P>, t: GroupTerms, ev: GroupEvent<P>): GroupWorld<P> {
    match ev
    case Say(plain) =>
      var (m, next) := GroupEncrypt(w.sender, plain, t.group);
      w.(sender := next, sent := w.sent + [plain], mail := w.mail + [m])
    case Join =>
      if w.receiver.Some? then w else w.(receiver := Some(InitReceiver(Distribute(w.sender))))
    case Arrive(i) =>
      if w.receiver.None? || i >= |w.mail| then w
      else
        var d := GroupDecrypt(w.receiver.value, w.mail[i], t.group, t.maxSkip);
        w.(receiver := Some(d.next),
           read := if d.outcome.Ok? then w.read + [GroupReading(i, d.outcome.value)] else w.read)
    case Forge(m) =>
      if w.receiver.None? then w else w.(receiver := Some(GroupDecrypt(w.receiver.value, m, t.group, t.maxSkip).next))
  }

  function GroupRun<P(==)>(w: GroupWorld<P>, t: GroupTerms, evs: seq<GroupEvent<P>>): GroupWorld<P>
    decreases |evs|
  {
    if evs == [] then w else GroupRun(GroupStep(w, t, evs[0]), t, evs[1..])
  }

  /** Only the sender can sign as the sender. */
  ghost predicate NoForgedSignature<P>(t: GroupTerms, evs: seq<GroupEvent<P>>) {
    forall i :: 0 <= i < |evs| && evs[i].Forge? ==> !Genuine(evs[i].message, t.group, t.signing)
  }

  // ---- the ideal receiver ----

  datatype Ear = Ear(start: nat, next: nat, cached: seq<nat>, got: set<nat>, lost: set<nat>)

  function GroupChain(seed: Key, n: nat): Key {
    if n == 0 then seed else NextChain(GroupChain(seed, n - 1))
  }

  function GroupKey(seed: Key, n: nat): Key {
    MessageKey(GroupChain(seed, n))
  }

  ghost predicate Increasing(s: seq<nat>) {
    forall i, j :: 0 <= i < j < |s| ==> s[i] < s[j]
  }

  ghost predicate Below(s: seq<nat>, n: nat) {
    forall k :: 0 <= k < |s| ==> s[k] < n
  }

  /** Every index behind the ear was read, is cached or was evicted, and only one of the three. */
  ghost predicate EarBalanced(e: Ear) {
    && (forall i: nat :: e.start <= i < e.next <==> i in e.cached || i in e.got || i in e.lost)
    && (forall i :: i in e.got ==> i !in e.lost && i !in e.cached)
    && (forall i :: i in e.lost ==> i !in e.cached)
  }

  ghost predicate EarValid(e: Ear) {
    && e.start <= e.next && Increasing(e.cached) && Below(e.cached, e.next) && |e.cached| <= MAX_SKIPPED_STORED
    && EarBalanced(e)
    && (forall i, j :: i in e.lost && j in e.cached ==> i < j)
  }

  ghost function CachedKeys(seed: Key, s: seq<nat>): (r: seq<Cached>)
    ensures |r| == |s|
    ensures forall k :: 0 <= k < |s| ==> r[k] == Cached(s[k], GroupKey(seed, s[k]))
  {
    seq(|s|, k requires 0 <= k < |s| => Cached(s[k], GroupKey(seed, s[k])))
  }

  ghost function ReceiverOf(t: GroupTerms, e: Ear): Receiver {
    Receiver(GroupChain(t.seed, e.next), e.next, t.signing, CachedKeys(t.seed, e.cached))
  }

  function Range(from: nat, until: nat): (r: seq<nat>)
    ensures |r| == if from < until then until - from else 0
    ensures forall k :: 0 <= k < |r| ==> r[k] == from + k
  {
    seq(if from < until then until - from else 0, k requires k >= 0 => from + k)
  }

  function KeepRange(cached: seq<nat>, from: nat, until: nat): seq<nat> {
    KeepNewest(cached + Range(from, until), MAX_SKIPPED_STORED)
  }

  ghost predicate Audible(e: Ear, i: nat, maxSkip: nat) {
    i in e.cached || e.next <= i <= e.next + maxSkip
  }

  ghost function Dropped(cached: seq<nat>, from: nat, until: nat): set<nat> {
    set x | x in cached + Range(from, until) && x !in KeepRange(cached, from, until)
  }

  ghost function Hear(e: Ear, i: nat): Ear {
    if i in e.cached then e.(cached := RemoveAt(e.cached, IndexOf(e.cached, i)), got := e.got + {i})
    else Ear(e.start, i + 1, KeepRange(e.cached, e.next, i), e.got + {i}, e.lost + Dropped(e.cached, e.next, i))
  }

  lemma RemovePlace(cached: seq<nat>, i: nat)
    requires i in cached && Increasing(cached)
    ensures var rest := RemoveAt(cached, IndexOf(cached, i));
            Increasing(rest) && forall x :: x in rest <==> x in cached && x != i
  {
  }

  lemma HearValid(e: Ear, i: nat, maxSkip: nat)
    requires EarValid(e) && Audible(e, i, maxSkip)
    ensures EarValid(Hear(e, i))
  {
    if i in e.cached {
      HearsCached(e, i);
    } else {
      HearsAhead(e, i);
    }
  }

  lemma HearsCached(e: Ear, i: nat)
    requires EarValid(e) && i in e.cached
    ensures EarValid(Hear(e, i))
  {
    RemovePlace(e.cached, i);
    var e' := Hear(e, i);
    assert Below(e'.cached, e'.next);
    assert EarBalanced(e');
  }

  lemma RangeHas(from: nat, until: nat)
    ensures forall x: nat :: x in Range(from, until) <==> from <= x < until
  {
    forall x: nat | from <= x < until ensures x in Range(from, until) {
      assert Range(from, until)[x - from] == x;
    }
  }

  lemma SuffixIsNewest(all: seq<nat>, kept: seq<nat>)
    requires Increasing(all) && |kept| <= |all| && kept == all[|all| - |kept|..]
    ensures Increasing(kept)
    ensures forall x, y :: x in all && x !in kept && y in kept ==> x < y
  {
  }

  lemma RangeFollows(cached: seq<nat>, from: nat, until: nat)
    requires Increasing(cached) && Below(cached, from) && from <= until
    ensures Increasing(cached + Range(from, until)) && Below(cached + Range(from, until), until)
    ensures forall x: nat :: x in cached + Range(from, until) <==> x in cached || from <= x < until
  {
    RangeHas(from, until);
    assert forall x :: x in cached + Range(from, until) <==> x in cached || x in Range(from, until);
  }

  lemma KeepsNewest(cached: seq<nat>, from: nat, until: nat)
    requires Increasing(cached) && Below(cached, from) && from <= until
    ensures Increasing(KeepRange(cached, from, until)) && Below(KeepRange(cached, from, until), until)
    ensures forall x, y :: x in Dropped(cached, from, until) && y in KeepRange(cached, from, until) ==> x < y
    ensures forall x: nat :: x in cached || from <= x < until
                        <==> x in KeepRange(cached, from, until) || x in Dropped(cached, from, until)
  {
    var all := cached + Range(from, until);
    RangeFollows(cached, from, until);
    SuffixIsNewest(all, KeepRange(cached, from, until));
    assert forall x :: x in KeepRange(cached, from, until) ==> x in all;
  }

  lemma HearsAhead(e: Ear, i: nat)
    requires EarValid(e) && i !in e.cached && e.next <= i
    ensures EarValid(Hear(e, i))
  {
    KeepsNewest(e.cached, e.next, i);
    EarStaysBalanced(e, i);
    LostStayOldest(e, i);
  }

  lemma EarStaysBalanced(e: Ear, i: nat)
    requires EarValid(e) && i !in e.cached && e.next <= i
    ensures EarBalanced(Hear(e, i))
  {
    KeepsNewest(e.cached, e.next, i);
    var e' := Hear(e, i);
    forall x: nat ensures e'.start <= x < e'.next <==> x in e'.cached || x in e'.got || x in e'.lost {
      assert x in e'.lost <==> x in e.lost || x in Dropped(e.cached, e.next, i);
    }
  }

  lemma LostStayOldest(e: Ear, i: nat)
    requires EarValid(e) && i !in e.cached && e.next <= i
    ensures forall x, y :: x in Hear(e, i).lost && y in Hear(e, i).cached ==> x < y
  {
    KeepsNewest(e.cached, e.next, i);
    forall x: nat, y: nat | x in e.lost && y in KeepRange(e.cached, e.next, i) ensures x < y {
      assert y in e.cached || e.next <= y;
      assert e.start <= x < e.next;
    }
  }

  // ---- the concrete receiver does the same ----

  lemma FindCachedKey(seed: Key, cached: seq<nat>, i: nat)
    ensures FindKey(CachedKeys(seed, cached), i) == if i in cached then Some(IndexOf(cached, i)) else None
  {
  }

  lemma {:induction false} PutKeyAppends(s: seq<Cached>, x: Cached)
    requires forall k :: 0 <= k < |s| ==> s[k].iteration != x.iteration
    ensures PutKey(s, x) == s + [x]
  {
    if s != [] {
      PutKeyAppends(s[1..], x);
    }
  }

  lemma {:induction false} WalkKeysFill(seed: Key, from: nat, until: nat, cached: seq<nat>)
    requires from <= until && forall k :: 0 <= k < |cached| ==> cached[k] < from
    ensures WalkKeys(GroupChain(seed, from), from, until, CachedKeys(seed, cached))
         == KeyWalk(GroupChain(seed, until), CachedKeys(seed, cached + Range(from, until)))
    decreases until - from
  {
    if from == until {
      assert cached + Range(from, until) == cached;
    } else {
      PutKeyAppends(CachedKeys(seed, cached), Cached(from, GroupKey(seed, from)));
      assert CachedKeys(seed, cached) + [Cached(from, GroupKey(seed, from))] == CachedKeys(seed, cached + [from]);
      WalkKeysFill(seed, from + 1, until, cached + [from]);
      assert cached + [from] + Range(from + 1, until) == cached + Range(from, until);
    }
  }

  lemma KeyForSimulates(t: GroupTerms, e: Ear, i: nat)
    requires EarValid(e)
    ensures KeyFor(ReceiverOf(t, e), i, t.maxSkip)
         == if Audible(e, i, t.maxSkip) then KeyFound(Ok(GroupKey(t.seed, i)), ReceiverOf(t, Hear(e, i)))
            else KeyFound(Err(if i < e.next then TooOld else TooFar), ReceiverOf(t, e))
  {
    FindCachedKey(t.seed, e.cached, i);
    if i in e.cached {
      var k := IndexOf(e.cached, i);
      assert RemoveAt(CachedKeys(t.seed, e.cached), k) == CachedKeys(t.seed, RemoveAt(e.cached, k));
    } else if Audible(e, i, t.maxSkip) {
      WalkKeysFill(t.seed, e.next, i, e.cached);
      assert KeepNewest(CachedKeys(t.seed, e.cached + Range(e.next, i)), MAX_SKIPPED_STORED)
          == CachedKeys(t.seed, KeepRange(e.cached, e.next, i));
    }
  }

  // ---- every run ----

  ghost function MessageAt<P>(t: GroupTerms, sent: seq<P>, i: nat): GroupMessage<P>
    requires i < |sent|
  {
    var body := GroupBody(GroupKey(t.seed, i), t.group, sent[i]);
    GroupMessage(i, body, GroupSignature(t.signing, i % U32, body, t.group))
  }

  ghost predicate HeardBefore<P>(read: seq<GroupReading<P>>, i: nat) {
    exists k :: 0 <= k < |read| && read[k].index == i
  }

  ghost predicate Follows<P>(w: GroupWorld<P>, t: GroupTerms, e: Ear) {
    && w.sender == Sender(GroupChain(t.seed, |w.sent|), |w.sent|, t.signing)
    && |w.mail| == |w.sent| && (forall i :: 0 <= i < |w.mail| ==> w.mail[i] == MessageAt(t, w.sent, i))
    && (forall k :: 0 <= k < |w.read| ==> w.read[k].index < |w.sent| && w.read[k].plain == w.sent[w.read[k].index])
    && (forall j, k :: 0 <= j < k < |w.read| ==> w.read[j].index != w.read[k].index)
    && match w.receiver
       case None => w.read == []
       case Some(r) =>
         && EarValid(e) && e.next <= |w.sent| && r == ReceiverOf(t, e)
         && (forall i: nat :: HeardBefore(w.read, i) <==> i in e.got)
  }

  lemma ReadAppended<P>(read: seq<GroupReading<P>>, i: nat, plain: P)
    ensures forall j: nat :: HeardBefore(read + [GroupReading(i, plain)], j) <==> HeardBefore(read, j) || j == i
  {
    var more := read + [GroupReading(i, plain)];
    assert more[|read|].index == i;
    forall j: nat | HeardBefore(read, j) ensures HeardBefore(more, j) {
      var k :| 0 <= k < |read| && read[k].index == j;
      assert more[k].index == j;
    }
  }

  lemma HeardFollows<P>(w: GroupWorld<P>, t: GroupTerms, e: Ear, i: nat)
    requires Follows(w, t, e) && w.receiver.Some? && i < |w.mail| && Audible(e, i, t.maxSkip)
    ensures Follows(w.(receiver := Some(ReceiverOf(t, Hear(e, i))), read := w.read + [GroupReading(i, w.sent[i])]), t,
                    Hear(e, i))
  {
    HearValid(e, i, t.maxSkip);
    ReadAppended(w.read, i, w.sent[i]);
    assert i !in e.got;
  }

  lemma ArriveFollows<P>(w: GroupWorld<P>, t: GroupTerms, e: Ear, i: nat) returns (e': Ear)
    requires Follows(w, t, e)
    ensures Follows(GroupStep(w, t, Arrive(i)), t, e')
  {
    e' := e;
    if w.receiver.Some? && i < |w.mail| {
      KeyForSimulates(t, e, i);
      if Audible(e, i, t.maxSkip) {
        HeardFollows(w, t, e, i);
        e' := Hear(e, i);
      }
    }
  }

  lemma GroupStepFollows<P>(w: GroupWorld<P>, t: GroupTerms, e: Ear, ev: GroupEvent<P>) returns (e': Ear)
    requires Follows(w, t, e)
    requires ev.Forge? ==> !Genuine(ev.message, t.group, t.signing)
    ensures Follows(GroupStep(w, t, ev), t, e')
  {
    match ev
    case Say(_) =>
      e' := e;
    case Join =>
      e' := if w.receiver.Some? then e else Ear(|w.sent|, |w.sent|, [], {}, {});
      assert CachedKeys(t.seed, []) == [];
    case Arrive(i) =>
      e' := ArriveFollows(w, t, e, i);
    case Forge(_) =>
      e' := e;
  }

  lemma {:induction false} GroupRunFollows<P>(w: GroupWorld<P>, t: GroupTerms, e: Ear, evs: seq<GroupEvent<P>>)
    returns (e': Ear)
    requires Follows(w, t, e) && NoForgedSignature(t, evs)
    ensures Follows(GroupRun(w, t, evs), t, e')
    decreases |evs|
  {
    if evs == [] {
      e' := e;
    } else {
      var e1 := GroupStepFollows(w, t, e, evs[0]);
      e' := GroupRunFollows(GroupStep(w, t, evs[0]), t, e1, evs[1..]);
    }
  }

  /** In every reachable world the receiver is in step with the sender. */
  lemma GroupRunFromStart<P>(t: GroupTerms, evs: seq<GroupEvent<P>>) returns (e: Ear)
    requires NoForgedSignature(t, evs)
    ensures Follows(GroupRun(GroupStart(t), t, evs), t, e)
  {
    e := GroupRunFollows(GroupStart(t), t, Ear(0, 0, [], {}, {}), evs);
  }

  /**
   A group message opens if and only if it was sent after the receiver joined, was not read, was
   not evicted, and is not too far ahead; it opens to what was sent. A duplicate is too old.
   */
  lemma GroupAgreement<P>(w: GroupWorld<P>, t: GroupTerms, e: Ear, i: nat)
    requires Follows(w, t, e) && w.receiver.Some? && i < |w.mail|
    ensures var d := GroupDecrypt(w.receiver.value, w.mail[i], t.group, t.maxSkip);
            && (d.outcome.Ok? <==> e.start <= i <= e.next + t.maxSkip && !HeardBefore(w.read, i) && i !in e.lost)
            && (d.outcome.Ok? ==> d.outcome.value == w.sent[i])
            && (HeardBefore(w.read, i) ==> d.outcome == Err(TooOld))
            && (d.outcome.Err? ==> d.next == w.receiver.value)
  {
    KeyForSimulates(t, e, i);
    assert i in e.cached ==> i !in e.got && i !in e.lost;
  }

  /** The receiver's chain is the sender's at that iteration, and every cached key is the sender's for its index. */
  lemma ChainsAgree<P>(t: GroupTerms, evs: seq<GroupEvent<P>>, r: Receiver)
    requires NoForgedSignature(t, evs)
    requires GroupRun(GroupStart<P>(t), t, evs).receiver == Some(r)
    ensures 0 <= r.iteration <= |GroupRun(GroupStart<P>(t), t, evs).sent| && r.chain == GroupChain(t.seed, r.iteration)
    ensures forall k :: 0 <= k < |r.skipped| ==>
              && 0 <= r.skipped[k].iteration < r.iteration
              && r.skipped[k].messageKey == GroupKey(t.seed, r.skipped[k].iteration)
    ensures forall j, k :: 0 <= j < k < |r.skipped| ==> r.skipped[j].iteration < r.skipped[k].iteration
  {
    var e := GroupRunFromStart(t, evs);
  }

  /** Whatever the network does, each group message is read at most once, as it was sent. */
  lemma GroupExactlyOnce<P>(t: GroupTerms, evs: seq<GroupEvent<P>>)
    requires NoForgedSignature(t, evs)
    ensures var w := GroupRun(GroupStart(t), t, evs);
            && (forall k :: 0 <= k < |w.read| ==>
                  w.read[k].index < |w.sent| && w.read[k].plain == w.sent[w.read[k].index])
            && (forall j, k :: 0 <= j < k < |w.read| ==> w.read[j].index != w.read[k].index)
  {
    var e := GroupRunFromStart(t, evs);
  }

  /** However far ahead a signed message claims to be, the store keeps to its cap. */
  lemma GroupStoreBounded<P>(r: Receiver, m: GroupMessage<P>, group: string, maxSkip: nat)
    requires |r.skipped| <= MAX_SKIPPED_STORED
    ensures |GroupDecrypt(r, m, group, maxSkip).next.skipped| <= MAX_SKIPPED_STORED
  {
  }
}
