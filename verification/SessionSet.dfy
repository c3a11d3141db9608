/** Reading a message on whichever of a contact's sessions it belongs to, and the tie-break of a glare. */
module SessionSet {
  import opened Crypto
  import opened Ratchet
  import opened RatchetState
  import opened Text

  // ---- the tie-break ----

  predicate IsDesignatedInitiator(me: string, peer: string) {
    Less(me, peer)
  }

  /**
   In code units: the shorter of two names that agree so far, or the one with the smaller unit at the
   first difference.
   */
  ghost predicate Smaller(a: string, b: string) {
    exists i: nat :: && i <= |a| && i < |b| && a[..i] == b[..i]
                     && (i == |a| || a[i] < b[i])
  }

  lemma AgreeingStart(a: string, b: string, i: nat)
    requires 0 < i <= |a| && i <= |b| && a[..i] == b[..i]
    ensures a[0] == b[0]
  {
    assert a[..i][0] == b[..i][0];
  }

  lemma {:induction false} SmallerInitiates(me: string, peer: string)
    ensures IsDesignatedInitiator(me, peer) <==> Smaller(me, peer)
  {
    if peer == [] {
    } else if me == [] {
      assert me[..0] == peer[..0];
    } else if me[0] != peer[0] {
      assert me[..0] == peer[..0];
      if i: nat :| i <= |me| && i < |peer| && me[..i] == peer[..i] && (i == |me| || me[i] < peer[i]) {
        if i > 0 {
          AgreeingStart(me, peer, i);
        }
      }
    } else {
      SmallerInitiates(me[1..], peer[1..]);
      if i: nat :|
          i <= |me[1..]| && i < |peer[1..]| && me[1..][..i] == peer[1..][..i]
          && (i == |me[1..]| || me[1..][i] < peer[1..][i]) {
        assert me[..i + 1] == [me[0]] + me[1..][..i] && peer[..i + 1] == [peer[0]] + peer[1..][..i];
        assert i + 1 == |me| || me[i + 1] < peer[i + 1];
      }
      if i: nat :| i <= |me| && i < |peer| && me[..i] == peer[..i] && (i == |me| || me[i] < peer[i]) {
        assert i > 0;
        assert me[1..][..i - 1] == me[..i][1..] && peer[1..][..i - 1] == peer[..i][1..];
        assert i - 1 == |me[1..]| || me[1..][i - 1] < peer[1..][i - 1];
      }
    }
  }

  /** The two sides never both claim the role and never both yield it. */
  lemma OneDesignatedInitiator(a: string, b: string)
    ensures a == b ==> !IsDesignatedInitiator(a, b)
    ensures a != b ==> (IsDesignatedInitiator(a, b) <==> !IsDesignatedInitiator(b, a))
  {
    Trichotomy(a, b);
  }

  function CurrentAfterAdopting(me: string, peer: string, current: nat, adopted: nat): nat {
    if IsDesignatedInitiator(me, peer) then current else adopted
  }

  // ---- trial decryption ----

  datatype Held = Held(ratchet: Session, ad: AssocData)

  datatype Trial<+P> = Matched(index: nat, plain: P) | NoneMatched | Broken(error: Error)

  function Try<P>(h: Held, f: Frame<P>, maxSkip: nat, newKey: nat): Decrypted<P> {
    TryDecrypt(h.ratchet, f, h.ad, maxSkip, newKey)
  }

  /** Sessions `from` up to `until` all say the frame is not theirs. */
  ghost predicate NotTheirs<P>(held: seq<Held>, from: nat, until: nat, f: Frame<P>, maxSkip: nat, newKey: nat)
    requires until <= |held|
  {
    forall k :: from <= k < until ==> Try(held[k], f, maxSkip, newKey).outcome.NotThisSession?
  }

  /** Sessions in order; only "not this session" moves on to the next one. */
  function TrialFrom<P>(held: seq<Held>, from: nat, f: Frame<P>, maxSkip: nat, newKey: nat): (t: Trial<P>)
    ensures t.Matched? ==> from <= t.index < |held| && Try(held[t.index], f, maxSkip, newKey).outcome == Plain(t.plain)
    ensures t.Matched? ==> NotTheirs(held, from, t.index, f, maxSkip, newKey)
    ensures t.NoneMatched? ==> NotTheirs(held, from, |held|, f, maxSkip, newKey)
    ensures t.Broken? ==> exists k :: from <= k < |held| && Try(held[k], f, maxSkip, newKey).outcome == Thrown(t.error)
                                      && NotTheirs(held, from, k, f, maxSkip, newKey)
    decreases |held| - from
  {
    if from >= |held| then NoneMatched
    else
      match Try(held[from], f, maxSkip, newKey).outcome
      case Plain(p) => Matched(from, p)
      case Thrown(e) => Broken(e)
      case NotThisSession => TrialFrom(held, from + 1, f, maxSkip, newKey)
  }

  function TrialDecrypt<P>(held: seq<Held>, f: Frame<P>, maxSkip: nat, newKey: nat): Trial<P> {
    TrialFrom(held, 0, f, maxSkip, newKey)
  }

  /** The sessions after a trial: the one that matched has moved on, every other is as it was. */
  function AfterTrial<P>(held: seq<Held>, t: Trial<P>, f: Frame<P>, maxSkip: nat, newKey: nat): seq<Held>
    requires t.Matched? ==> t.index < |held|
  {
    if t.Matched? then held[t.index := Held(Try(held[t.index], f, maxSkip, newKey).next, held[t.index].ad)] else held
  }

  // ---- the loop over live sessions ----

  datatype SessionEntry = SessionEntry(ratchet: RatchetState, ad: AssocData)

  ghost predicate DistinctRatchets(sessions: seq<SessionEntry>) {
    forall i, j :: 0 <= i < j < |sessions| ==> sessions[i].ratchet != sessions[j].ratchet
  }

  function HeldBy(e: SessionEntry): Held
    reads e.ratchet
  {
    Held(e.ratchet.View(), e.ad)
  }

  function AllHeld(sessions: seq<SessionEntry>): (r: seq<Held>)
    reads set k | 0 <= k < |sessions| :: sessions[k].ratchet
    ensures |r| == |sessions|
    ensures forall k :: 0 <= k < |r| ==> r[k] == HeldBy(sessions[k])
  {
    if sessions == [] then [] else [HeldBy(sessions[0])] + AllHeld(sessions[1..])
  }

  method TrialDecryptSessions<P>(sessions: seq<SessionEntry>, f: Frame<P>, maxSkip: nat, newKey: nat)
    returns (r: Trial<P>)
    requires DistinctRatchets(sessions)
    modifies set k | 0 <= k < |sessions| :: sessions[k].ratchet
    ensures r == TrialDecrypt(old(AllHeld(sessions)), f, maxSkip, newKey)
    ensures forall k :: 0 <= k < |sessions| ==>
              sessions[k].ratchet.View() == AfterTrial(old(AllHeld(sessions)), r, f, maxSkip, newKey)[k].ratchet
  {
    ghost var held := AllHeld(sessions);
    for index := 0 to |sessions|
      invariant forall k :: 0 <= k < |sessions| ==> sessions[k].ratchet.View() == old(sessions[k].ratchet.View())
      invariant TrialDecrypt(held, f, maxSkip, newKey) == TrialFrom(held, index, f, maxSkip, newKey)
    {
      assert held[index] == HeldBy(sessions[index]);
      var plain, _ := sessions[index].ratchet.TryRatchetDecrypt(f, sessions[index].ad, maxSkip, newKey);
      match plain {
        case Plain(p) =>
          return Matched(index, p);
        case Thrown(e) =>
          return Broken(e);
        case NotThisSession =>
      }
    }
    r := NoneMatched;
  }
}
