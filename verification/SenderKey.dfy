/** Sender keys: one signed, symmetric chain per sender and group. */
module SenderKey {
  import opened Crypto
  import opened Ratchet

  datatype Sender = Sender(chain: Key, iteration: nat, signing: nat)

  datatype Cached = Cached(iteration: int, messageKey: Key)

  datatype Receiver = Receiver(chain: Key, iteration: int, signer: nat, skipped: seq<Cached>)

  datatype Distribution = Distribution(chain: Key, signer: nat, iteration: int)

  datatype GroupBody<+P> = GroupBody(key: Key, group: string, plain: P) | JunkGroupBody(bytes: nat)

  /** The signature covers the iteration as an unsigned 32-bit number, the body and the group. */
  datatype GroupSignature<+P> =
    | GroupSignature(signer: nat, iteration32: int, body: GroupBody<P>, group: string)
    | JunkSignature(bytes: nat)

  datatype GroupMessage<+P> = GroupMessage(iteration: int, body: GroupBody<P>, signature: GroupSignature<P>)

  datatype GroupError = BadGroupSignature | TooOld | TooFar | BadGroupTag

  datatype GroupOpened<+P> = GroupOpened(outcome: Result<P, GroupError>, next: Receiver)

  function Distribute(s: Sender): Distribution {
    Distribution(s.chain, s.signing, s.iteration)
  }

  function InitReceiver(d: Distribution): Receiver {
    Receiver(d.chain, d.iteration, d.signer, [])
  }

  function GroupEncrypt<P>(s: Sender, plain: P, group: string): (GroupMessage<P>, Sender) {
    var body := GroupBody(MessageKey(s.chain), group, plain);
    (GroupMessage(s.iteration, body, GroupSignature(s.signing, s.iteration % U32, body, group)),
     s.(chain := NextChain(s.chain), iteration := s.iteration + 1))
  }

  predicate Genuine<P(==)>(m: GroupMessage<P>, group: string, signer: nat) {
    m.signature == GroupSignature(signer, m.iteration % U32, m.body, group)
  }

  // ---- the insertion-ordered map of skipped keys ----

  function PutKey(s: seq<Cached>, x: Cached): seq<Cached> {
    if s == [] then [x]
    else if s[0].iteration == x.iteration then [x] + s[1..]
    else [s[0]] + PutKey(s[1..], x)
  }

  function FindKey(s: seq<Cached>, iteration: int): (r: Option<nat>)
    ensures r.Some? ==> r.value < |s| && s[r.value].iteration == iteration
    ensures r.Some? ==> forall j :: 0 <= j < r.value ==> s[j].iteration != iteration
    ensures r.None? ==> forall j :: 0 <= j < |s| ==> s[j].iteration != iteration
  {
    if s == [] then None
    else if s[0].iteration == iteration then Some(0)
    else
      match FindKey(s[1..], iteration)
      case None => None
      case Some(k) => Some(k + 1)
  }

  datatype KeyWalk = KeyWalk(chain: Key, store: seq<Cached>)

  function WalkKeys(chain: Key, from: int, until: int, store: seq<Cached>): KeyWalk
    decreases until - from
  {
    if until <= from then KeyWalk(chain, store)
    else WalkKeys(NextChain(chain), from + 1, until, PutKey(store, Cached(from, MessageKey(chain))))
  }

  datatype KeyFound = KeyFound(key: Result<Key, GroupError>, next: Receiver)

  function KeyFor(r: Receiver, iteration: int, maxSkip: nat): KeyFound {
    match FindKey(r.skipped, iteration)
    case Some(k) => KeyFound(Ok(r.skipped[k].messageKey), r.(skipped := RemoveAt(r.skipped, k)))
    case None =>
      if iteration < r.iteration then KeyFound(Err(TooOld), r)
      else if iteration - r.iteration > maxSkip then KeyFound(Err(TooFar), r)
      else
        var w := WalkKeys(r.chain, r.iteration, iteration, r.skipped);
        KeyFound(Ok(MessageKey(w.chain)),
                 r.(chain := NextChain(w.chain), iteration := iteration + 1,
                    skipped := KeepNewest(w.store, MAX_SKIPPED_STORED)))
  }

  function OpenGroupBody<P>(key: Key, b: GroupBody<P>, group: string): Option<P> {
    if b.GroupBody? && b.key == key && b.group == group then Some(b.plain) else None
  }

  /** The chain moves once the signature verifies, even when the body then fails to open. */
  function GroupDecrypt<P(==)>(r: Receiver, m: GroupMessage<P>, group: string, maxSkip: nat): GroupOpened<P> {
    if !Genuine(m, group, r.signer) then GroupOpened(Err(BadGroupSignature), r)
    else
      var found := KeyFor(r, m.iteration, maxSkip);
      match found.key
      case Err(e) => GroupOpened(Err(e), found.next)
      case Ok(key) =>
        match OpenGroupBody(key, m.body, group)
        case Some(p) => GroupOpened(Ok(p), found.next)
        case None => GroupOpened(Err(BadGroupTag), found.next)
  }

  // ---- the objects the source mutates ----

  class SenderKeyState {
    var chain: Key
    var iteration: nat
    const signing: nat

    constructor (chain: Key, iteration: nat, signing: nat)
      ensures View() == Sender(chain, iteration, signing)
    {
      this.chain, this.iteration, this.signing := chain, iteration, signing;
    }

    function View(): Sender
      reads this
    {
      Sender(chain, iteration, signing)
    }

    method SenderKeyEncrypt<P>(plain: P, group: string) returns (m: GroupMessage<P>)
      modifies this
      ensures (m, View()) == GroupEncrypt(old(View()), plain, group)
    {
      var messageKey := MessageKey(chain);
      var n := iteration;
      chain := NextChain(chain);
      iteration := n + 1;
      var body := GroupBody(messageKey, group, plain);
      m := GroupMessage(n, body, GroupSignature(signing, n % U32, body, group));
    }
  }

  class ReceiverKeyState {
    var chain: Key
    var iteration: int
    const signer: nat
    var skipped: seq<Cached>

    constructor (d: Distribution)
      ensures View() == InitReceiver(d)
    {
      chain, iteration, signer, skipped := d.chain, d.iteration, d.signer, [];
    }

    function View(): Receiver
      reads this
    {
      Receiver(chain, iteration, signer, skipped)
    }

    /** `kdfs` counts the chain-key derivations. */
    method MessageKeyForIteration(n: int, maxSkip: nat) returns (key: Result<Key, GroupError>, kdfs: nat)
      modifies this
      ensures KeyFound(key, View()) == KeyFor(old(View()), n, maxSkip)
      ensures key.Err? ==> View() == old(View())
      ensures kdfs <= maxSkip + 1
    {
      kdfs := 0;
      var k := FindKey(skipped, n);
      if k.Some? {
        key := Ok(skipped[k.value].messageKey);
        skipped := RemoveAt(skipped, k.value);
        return;
      }
      if n < iteration {
        return Err(TooOld), 0;
      }
      if n - iteration > maxSkip {
        return Err(TooFar), 0;
      }
      var chainKey := chain;
      var current := iteration;
      while current < n
        invariant iteration <= current <= n
        invariant kdfs == current - iteration
        invariant chain == old(chain) && iteration == old(iteration)
        invariant WalkKeys(chainKey, current, n, skipped) == WalkKeys(chain, iteration, n, old(skipped))
      {
        skipped := PutKey(skipped, Cached(current, MessageKey(chainKey)));
        chainKey := NextChain(chainKey);
        current := current + 1;
        kdfs := kdfs + 1;
      }
      ghost var walked := skipped;
      while |skipped| > MAX_SKIPPED_STORED
        invariant chain == old(chain) && iteration == old(iteration)
        invariant KeepNewest(skipped, MAX_SKIPPED_STORED) == KeepNewest(walked, MAX_SKIPPED_STORED)
      {
        skipped := skipped[1..];
      }
      kdfs := kdfs + 1;
      chain := NextChain(chainKey);
      iteration := n + 1;
      key := Ok(MessageKey(chainKey));
    }

    method SenderKeyDecrypt<P(==)>(m: GroupMessage<P>, group: string, maxSkip: nat)
      returns (r: Result<P, GroupError>, kdfs: nat)
      modifies this
      ensures GroupOpened(r, View()) == GroupDecrypt(old(View()), m, group, maxSkip)
      ensures r == Err(BadGroupSignature) ==> View() == old(View()) && kdfs == 0
      ensures kdfs <= maxSkip + 1
    {
      if !Genuine(m, group, signer) {
        return Err(BadGroupSignature), 0;
      }
      var key: Result<Key, GroupError>;
      key, kdfs := MessageKeyForIteration(m.iteration, maxSkip);
      match key {
        case Err(e) =>
          r := Err(e);
        case Ok(k) =>
          match OpenGroupBody(k, m.body, group) {
            case Some(p) =>
              r := Ok(p);
            case None =>
              r := Err(BadGroupTag);
          }
      }
    }
  }
}
