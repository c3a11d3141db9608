/**
 One user's mailbox: an offline queue in key-ordered storage, emptied only by acknowledgement,
 the TTL sweep and account deletion. Stored keys and values are kept in ascending key order, the
 order in which storage lists them.
 */
module Mailbox {
  import opened Crypto
  import opened Text
  import opened MailboxKeys

  const TTL: int := 14 * 24 * 60 * 60 * 1000
  const SWEEP_INTERVAL: int := 24 * 60 * 60 * 1000
  const ONE_MINUTE: int := 60 * 1000
  const MAX_QUEUED: nat := 500
  const MAX_ENVELOPE_BYTES: nat := 64 * 1024
  const MAX_SEAL_TOKENS: nat := 3
  const MIN_TOKEN_LENGTH: nat := 16

  /** `bytes` is the length of the envelope as JSON; `content` stands for what the server cannot read. */
  datatype Envelope =
    | Stamped(from: string, seqNumber: nat, id: string, ts: int, bytes: nat, content: nat)
    | Sealed(sealedId: Option<string>, sealedTs: Option<int>, bytes: nat, content: nat)

  datatype Entry = Entry(key: string, envelope: Envelope)

  /** The send counter: what is stored, and the copy in memory that an eviction loses. */
  datatype Counter = Counter(stored: Option<nat>, memory: Option<nat>)

  datatype Box = Box(
    queue: seq<Entry>,
    counter: Counter,
    received: Option<nat>,
    tokens: seq<string>,
    alarm: Option<int>,
    sockets: nat)

  function IdOf(e: Envelope): Option<string> {
    if e.Stamped? then Some(e.id) else e.sealedId
  }

  function TsOf(e: Envelope): Option<int> {
    if e.Stamped? then Some(e.ts) else e.sealedTs
  }

  function OrElse<T>(o: Option<T>, d: T): T {
    if o.Some? then o.value else d
  }

  // ---- storage ----

  /** storage.put: overwrite the value of the key, or insert it in its place. */
  function Insert(q: seq<Entry>, e: Entry): seq<Entry> {
    if q == [] then [e]
    else if q[0].key == e.key then [e] + q[1..]
    else if Less(e.key, q[0].key) then [e] + q
    else [q[0]] + Insert(q[1..], e)
  }

  function Remove(q: seq<Entry>, key: string): seq<Entry> {
    if q == [] then []
    else if q[0].key == key then Remove(q[1..], key)
    else [q[0]] + Remove(q[1..], key)
  }

  ghost predicate Ordered(q: seq<Entry>) {
    forall i, j :: 0 <= i < j < |q| ==> Less(q[i].key, q[j].key)
  }

  // ---- what each request does ----

  function Arm(alarm: Option<int>, now: int): Option<int> {
    if alarm.None? then Some(now + SWEEP_INTERVAL) else alarm
  }

  predicate CanQueue(b: Box, e: Envelope) {
    e.bytes <= MAX_ENVELOPE_BYTES && |b.queue| < MAX_QUEUED
  }

  function KeyOf(e: Envelope, received: nat): string {
    if e.Stamped? then StampedKey(e.from, e.seqNumber, e.id) else SealedKey(received, OrElse(e.sealedId, ""))
  }

  /** A connected recipient gets it live and nothing is stored; a full mailbox drops the newcomer. */
  function Deliver(b: Box, e: Envelope, now: int): Box
    requires e.Stamped?
  {
    if b.sockets > 0 || !CanQueue(b, e) then b
    else b.(queue := Insert(b.queue, Entry(KeyOf(e, 0), e)), alarm := Arm(b.alarm, now))
  }

  function DeliverSealed(b: Box, token: string, e: Envelope, now: int): Box
    requires e.Sealed?
  {
    if token !in b.tokens || b.sockets > 0 || !CanQueue(b, e) then b
    else
      var n := OrElse(b.received, 0);
      b.(queue := Insert(b.queue, Entry(KeyOf(e, n), e)), received := Some(n + 1), alarm := Arm(b.alarm, now))
  }

  function Envelopes(q: seq<Entry>): (r: seq<Envelope>)
    ensures |r| == |q| && forall k :: 0 <= k < |q| ==> r[k] == q[k].envelope
  {
    seq(|q|, k requires 0 <= k < |q| => q[k].envelope)
  }

  /** The first queued envelope with the acknowledged id. */
  function FirstWithId(q: seq<Entry>, id: string): (r: Option<nat>)
    ensures r.Some? ==> r.value < |q| && IdOf(q[r.value].envelope) == Some(id)
    ensures r.Some? ==> forall j :: 0 <= j < r.value ==> IdOf(q[j].envelope) != Some(id)
    ensures r.None? ==> forall j :: 0 <= j < |q| ==> IdOf(q[j].envelope) != Some(id)
  {
    if q == [] then None
    else if IdOf(q[0].envelope) == Some(id) then Some(0)
    else
      match FirstWithId(q[1..], id)
      case None => None
      case Some(k) => Some(k + 1)
  }

  function Ack(b: Box, id: string): Box {
    match FirstWithId(b.queue, id)
    case None => b
    case Some(k) => b.(queue := Remove(b.queue, b.queue[k].key))
  }

  /** Older than the cutoff; an envelope without a timestamp never is. */
  predicate Expired(e: Envelope, cutoff: int) {
    TsOf(e).Some? && TsOf(e).value < cutoff
  }

  function Fresh(q: seq<Entry>, cutoff: int): (r: seq<Entry>)
    ensures |r| <= |q|
  {
    if q == [] then [] else (if Expired(q[0].envelope, cutoff) then [] else [q[0]]) + Fresh(q[1..], cutoff)
  }

  /** Alarms fire once; another is set only while something is queued. */
  function Sweep(b: Box, now: int): Box {
    var left := Fresh(b.queue, now - TTL);
    b.(queue := left, alarm := if |left| > 0 then Some(now + SWEEP_INTERVAL) else None)
  }

  function Purge(b: Box): Box {
    Box([], Counter(None, None), None, [], None, 0)
  }

  function Without(tokens: seq<string>, token: string): (r: seq<string>)
    ensures forall t :: t in r <==> t in tokens && t != token
  {
    if tokens == [] then [] else (if tokens[0] == token then [] else [tokens[0]]) + Without(tokens[1..], token)
  }

  function RegisterToken(b: Box, token: string): Box {
    if |token| < MIN_TOKEN_LENGTH then b
    else
      var next := [token] + Without(b.tokens, token);
      b.(tokens := if |next| > MAX_SEAL_TOKENS then next[..MAX_SEAL_TOKENS] else next)
  }

  function Next(c: Counter): (nat, Counter) {
    var n := if c.memory.Some? then c.memory.value else OrElse(c.stored, 0);
    (n, Counter(Some(n + 1), Some(n + 1)))
  }

  function Evicted(c: Counter): Counter {
    c.(memory := None)
  }

  function Floor(now: int): int {
    now / ONE_MINUTE * ONE_MINUTE
  }

  // ---- storage keeps its order ----

  lemma {:induction false} InsertKeepsOrder(q: seq<Entry>, e: Entry)
    requires Ordered(q)
    ensures Ordered(Insert(q, e))
    ensures forall x :: x in Insert(q, e) ==> x == e || x in q
  {
    if q != [] {
      if q[0].key == e.key {
      } else if Less(e.key, q[0].key) {
        forall j | 0 <= j < |q| ensures Less(e.key, q[j].key) {
          if j > 0 {
            Transitive(e.key, q[0].key, q[j].key);
          }
        }
      } else {
        Trichotomy(e.key, q[0].key);
        InsertKeepsOrder(q[1..], e);
        var r := Insert(q[1..], e);
        forall j | 0 <= j < |r| ensures Less(q[0].key, r[j].key) {
          assert r[j] in r;
        }
      }
    }
  }

  /** A new key adds one entry and leaves every other as it was. */
  lemma {:induction false} InsertAdds(q: seq<Entry>, e: Entry)
    requires forall k :: 0 <= k < |q| ==> q[k].key != e.key
    ensures multiset(Insert(q, e)) == multiset(q) + multiset{e}
    ensures |Insert(q, e)| == |q| + 1
  {
    if q != [] {
      assert q == [q[0]] + q[1..];
      if !Less(e.key, q[0].key) {
        InsertAdds(q[1..], e);
      }
    }
  }

  lemma {:induction false} RemoveAbsent(q: seq<Entry>, key: string)
    requires forall k :: 0 <= k < |q| ==> q[k].key != key
    ensures Remove(q, key) == q
  {
    if q != [] {
      RemoveAbsent(q[1..], key);
    }
  }

  /** Keys differ, so removing one key removes one entry. */
  lemma {:induction false} RemoveOne(q: seq<Entry>, k: nat)
    requires Ordered(q) && k < |q|
    ensures Remove(q, q[k].key) == q[..k] + q[k + 1..]
  {
    Trichotomy(q[k].key, q[k].key);
    if k == 0 {
      forall j | 0 <= j < |q[1..]| ensures q[1..][j].key != q[0].key {
        Trichotomy(q[0].key, q[j + 1].key);
      }
      RemoveAbsent(q[1..], q[0].key);
    } else {
      Trichotomy(q[0].key, q[k].key);
      RemoveOne(q[1..], k - 1);
    }
  }

  lemma {:induction false} FreshAppend(q: seq<Entry>, k: nat, cutoff: int)
    requires k < |q|
    ensures Fresh(q[..k + 1], cutoff) == Fresh(q[..k], cutoff) + if Expired(q[k].envelope, cutoff) then [] else [q[k]]
  {
    if k == 0 {
      assert q[..1] == [q[0]] && Fresh([], cutoff) == [];
    } else {
      var head := if Expired(q[0].envelope, cutoff) then [] else [q[0]];
      FreshAppend(q[1..], k - 1, cutoff);
      assert q[..k + 1][1..] == q[1..][..k] && q[..k][1..] == q[1..][..k - 1];
      assert Fresh(q[..k + 1], cutoff) == head + Fresh(q[1..][..k], cutoff);
      assert Fresh(q[..k], cutoff) == head + Fresh(q[1..][..k - 1], cutoff);
    }
  }

  /** The queue when the sweep has looked at `k` of the stored entries. */
  function Swept(stored: seq<Entry>, k: nat, cutoff: int): seq<Entry>
    requires k <= |stored|
  {
    Fresh(stored[..k], cutoff) + stored[k..]
  }

  /** One step of the sweep: an expired entry goes, a fresh one stays. */
  lemma SweepStep(stored: seq<Entry>, k: nat, cutoff: int)
    requires k < |stored| && Ordered(Swept(stored, k, cutoff))
    ensures var gone := Expired(stored[k].envelope, cutoff);
            && Swept(stored, k + 1, cutoff) == (
                 if gone then Remove(Swept(stored, k, cutoff), stored[k].key) else Swept(stored, k, cutoff))
            && |Fresh(stored[..k + 1], cutoff)| == |Fresh(stored[..k], cutoff)| + (if gone then 0 else 1)
            && Ordered(Swept(stored, k + 1, cutoff))
  {
    var kept := Fresh(stored[..k], cutoff);
    var queue := kept + stored[k..];
    FreshAppend(stored, k, cutoff);
    if Expired(stored[k].envelope, cutoff) {
      RemoveOne(queue, |kept|);
      RemoveKeepsOrder(queue, stored[k].key);
      assert queue[..|kept|] == kept && queue[|kept| + 1..] == stored[k + 1..];
    }
  }

  /** What the loop over the stored entries makes of the queue and the count from entry `k` on. */
  function SweepFrom(queue: seq<Entry>, remaining: nat, stored: seq<Entry>, k: nat, cutoff: int): (seq<Entry>, nat)
    requires k <= |stored|
    decreases |stored| - k
  {
    if k == |stored| then (queue, remaining)
    else if Expired(stored[k].envelope, cutoff) then
      SweepFrom(Remove(queue, stored[k].key), remaining, stored, k + 1, cutoff)
    else SweepFrom(queue, remaining + 1, stored, k + 1, cutoff)
  }

  lemma {:induction false} SweepsToFresh(stored: seq<Entry>, k: nat, cutoff: int)
    requires k <= |stored| && Ordered(Swept(stored, k, cutoff))
    ensures SweepFrom(Swept(stored, k, cutoff), |Fresh(stored[..k], cutoff)|, stored, k, cutoff)
         == (Fresh(stored, cutoff), |Fresh(stored, cutoff)|)
    ensures Ordered(Fresh(stored, cutoff))
    decreases |stored| - k
  {
    if k == |stored| {
      assert stored[..k] == stored && stored[k..] == [];
      assert Swept(stored, k, cutoff) == Fresh(stored, cutoff);
    } else {
      SweepStep(stored, k, cutoff);
      SweepsToFresh(stored, k + 1, cutoff);
    }
  }

  /** The loop leaves exactly what is not expired, and counts it. */
  lemma SweepLeavesFresh(stored: seq<Entry>, cutoff: int)
    requires Ordered(stored)
    ensures SweepFrom(stored, 0, stored, 0, cutoff) == (Fresh(stored, cutoff), |Fresh(stored, cutoff)|)
    ensures Ordered(Fresh(stored, cutoff))
  {
    assert stored[..0] == [] && Swept(stored, 0, cutoff) == stored;
    SweepsToFresh(stored, 0, cutoff);
  }

  lemma {:induction false} RemoveKeepsOrder(q: seq<Entry>, key: string)
    requires Ordered(q)
    ensures Ordered(Remove(q, key)) && forall e :: e in Remove(q, key) ==> e in q
  {
    if q != [] {
      RemoveKeepsOrder(q[1..], key);
      var r := Remove(q[1..], key);
      forall j | 0 <= j < |r| ensures Less(q[0].key, r[j].key) {
        assert r[j] in q[1..];
      }
    }
  }

  // ---- what a delivery does to the box ----

  /** Accepted for later: nobody is connected, fewer than 500 are queued, and it is not too large. */
  predicate WillQueue(b: Box, e: Envelope) {
    b.sockets == 0 && |b.queue| < 500 && e.bytes <= 0x1_0000
  }

  /**
   The queue holds what it held and the newcomer, which takes the place of an entry under its own key
   and of no other.
   */
  ghost predicate Joins(q: seq<Entry>, q': seq<Entry>, e: Entry) {
    && Ordered(q')
    && (forall x :: x in q' <==> x == e || (x in q && x.key != e.key))
    && |q'| == |q| + if exists x :: x in q && x.key == e.key then 0 else 1
  }

  /** Queued under its key, the sweep armed if it was not; nothing else of the box changes but the number of receipt. */
  ghost predicate Queues(b: Box, b': Box, key: string, e: Envelope, now: int) {
    && b' == b.(queue := b'.queue, alarm := b'.alarm, received := b'.received)
    && Joins(b.queue, b'.queue, Entry(key, e))
    && b'.alarm == Some(if b.alarm.Some? then b.alarm.value else now + 24 * 60 * 60 * 1000)
  }

  lemma {:induction false} InsertJoins(q: seq<Entry>, e: Entry)
    requires Ordered(q)
    ensures Joins(q, Insert(q, e), e)
  {
    InsertKeepsOrder(q, e);
    if q != [] {
      var r := Insert(q, e);
      Trichotomy(e.key, q[0].key);
      if q[0].key == e.key {
        forall x | x in q[1..] ensures x.key != e.key {
          assert Less(q[0].key, x.key);
          Trichotomy(q[0].key, x.key);
        }
      } else if Less(e.key, q[0].key) {
        forall x | x in q ensures x.key != e.key {
          BehindFirst(q, x);
          if x != q[0] {
            Transitive(e.key, q[0].key, x.key);
          }
          Trichotomy(e.key, e.key);
        }
      } else {
        InsertJoins(q[1..], e);
        assert forall x :: x in q <==> x == q[0] || x in q[1..];
        assert forall x :: x in r <==> x == q[0] || x in Insert(q[1..], e);
      }
    }
  }

  lemma BehindFirst(q: seq<Entry>, x: Entry)
    requires Ordered(q) && x in q
    ensures x == q[0] || Less(q[0].key, x.key)
  {
  }

  /**
   A stamped delivery, on every box: sent live, or turned away because the box is full or the
   envelope too large, it leaves the box exactly as it was; otherwise it joins the queue.
   */
  lemma DeliverExactly(b: Box, e: Envelope, now: int)
    requires Ordered(b.queue) && e.Stamped?
    ensures var b' := Deliver(b, e, now);
            if WillQueue(b, e) then
              b'.received == b.received && Queues(b, b', StampedKey(e.from, e.seqNumber, e.id), e, now)
            else b' == b
  {
    InsertJoins(b.queue, Entry(KeyOf(e, 0), e));
  }

  /**
   A sealed one, the same, but only with a token that is registered; the number of receipt is drawn
   only when it is queued.
   */
  lemma DeliverSealedExactly(b: Box, token: string, e: Envelope, now: int)
    requires Ordered(b.queue) && e.Sealed?
    ensures var b' := DeliverSealed(b, token, e, now);
            var n := if b.received.Some? then b.received.value else 0;
            if token in b.tokens && WillQueue(b, e) then
              b'.received == Some(n + 1)
              && Queues(b, b', SealedKey(n, if e.sealedId.Some? then e.sealedId.value else ""), e, now)
            else b' == b
  {
    InsertJoins(b.queue, Entry(KeyOf(e, OrElse(b.received, 0)), e));
  }

  /**
   An acknowledgement takes the first envelope with its id out of the queue and leaves everything
   else; with none under that id nothing happens.
   */
  lemma AckExactly(b: Box, id: string)
    requires Ordered(b.queue)
    ensures var b' := Ack(b, id);
            if k: nat :| k < |b.queue| && IdOf(b.queue[k].envelope) == Some(id)
                         && forall j :: 0 <= j < k ==> IdOf(b.queue[j].envelope) != Some(id)
            then b' == b.(queue := b.queue[..k] + b.queue[k + 1..])
            else b' == b
  {
    var found := FirstWithId(b.queue, id);
    if found.Some? {
      RemoveOne(b.queue, found.value);
    }
  }

  // ---- what a sweep, a purge and a new token do to the box ----

  /** A timestamp more than 14 days back; an envelope without one never is. */
  predicate PastTtl(e: Envelope, now: int) {
    match e
    case Stamped(_, _, _, ts, _, _) => ts + 14 * 24 * 60 * 60 * 1000 < now
    case Sealed(_, ts, _, _) => ts.Some? && ts.value + 14 * 24 * 60 * 60 * 1000 < now
  }

  lemma {:induction false} FreshExactly(q: seq<Entry>, now: int)
    requires Ordered(q)
    ensures Ordered(Fresh(q, now - TTL))
    ensures forall x :: x in Fresh(q, now - TTL) <==> x in q && !PastTtl(x.envelope, now)
  {
    if q != [] {
      FreshExactly(q[1..], now);
      var r := Fresh(q[1..], now - TTL);
      forall j | 0 <= j < |r| ensures Less(q[0].key, r[j].key) {
        assert r[j] in q[1..];
      }
      assert forall x :: x in q <==> x == q[0] || x in q[1..];
    }
  }

  /**
   A sweep takes what is past its time and nothing else, in order, and sets the next alarm exactly
   when something is left.
   */
  lemma SweepExactly(b: Box, now: int)
    requires Ordered(b.queue)
    ensures var b' := Sweep(b, now);
            && b' == b.(queue := b'.queue, alarm := b'.alarm) && Ordered(b'.queue)
            && (forall x :: x in b'.queue <==> x in b.queue && !PastTtl(x.envelope, now))
            && (if exists x :: x in b.queue && !PastTtl(x.envelope, now)
                then b'.alarm == Some(now + 24 * 60 * 60 * 1000) else b'.alarm == None)
  {
    FreshExactly(b.queue, now);
    var left := Fresh(b.queue, now - TTL);
    if left != [] {
      assert left[0] in left;
    }
  }

  /** Account deletion leaves a mailbox like one never used: numbers start over, nobody is connected. */
  lemma PurgeForgets(b: Box)
    ensures var b' := Purge(b);
            && b'.queue == [] && b'.tokens == [] && b'.alarm == None && b'.sockets == 0
            && Next(b'.counter).0 == 0
            && forall e: Envelope, now: int, token: string :: e.Sealed? ==> DeliverSealed(b', token, e, now) == b'
  {
  }

  // ---- the object ----

  class Mailbox {
    var queue: seq<Entry>
    var storedSeq: Option<nat>
    var received: Option<nat>
    var tokens: seq<string>
    var alarm: Option<int>
    var sockets: nat
    var sendSeq: Option<nat>

    function View(): Box
      reads this
    {
      Box(queue, Counter(storedSeq, sendSeq), received, tokens, alarm, sockets)
    }

    ghost predicate Valid()
      reads this
    {
      Ordered(queue)
    }

    constructor ()
      ensures Valid() && View() == Box([], Counter(None, None), None, [], None, 0)
    {
      queue, storedSeq, received, tokens, alarm, sockets, sendSeq := [], None, None, [], None, 0, None;
    }

    method Put(key: string, e: Envelope)
      requires Valid()
      modifies `queue
      ensures Valid() && queue == Insert(old(queue), Entry(key, e))
    {
      InsertKeepsOrder(queue, Entry(key, e));
      queue := Insert(queue, Entry(key, e));
    }

    method EnsureTtlAlarm(now: int)
      modifies `alarm
      ensures alarm == Arm(old(alarm), now)
    {
      if alarm.None? {
        alarm := Some(now + SWEEP_INTERVAL);
      }
    }

    method HandleDeliver(e: Envelope, now: int) returns (live: bool)
      requires Valid() && e.Stamped?
      modifies this
      ensures Valid() && View() == Deliver(old(View()), e, now) && live == (sockets > 0)
    {
      live := sockets > 0;
      if live {
        return;
      }
      if e.bytes <= MAX_ENVELOPE_BYTES && |queue| < MAX_QUEUED {
        Put(StampedKey(e.from, e.seqNumber, e.id), e);
        EnsureTtlAlarm(now);
      }
    }

    method NextRecvSeq() returns (n: nat)
      modifies `received
      ensures n == OrElse(old(received), 0) && received == Some(n + 1)
    {
      n := if received.Some? then received.value else 0;
      received := Some(n + 1);
    }

    method HandleSealedDeliver(token: string, e: Envelope, now: int) returns (allowed: bool)
      requires Valid() && e.Sealed?
      modifies this
      ensures Valid() && View() == DeliverSealed(old(View()), token, e, now) && allowed == (token in tokens)
    {
      if token !in tokens {
        return false;
      }
      allowed := true;
      if sockets == 0 && e.bytes <= MAX_ENVELOPE_BYTES && |queue| < MAX_QUEUED {
        var n := NextRecvSeq();
        Put(SealedKey(n, if e.sealedId.Some? then e.sealedId.value else ""), e);
        EnsureTtlAlarm(now);
      }
    }

    method HandleRegisterToken(token: string) returns (ok: bool)
      modifies `tokens
      ensures View() == RegisterToken(old(View()), token) && ok == (|token| >= MIN_TOKEN_LENGTH)
    {
      if |token| < MIN_TOKEN_LENGTH {
        return false;
      }
      var next := [token] + Without(tokens, token);
      tokens := if |next| > MAX_SEAL_TOKENS then next[..MAX_SEAL_TOKENS] else next;
      ok := true;
    }

    /** Everything queued is sent again, in key order; nothing is removed. */
    method FlushQueued() returns (sent: seq<Envelope>)
      ensures sent == Envelopes(queue)
    {
      sent := [];
      for k := 0 to |queue|
        invariant |sent| == k && forall j :: 0 <= j < k ==> sent[j] == queue[j].envelope
      {
        sent := sent + [queue[k].envelope];
      }
    }

    method HandleAck(id: string)
      requires Valid()
      modifies `queue
      ensures Valid() && View() == Ack(old(View()), id)
    {
      var stored := queue;
      for k := 0 to |stored|
        invariant queue == stored
        invariant forall j :: 0 <= j < k ==> IdOf(stored[j].envelope) != Some(id)
      {
        if IdOf(stored[k].envelope) == Some(id) {
          RemoveOne(stored, k);
          queue := Remove(queue, stored[k].key);
          return;
        }
      }
    }

    method DeleteIfExpired(e: Entry, cutoff: int) returns (kept: nat)
      modifies `queue
      ensures if Expired(e.envelope, cutoff) then queue == Remove(old(queue), e.key) && kept == 0
              else queue == old(queue) && kept == 1
    {
      kept := 1;
      if TsOf(e.envelope).Some? && TsOf(e.envelope).value < cutoff {
        queue := Remove(queue, e.key);
        kept := 0;
      }
    }

    /** Delete what is expired, one stored entry after the other, and count the rest. */
    method DeleteExpired(cutoff: int) returns (remaining: nat)
      requires Valid()
      modifies `queue
      ensures Valid() && queue == Fresh(old(queue), cutoff) && remaining == |queue|
    {
      var stored := queue;
      SweepLeavesFresh(stored, cutoff);
      remaining := 0;
      for k := 0 to |stored|
        invariant SweepFrom(queue, remaining, stored, k, cutoff) == SweepFrom(stored, 0, stored, 0, cutoff)
      {
        var kept := DeleteIfExpired(stored[k], cutoff);
        remaining := remaining + kept;
      }
    }

    method Alarm(now: int)
      requires Valid()
      modifies `queue, `alarm
      ensures Valid() && View() == Sweep(old(View()), now)
    {
      alarm := None;
      var remaining := DeleteExpired(now - TTL);
      if remaining > 0 {
        alarm := Some(now + SWEEP_INTERVAL);
      }
    }

    /** Account deletion. */
    method HandlePurge()
      modifies this
      ensures Valid() && View() == Purge(old(View()))
    {
      queue, storedSeq, received, tokens := [], None, None, [];
      alarm := None;
      sendSeq := None;
      sockets := 0;
    }

    method NextSendSeq() returns (n: nat)
      modifies `sendSeq, `storedSeq
      ensures (n, Counter(storedSeq, sendSeq)) == Next(old(Counter(storedSeq, sendSeq)))
    {
      if sendSeq.None? {
        sendSeq := Some(if storedSeq.Some? then storedSeq.value else 0);
      }
      n := sendSeq.value;
      sendSeq := Some(n + 1);
      storedSeq := sendSeq;
    }

    /** The runtime may drop the object from memory at any time. */
    method Evict()
      modifies `sendSeq
      ensures Counter(storedSeq, sendSeq) == Evicted(old(Counter(storedSeq, sendSeq)))
    {
      sendSeq := None;
    }
  }
}
