/**
 A mailbox over every run: senders with their own counters, a clock, alarms on time, connections
 and disconnections, acknowledgements, account deletion, and objects evicted from memory.
 */
module MailboxRun {
  import opened Crypto
  import opened Text
  import opened MailboxKeys
  import opened Mailbox

  /** Where every envelope that was ever queued went. */
  datatype Ledger = Ledger(accepted: multiset<Entry>, acked: multiset<Entry>, swept: multiset<Entry>,
                           purged: multiset<Entry>)

  datatype Net = Net(box: Box, senders: map<string, Counter>, clock: int, ledger: Ledger)

  datatype Event =
    | SendTo(from: string, id: string, bytes: nat, content: nat, blocked: bool)
    | SendElsewhere(from: string)
    | SealedTo(token: string, sealedId: Option<string>, sealedTs: Option<int>, bytes: nat, content: nat)
    | Connect
    | Disconnect
    | AckOf(id: string)
    | AlarmFires
    | DeleteAccount
    | Register(token: string)
    | EvictSender(from: string)
    | Tick(to: int)

  function CounterOf(n: Net, from: string): Counter {
    if from in n.senders then n.senders[from] else Counter(None, None)
  }

  function Queued(l: Ledger, e: Entry): Ledger {
    l.(accepted := l.accepted + multiset{e})
  }

  /** The sender's object draws a number and stamps the time; what is not blocked goes to the recipient's object. */
  function HandleSend(n: Net, from: string, id: string, bytes: nat, content: nat, blocked: bool): Net {
    var (k, c) := Next(CounterOf(n, from));
    var n1 := n.(senders := n.senders[from := c]);
    var e := Stamped(from, k, id, Floor(n.clock), bytes, content);
    if blocked then n1
    else n1.(box := Deliver(n.box, e, n.clock),
             ledger := if WillQueue(n.box, e) then Queued(n.ledger, Entry(KeyOf(e, 0), e)) else n.ledger)
  }

  function HandleSealed(n: Net, token: string, e: Envelope): Net
    requires e.Sealed?
  {
    n.(box := DeliverSealed(n.box, token, e, n.clock),
       ledger := if token in n.box.tokens && WillQueue(n.box, e)
                 then Queued(n.ledger, Entry(KeyOf(e, OrElse(n.box.received, 0)), e)) else n.ledger)
  }

  function HandleAck(n: Net, id: string): Net {
    match FirstWithId(n.box.queue, id)
    case None => n
    case Some(k) => n.(box := Ack(n.box, id), ledger := n.ledger.(acked := n.ledger.acked + multiset{n.box.queue[k]}))
  }

  function Gone(q: seq<Entry>, cutoff: int): seq<Entry> {
    if q == [] then [] else (if Expired(q[0].envelope, cutoff) then [q[0]] else []) + Gone(q[1..], cutoff)
  }

  function HandleAlarm(n: Net): Net {
    n.(box := Sweep(n.box, n.clock),
       ledger := n.ledger.(swept := n.ledger.swept + multiset(Gone(n.box.queue, n.clock - TTL))))
  }

  function Step(n: Net, ev: Event): Net {
    match ev
    case SendTo(from, id, bytes, content, blocked) => HandleSend(n, from, id, bytes, content, blocked)
    case SendElsewhere(from) => n.(senders := n.senders[from := Next(CounterOf(n, from)).1])
    case SealedTo(token, id, ts, bytes, content) => HandleSealed(n, token, Sealed(id, ts, bytes, content))
    case Connect => n.(box := n.box.(sockets := n.box.sockets + 1))
    case Disconnect => n.(box := n.box.(sockets := if n.box.sockets > 0 then n.box.sockets - 1 else 0))
    case AckOf(id) => HandleAck(n, id)
    case AlarmFires => HandleAlarm(n)
    case DeleteAccount =>
      n.(box := Purge(n.box), ledger := n.ledger.(purged := n.ledger.purged + multiset(n.box.queue)))
    case Register(token) => n.(box := RegisterToken(n.box, token))
    case EvictSender(from) => n.(senders := n.senders[from := Evicted(CounterOf(n, from))])
    case Tick(to) => n.(clock := to)
  }

  /**
   Names hold no colon; alarms fire when they are due and not before. Ids are the clients' own, and may
   be anything.
   */
  ghost predicate Allowed(n: Net, ev: Event) {
    match ev
    case SendTo(from, _, _, _, _) => ColonFree(from)
    case AlarmFires => n.box.alarm == Some(n.clock)
    case Tick(to) => n.clock <= to && (n.box.alarm.Some? ==> to <= n.box.alarm.value)
    case _ => true
  }

  function StepAll(n: Net, evs: seq<Event>): Net
    decreases |evs|
  {
    if evs == [] then n else StepAll(Step(n, evs[0]), evs[1..])
  }

  ghost predicate AllowedAll(n: Net, evs: seq<Event>)
    decreases |evs|
  {
    evs == [] || (Allowed(n, evs[0]) && AllowedAll(Step(n, evs[0]), evs[1..]))
  }

  function Empty(clock: int): Net {
    Net(Box([], Counter(None, None), None, [], None, 0), map[], clock,
        Ledger(multiset{}, multiset{}, multiset{}, multiset{}))
  }

  // ---- what holds in every reachable state ----

  function Drawn(senders: map<string, Counter>, from: string): nat {
    if from in senders then OrElse(senders[from].stored, 0) else 0
  }

  ghost predicate SealedBelow(key: string, id: string, bound: nat) {
    exists n: nat :: n < bound && key == SealedKey(n, id)
  }

  /** The key is the envelope's own, under a number drawn before. */
  ghost predicate Keyed(e: Entry, senders: map<string, Counter>, received: nat) {
    if e.envelope.Stamped? then
      && ColonFree(e.envelope.from)
      && e.key == StampedKey(e.envelope.from, e.envelope.seqNumber, e.envelope.id)
      && e.envelope.seqNumber < Drawn(senders, e.envelope.from)
    else SealedBelow(e.key, OrElse(e.envelope.sealedId, ""), received)
  }

  ghost predicate AllKeyed(q: seq<Entry>, senders: map<string, Counter>, received: nat) {
    forall k :: 0 <= k < |q| ==> Keyed(q[k], senders, received)
  }

  ghost predicate CountersSound(senders: map<string, Counter>) {
    forall f :: f in senders ==> (senders[f].memory.Some? ==> senders[f].memory == senders[f].stored)
  }

  /** Conservation: what is queued is what was accepted, less what was acknowledged, swept or purged. */
  ghost predicate Balanced(n: Net) {
    multiset(n.box.queue) + n.ledger.acked + n.ledger.swept + n.ledger.purged == n.ledger.accepted
  }

  ghost predicate Bounded(q: seq<Entry>) {
    |q| <= MAX_QUEUED && forall k :: 0 <= k < |q| ==> q[k].envelope.bytes <= MAX_ENVELOPE_BYTES
  }

  ghost predicate DueBy(e: Envelope, alarm: int) {
    e.Stamped? ==> alarm <= e.ts + TTL + SWEEP_INTERVAL
  }

  /** Something queued means an alarm is set, and set early enough. */
  ghost predicate Timed(q: seq<Entry>, alarm: Option<int>, clock: int) {
    && (q != [] ==> alarm.Some?)
    && (alarm.Some? ==> clock <= alarm.value <= clock + SWEEP_INTERVAL)
    && (alarm.Some? ==> forall k :: 0 <= k < |q| ==> DueBy(q[k].envelope, alarm.value))
  }

  ghost predicate SameNumber(e: Envelope, f: Envelope) {
    e.Stamped? && f.Stamped? && e.from == f.from && e.seqNumber == f.seqNumber
  }

  /** No sender's number is queued twice. */
  ghost predicate OneEach(q: seq<Entry>) {
    forall x, y :: x in q && y in q && SameNumber(x.envelope, y.envelope) ==> x == y
  }

  /** The conditions on the queue and the alarm, apart from the ledger. */
  ghost predicate BoxOk(b: Box, senders: map<string, Counter>, clock: int) {
    && Ordered(b.queue) && Bounded(b.queue) && AllKeyed(b.queue, senders, OrElse(b.received, 0)) && OneEach(b.queue)
    && Timed(b.queue, b.alarm, clock)
  }

  ghost predicate NetOk(n: Net) {
    BoxOk(n.box, n.senders, n.clock) && CountersSound(n.senders)
  }

  // ---- whether a key is taken ----

  ghost predicate Taken(q: seq<Entry>, key: string) {
    exists k :: 0 <= k < |q| && q[k].key == key
  }

  /** Something sealed is queued whose id spells out the new stamped key. */
  ghost predicate StampedClash(q: seq<Entry>, from: string, number: nat, id: string) {
    exists k, m: nat :: && 0 <= k < |q| && q[k].envelope.Sealed?
                        && q[k].key == SealedKey(m, OrElse(q[k].envelope.sealedId, ""))
                        && Spells(from, number, id, m, OrElse(q[k].envelope.sealedId, ""))
  }

  /** The new sealed id spells out the key of something stamped that is queued. */
  ghost predicate SealedClash(q: seq<Entry>, received: nat, sealedId: string) {
    exists k :: && 0 <= k < |q| && q[k].envelope.Stamped?
                && Spells(q[k].envelope.from, q[k].envelope.seqNumber, q[k].envelope.id, received, sealedId)
  }

  lemma StampedTaken(q: seq<Entry>, senders: map<string, Counter>, received: nat, from: string, id: string)
    requires AllKeyed(q, senders, received) && ColonFree(from)
    ensures Taken(q, StampedKey(from, Drawn(senders, from), id)) <==> StampedClash(q, from, Drawn(senders, from), id)
  {
    var n := Drawn(senders, from);
    if k :| 0 <= k < |q| && q[k].key == StampedKey(from, n, id) {
      assert Keyed(q[k], senders, received);
      var e := q[k].envelope;
      if e.Stamped? {
        StampedInjective(from, n, id, e.from, e.seqNumber, e.id);
      } else {
        var m: nat :| m < received && q[k].key == SealedKey(m, OrElse(e.sealedId, ""));
        CrossCollision(from, n, id, m, OrElse(e.sealedId, ""));
      }
    }
    if k, m: nat :| && 0 <= k < |q| && q[k].envelope.Sealed?
                    && q[k].key == SealedKey(m, OrElse(q[k].envelope.sealedId, ""))
                    && Spells(from, n, id, m, OrElse(q[k].envelope.sealedId, "")) {
      CrossCollision(from, n, id, m, OrElse(q[k].envelope.sealedId, ""));
    }
  }

  lemma SealedTaken(q: seq<Entry>, senders: map<string, Counter>, received: nat, id: string)
    requires AllKeyed(q, senders, received)
    ensures Taken(q, SealedKey(received, id)) <==> SealedClash(q, received, id)
  {
    forall k | 0 <= k < |q|
      ensures q[k].key == SealedKey(received, id) <==>
              var e := q[k].envelope;
              e.Stamped? && Spells(e.from, e.seqNumber, e.id, received, id)
    {
      assert Keyed(q[k], senders, received);
      var e := q[k].envelope;
      if e.Stamped? {
        CrossCollision(e.from, e.seqNumber, e.id, received, id);
      } else {
        var m: nat :| m < received && q[k].key == SealedKey(m, OrElse(e.sealedId, ""));
        if SealedKey(m, OrElse(e.sealedId, "")) == SealedKey(received, id) {
          SealedInjective(m, OrElse(e.sealedId, ""), received, id);
        }
      }
    }
  }

  // ---- steps ----

  lemma {:induction false} InsertAtMostOne(q: seq<Entry>, e: Entry)
    ensures |Insert(q, e)| <= |q| + 1
  {
    if q != [] {
      InsertAtMostOne(q[1..], e);
    }
  }

  /** Queuing keeps the order and the bound. */
  lemma QueueingKeeps(q: seq<Entry>, e: Entry, alarm: Option<int>, clock: int)
    requires Ordered(q) && Bounded(q) && Timed(q, alarm, clock)
    requires e.envelope.bytes <= MAX_ENVELOPE_BYTES && |q| < MAX_QUEUED
    requires e.envelope.Stamped? ==> clock <= e.envelope.ts + TTL
    ensures Ordered(Insert(q, e)) && Bounded(Insert(q, e)) && Timed(Insert(q, e), Arm(alarm, clock), clock)
    ensures forall x :: x in Insert(q, e) ==> x == e || x in q
  {
    InsertKeepsOrder(q, e);
    InsertAtMostOne(q, e);
    var r := Insert(q, e);
    forall k | 0 <= k < |r| ensures r[k] == e || r[k] in q {
      assert r[k] in r;
    }
  }

  lemma KeyedGrows(q: seq<Entry>, senders: map<string, Counter>, received: nat, senders': map<string, Counter>,
                   received': nat)
    requires AllKeyed(q, senders, received) && received <= received'
    requires forall f :: Drawn(senders, f) <= Drawn(senders', f)
    ensures AllKeyed(q, senders', received')
  {
  }

  lemma AddedKeyed(q: seq<Entry>, r: seq<Entry>, e: Entry, senders: map<string, Counter>, received: nat)
    requires AllKeyed(q, senders, received) && Keyed(e, senders, received)
    requires forall x :: x in r ==> x == e || x in q
    ensures AllKeyed(r, senders, received)
  {
    forall k | 0 <= k < |r| ensures Keyed(r[k], senders, received) {
      assert r[k] in r;
    }
  }

  lemma AddedOneEach(q: seq<Entry>, r: seq<Entry>, e: Entry, senders: map<string, Counter>, received: nat)
    requires OneEach(q) && AllKeyed(q, senders, received) && forall x :: x in r ==> x == e || x in q
    requires e.envelope.Stamped? ==> e.envelope.seqNumber == Drawn(senders, e.envelope.from)
    ensures OneEach(r)
  {
  }

  lemma NextDraws(n: Net, from: string)
    requires CountersSound(n.senders)
    ensures var (k, c) := Next(CounterOf(n, from));
            && k == Drawn(n.senders, from) && CountersSound(n.senders[from := c])
            && Drawn(n.senders[from := c], from) == k + 1
            && forall f :: Drawn(n.senders, f) <= Drawn(n.senders[from := c], f)
  {
  }

  lemma SendKeeps(n: Net, from: string, id: string, bytes: nat, content: nat, blocked: bool)
    requires NetOk(n) && ColonFree(from)
    ensures NetOk(HandleSend(n, from, id, bytes, content, blocked))
  {
    var (k, c) := Next(CounterOf(n, from));
    var senders := n.senders[from := c];
    var received := OrElse(n.box.received, 0);
    NextDraws(n, from);
    KeyedGrows(n.box.queue, n.senders, received, senders, received);
    var e := Stamped(from, k, id, Floor(n.clock), bytes, content);
    if !blocked && n.box.sockets == 0 && CanQueue(n.box, e) {
      var entry := Entry(KeyOf(e, 0), e);
      QueueingKeeps(n.box.queue, entry, n.box.alarm, n.clock);
      AddedKeyed(n.box.queue, Insert(n.box.queue, entry), entry, senders, received);
      AddedOneEach(n.box.queue, Insert(n.box.queue, entry), entry, n.senders, received);
    }
  }

  lemma SealedKeeps(n: Net, token: string, e: Envelope)
    requires NetOk(n) && e.Sealed?
    ensures NetOk(HandleSealed(n, token, e))
  {
    if token in n.box.tokens && n.box.sockets == 0 && CanQueue(n.box, e) {
      var received := OrElse(n.box.received, 0);
      var entry := Entry(KeyOf(e, received), e);
      QueueingKeeps(n.box.queue, entry, n.box.alarm, n.clock);
      KeyedGrows(n.box.queue, n.senders, received, n.senders, received + 1);
      assert received < received + 1 && entry.key == SealedKey(received, OrElse(e.sealedId, ""));
      AddedKeyed(n.box.queue, Insert(n.box.queue, entry), entry, n.senders, received + 1);
      AddedOneEach(n.box.queue, Insert(n.box.queue, entry), entry, n.senders, received);
    }
  }

  /** What a queue with fewer entries keeps. */
  lemma FewerKeep(q: seq<Entry>, r: seq<Entry>, senders: map<string, Counter>, received: nat, alarm: Option<int>,
                  clock: int)
    requires Bounded(q) && AllKeyed(q, senders, received) && Timed(q, alarm, clock) && OneEach(q)
    requires |r| <= |q| && forall e :: e in r ==> e in q
    ensures Bounded(r) && AllKeyed(r, senders, received) && Timed(r, alarm, clock) && OneEach(r)
  {
  }

  lemma AckKeeps(n: Net, id: string)
    requires NetOk(n)
    ensures NetOk(HandleAck(n, id))
  {
    var q := n.box.queue;
    var found := FirstWithId(q, id);
    if found.Some? {
      var k := found.value;
      RemoveOne(q, k);
      RemoveKeepsOrder(q, q[k].key);
      var r := q[..k] + q[k + 1..];
      assert q == q[..k] + [q[k]] + q[k + 1..];
      FewerKeep(q, r, n.senders, OrElse(n.box.received, 0), n.box.alarm, n.clock);
    }
  }

  lemma {:induction false} FreshStay(q: seq<Entry>, cutoff: int)
    requires Ordered(q)
    ensures Ordered(Fresh(q, cutoff))
    ensures forall e :: e in Fresh(q, cutoff) ==> e in q && !Expired(e.envelope, cutoff)
  {
    if q != [] {
      FreshStay(q[1..], cutoff);
      var r := Fresh(q[1..], cutoff);
      forall j | 0 <= j < |r| ensures Less(q[0].key, r[j].key) {
        assert r[j] in q[1..];
      }
    }
  }

  /** The sweep splits the queue: every envelope either stays or is one of the expired. */
  lemma {:induction false} FreshAndGone(q: seq<Entry>, cutoff: int)
    ensures multiset(Fresh(q, cutoff)) + multiset(Gone(q, cutoff)) == multiset(q)
  {
    if q != [] {
      assert q == [q[0]] + q[1..];
      FreshAndGone(q[1..], cutoff);
    }
  }

  lemma {:induction false} GoneExpired(q: seq<Entry>, cutoff: int)
    ensures forall e :: e in Gone(q, cutoff) ==> e in q && Expired(e.envelope, cutoff)
  {
    if q != [] {
      GoneExpired(q[1..], cutoff);
    }
  }

  lemma SweptTimed(left: seq<Entry>, clock: int)
    requires forall e :: e in left ==> !Expired(e.envelope, clock - TTL)
    ensures Timed(left, if |left| > 0 then Some(clock + SWEEP_INTERVAL) else None, clock)
  {
  }

  lemma SweepKeepsBox(b: Box, senders: map<string, Counter>, clock: int)
    requires BoxOk(b, senders, clock)
    ensures BoxOk(Sweep(b, clock), senders, clock)
  {
    var left := Fresh(b.queue, clock - TTL);
    FreshStay(b.queue, clock - TTL);
    FewerKeep(b.queue, left, senders, OrElse(b.received, 0), b.alarm, clock);
    SweptTimed(left, clock);
  }

  lemma AlarmKeeps(n: Net)
    requires NetOk(n) && n.box.alarm == Some(n.clock)
    ensures NetOk(HandleAlarm(n))
  {
    SweepKeepsBox(n.box, n.senders, n.clock);
  }

  lemma StepKeeps(n: Net, ev: Event)
    requires NetOk(n) && Allowed(n, ev)
    ensures NetOk(Step(n, ev))
  {
    match ev
    case SendTo(from, id, bytes, content, blocked) => SendKeeps(n, from, id, bytes, content, blocked);
    case SealedTo(token, id, ts, bytes, content) => SealedKeeps(n, token, Sealed(id, ts, bytes, content));
    case AckOf(id) => AckKeeps(n, id);
    case AlarmFires => AlarmKeeps(n);
    case SendElsewhere(from) =>
      NextDraws(n, from);
      KeyedGrows(n.box.queue, n.senders, OrElse(n.box.received, 0), Step(n, ev).senders, OrElse(n.box.received, 0));
    case EvictSender(from) =>
      KeyedGrows(n.box.queue, n.senders, OrElse(n.box.received, 0), Step(n, ev).senders, OrElse(n.box.received, 0));
    case _ =>
  }

  lemma {:induction false} RunKeeps(n: Net, evs: seq<Event>)
    requires NetOk(n) && AllowedAll(n, evs)
    ensures NetOk(StepAll(n, evs))
    decreases |evs|
  {
    if evs != [] {
      StepKeeps(n, evs[0]);
      RunKeeps(Step(n, evs[0]), evs[1..]);
    }
  }

  // ---- conservation ----

  lemma MoveShare(left: multiset<Entry>, gone: multiset<Entry>, whole: multiset<Entry>, l: Ledger)
    requires left + gone == whole && whole + l.acked + l.swept + l.purged == l.accepted
    ensures left + l.acked + (l.swept + gone) + l.purged == l.accepted
  {
  }

  lemma SweptBalanced(n: Net)
    requires Balanced(n)
    ensures Balanced(HandleAlarm(n))
  {
    var q := n.box.queue;
    var cutoff := n.clock - TTL;
    FreshAndGone(q, cutoff);
    MoveShare(multiset(Fresh(q, cutoff)), multiset(Gone(q, cutoff)), multiset(q), n.ledger);
    assert HandleAlarm(n).box.queue == Fresh(q, cutoff);
  }

  lemma AckBalanced(n: Net, id: string)
    requires Balanced(n) && Ordered(n.box.queue)
    ensures Balanced(HandleAck(n, id))
  {
    var q := n.box.queue;
    var found := FirstWithId(q, id);
    if found.Some? {
      var k := found.value;
      RemoveOne(q, k);
      assert q == q[..k] + [q[k]] + q[k + 1..];
    }
  }

  /** The envelope is stored under a key that is taken. */
  ghost predicate Clashes(n: Net, ev: Event) {
    match ev
    case SendTo(from, id, bytes, content, blocked) =>
      var number := Next(CounterOf(n, from)).0;
      && !blocked && n.box.sockets == 0 && CanQueue(n.box, Stamped(from, number, id, Floor(n.clock), bytes, content))
      && StampedClash(n.box.queue, from, number, id)
    case SealedTo(token, id, ts, bytes, content) =>
      && token in n.box.tokens && n.box.sockets == 0 && CanQueue(n.box, Sealed(id, ts, bytes, content))
      && SealedClash(n.box.queue, OrElse(n.box.received, 0), OrElse(id, ""))
    case _ => false
  }

  /** What a delivery does to the queue and the ledger: nothing, or one envelope more in both. */
  ghost predicate OnlyAdds(n: Net, n': Net) {
    || (n'.box.queue == n.box.queue && n'.ledger == n.ledger)
    || exists e :: && multiset(n'.box.queue) == multiset(n.box.queue) + multiset{e}
                   && |n'.box.queue| == |n.box.queue| + 1
                   && n'.ledger == n.ledger.(accepted := n.ledger.accepted + multiset{e})
  }

  /** In key order, a write under a taken key replaces the entry that has it. */
  lemma {:induction false} InsertReplaces(q: seq<Entry>, e: Entry, k: nat)
    requires Ordered(q) && k < |q| && q[k].key == e.key
    ensures Insert(q, e) == q[k := e]
  {
    if k > 0 {
      Trichotomy(q[0].key, e.key);
      assert Less(q[0].key, q[k].key);
      InsertReplaces(q[1..], e, k - 1);
      assert q[k := e] == [q[0]] + q[1..][k - 1 := e];
    }
  }

  /** Queued and counted under a free key. */
  lemma FreeKeyAdds(n: Net, n': Net, e: Entry)
    requires !Taken(n.box.queue, e.key)
    requires n'.box.queue == Insert(n.box.queue, e) && n'.ledger == Queued(n.ledger, e)
    ensures OnlyAdds(n, n') && (Balanced(n) ==> Balanced(n'))
  {
    InsertAdds(n.box.queue, e);
  }

  lemma Replaced(q: seq<Entry>, k: nat, e: Entry)
    requires k < |q| && e !in q
    ensures multiset(q[k := e])[q[k]] < multiset(q)[q[k]]
  {
    assert q == q[..k] + [q[k]] + q[k + 1..] && q[k := e] == q[..k] + [e] + q[k + 1..];
  }

  lemma MissesOne(left: multiset<Entry>, whole: multiset<Entry>, e: Entry, missing: Entry, l: Ledger)
    requires left[missing] < whole[missing] && missing != e && whole + l.acked + l.swept + l.purged == l.accepted
    ensures left + l.acked + l.swept + l.purged != l.accepted + multiset{e}
  {
    assert (left + l.acked + l.swept + l.purged)[missing] < l.accepted[missing] == (l.accepted + multiset{e})[missing];
  }

  /** Queued and counted under a taken key: an envelope is gone that nobody took out. */
  lemma TakenKeyLoses(n: Net, n': Net, e: Entry)
    requires Ordered(n.box.queue) && e !in n.box.queue && Taken(n.box.queue, e.key)
    requires n'.box.queue == Insert(n.box.queue, e) && n'.ledger == Queued(n.ledger, e)
    ensures !OnlyAdds(n, n') && (Balanced(n) ==> !Balanced(n'))
  {
    var q := n.box.queue;
    var k :| 0 <= k < |q| && q[k].key == e.key;
    InsertReplaces(q, e, k);
    Replaced(q, k, e);
    if Balanced(n) {
      MissesOne(multiset(q[k := e]), multiset(q), e, q[k], n.ledger);
    }
    assert n'.ledger.accepted[e] == n.ledger.accepted[e] + 1;
  }

  lemma QueueingExactly(n: Net, n': Net, e: Entry)
    requires Ordered(n.box.queue) && e !in n.box.queue
    requires n'.box.queue == Insert(n.box.queue, e) && n'.ledger == Queued(n.ledger, e)
    ensures OnlyAdds(n, n') <==> !Taken(n.box.queue, e.key)
    ensures Balanced(n) ==> (Balanced(n') <==> !Taken(n.box.queue, e.key))
  {
    if Taken(n.box.queue, e.key) {
      TakenKeyLoses(n, n', e);
    } else {
      FreeKeyAdds(n, n', e);
    }
  }

  /** A stamped envelope is queued once. */
  lemma NewNumber(n: Net, from: string, id: string, bytes: nat, content: nat)
    requires NetOk(n)
    ensures var e := Stamped(from, Drawn(n.senders, from), id, Floor(n.clock), bytes, content);
            Entry(KeyOf(e, 0), e) !in n.box.queue
  {
    forall k | 0 <= k < |n.box.queue| ensures Keyed(n.box.queue[k], n.senders, OrElse(n.box.received, 0)) {
    }
  }

  lemma NewReceipt(n: Net, e: Envelope)
    requires NetOk(n) && e.Sealed?
    ensures Entry(KeyOf(e, OrElse(n.box.received, 0)), e) !in n.box.queue
  {
    var received := OrElse(n.box.received, 0);
    var entry := Entry(KeyOf(e, received), e);
    if entry in n.box.queue {
      var k :| 0 <= k < |n.box.queue| && n.box.queue[k] == entry;
      assert Keyed(n.box.queue[k], n.senders, received);
      var m: nat :| m < received && entry.key == SealedKey(m, OrElse(e.sealedId, ""));
      SealedInjective(m, OrElse(e.sealedId, ""), received, OrElse(e.sealedId, ""));
    }
  }

  /**
   A delivery never evicts or overwrites what is queued, unless its key is spelled out by an id on
   the other path: exactly then it replaces an envelope.
   */
  lemma DeliveryOnlyAdds(n: Net, ev: Event)
    requires NetOk(n) && Allowed(n, ev) && (ev.SendTo? || ev.SealedTo?)
    ensures OnlyAdds(n, Step(n, ev)) <==> !Clashes(n, ev)
    ensures Balanced(n) ==> (Balanced(Step(n, ev)) <==> !Clashes(n, ev))
  {
    match ev
    case SendTo(from, id, bytes, content, blocked) =>
      NextDraws(n, from);
      StampedTaken(n.box.queue, n.senders, OrElse(n.box.received, 0), from, id);
      var e := Stamped(from, Drawn(n.senders, from), id, Floor(n.clock), bytes, content);
      if !blocked && n.box.sockets == 0 && CanQueue(n.box, e) {
        NewNumber(n, from, id, bytes, content);
        QueueingExactly(n, Step(n, ev), Entry(KeyOf(e, 0), e));
      }
    case SealedTo(token, id, ts, bytes, content) =>
      SealedTaken(n.box.queue, n.senders, OrElse(n.box.received, 0), OrElse(id, ""));
      var e := Sealed(id, ts, bytes, content);
      if token in n.box.tokens && n.box.sockets == 0 && CanQueue(n.box, e) {
        NewReceipt(n, e);
        QueueingExactly(n, Step(n, ev), Entry(KeyOf(e, OrElse(n.box.received, 0)), e));
      }
  }

  ghost predicate NoClashAll(n: Net, evs: seq<Event>)
    decreases |evs|
  {
    evs == [] || (!Clashes(n, evs[0]) && NoClashAll(Step(n, evs[0]), evs[1..]))
  }

  ghost predicate BalancedThroughout(n: Net, evs: seq<Event>)
    decreases |evs|
  {
    Balanced(n) && (evs == [] || BalancedThroughout(Step(n, evs[0]), evs[1..]))
  }

  lemma StepBalanced(n: Net, ev: Event)
    requires NetOk(n) && Balanced(n) && Allowed(n, ev)
    ensures Balanced(Step(n, ev)) <==> !Clashes(n, ev)
  {
    match ev
    case SendTo(_, _, _, _, _) => DeliveryOnlyAdds(n, ev);
    case SealedTo(_, _, _, _, _) => DeliveryOnlyAdds(n, ev);
    case AckOf(id) => AckBalanced(n, id);
    case AlarmFires => SweptBalanced(n);
    case _ =>
  }

  lemma {:induction false} BalancedExactly(n: Net, evs: seq<Event>)
    requires NetOk(n) && Balanced(n) && AllowedAll(n, evs)
    ensures BalancedThroughout(n, evs) <==> NoClashAll(n, evs)
    decreases |evs|
  {
    if evs != [] {
      StepKeeps(n, evs[0]);
      StepBalanced(n, evs[0]);
      if Clashes(n, evs[0]) {
        assert !BalancedThroughout(Step(n, evs[0]), evs[1..]);
      } else {
        BalancedExactly(Step(n, evs[0]), evs[1..]);
      }
    }
  }

  lemma {:induction false} BalancedAtTheEnd(n: Net, evs: seq<Event>)
    requires BalancedThroughout(n, evs)
    ensures Balanced(StepAll(n, evs))
    decreases |evs|
  {
    if evs != [] {
      BalancedAtTheEnd(Step(n, evs[0]), evs[1..]);
    }
  }

  // ---- the promises ----

  /**
   Conservation and the cap. Over every run the queue holds at most 500 envelopes; and at every
   state it holds exactly what was accepted less what an acknowledgement, the sweep or account
   deletion took out, if and only if no envelope was stored under a key spelled out by another.
   */
  lemma QueueConserved(clock: int, evs: seq<Event>)
    requires AllowedAll(Empty(clock), evs)
    ensures |StepAll(Empty(clock), evs).box.queue| <= MAX_QUEUED
    ensures BalancedThroughout(Empty(clock), evs) <==> NoClashAll(Empty(clock), evs)
  {
    RunKeeps(Empty(clock), evs);
    BalancedExactly(Empty(clock), evs);
  }

  /**
   It can happen: a sealed id that spells the key of a message to come, and a sender whose name is a
   padded number.
   */
  function ClashingRun(token: string, id: string): seq<Event> {
    [Register(token), SealedTo(token, Some(Pad(0) + ":" + id), None, 0, 0), SendTo(Pad(0), id, 0, 1, false)]
  }

  /** Two envelopes were accepted, and one is queued. */
  lemma SpelledKeyReplaces(clock: int, token: string, id: string)
    requires |token| >= MIN_TOKEN_LENGTH
    ensures AllowedAll(Empty(clock), ClashingRun(token, id))
    ensures var n := StepAll(Empty(clock), ClashingRun(token, id));
            |n.box.queue| == 1 && |n.ledger.accepted| == 2
            && n.ledger.acked == n.ledger.swept == n.ledger.purged == multiset{}
  {
    var evs := ClashingRun(token, id);
    PadColonFree(0);
    var registered := Step(Empty(clock), evs[0]);
    assert registered.box.tokens == [token];
    var sealed := Step(registered, evs[1]);
    var first := Entry(SealedKey(0, Pad(0) + ":" + id), Sealed(Some(Pad(0) + ":" + id), None, 0, 0));
    assert sealed.box.queue == [first];
    var second := Entry(StampedKey(Pad(0), 0, id), Stamped(Pad(0), 0, id, Floor(clock), 0, 1));
    CrossCollision(Pad(0), 0, id, 0, Pad(0) + ":" + id);
    assert Insert([first], second) == [second];
    assert evs[1..][1..] == [evs[2]] && evs[1..][0] == evs[1] && [evs[2]][1..] == [];
    assert StepAll(sealed, [evs[2]]) == Step(sealed, evs[2]);
    assert StepAll(registered, evs[1..]) == StepAll(sealed, [evs[2]]);
    assert AllowedAll(sealed, [evs[2]]);
    assert AllowedAll(registered, evs[1..]);
    assert StepAll(Empty(clock), evs) == StepAll(registered, evs[1..]);
  }

  /** Sealed ids without a colon clash with nothing. */
  predicate PlainId(ev: Event) {
    ev.SealedTo? ==> ColonFree(OrElse(ev.sealedId, ""))
  }

  ghost predicate PlainQueue(q: seq<Entry>) {
    forall k :: 0 <= k < |q| && q[k].envelope.Sealed? ==> ColonFree(OrElse(q[k].envelope.sealedId, ""))
  }

  lemma PlainNeverClashes(n: Net, ev: Event)
    requires PlainQueue(n.box.queue) && PlainId(ev)
    ensures !Clashes(n, ev)
  {
    match ev
    case SendTo(from, id, _, _, _) =>
      var number := Next(CounterOf(n, from)).0;
      forall k, m: nat | 0 <= k < |n.box.queue| && n.box.queue[k].envelope.Sealed?
        ensures !Spells(from, number, id, m, OrElse(n.box.queue[k].envelope.sealedId, ""))
      {
        ColonFreeSpellsNothing(from, number, id, m, OrElse(n.box.queue[k].envelope.sealedId, ""));
      }
    case SealedTo(_, id, _, _, _) =>
      var received := OrElse(n.box.received, 0);
      forall k | 0 <= k < |n.box.queue| && n.box.queue[k].envelope.Stamped?
        ensures var e := n.box.queue[k].envelope;
                !Spells(e.from, e.seqNumber, e.id, received, OrElse(id, ""))
      {
        var e := n.box.queue[k].envelope;
        ColonFreeSpellsNothing(e.from, e.seqNumber, e.id, received, OrElse(id, ""));
      }
    case _ =>
  }

  /** The flush sends one sender's envelopes in the order they were sent. */
  lemma FlushInSendOrder(n: Net, i: nat, j: nat)
    requires NetOk(n) && i < j < |n.box.queue|
    requires var e, f := Envelopes(n.box.queue)[i], Envelopes(n.box.queue)[j];
             && e.Stamped? && f.Stamped? && e.from == f.from
             && e.seqNumber < Pow10(SEQ_WIDTH) && f.seqNumber < Pow10(SEQ_WIDTH)
    ensures Envelopes(n.box.queue)[i].seqNumber < Envelopes(n.box.queue)[j].seqNumber
  {
    var x, y := n.box.queue[i], n.box.queue[j];
    var e, f := x.envelope, y.envelope;
    assert Keyed(x, n.senders, OrElse(n.box.received, 0)) && Keyed(y, n.senders, OrElse(n.box.received, 0));
    assert Less(x.key, y.key);
    Trichotomy(x.key, y.key);
    assert !SameNumber(e, f);
    KeysInSendOrder(e.from, e.seqNumber, f.seqNumber, e.id, f.id);
  }

  /** With alarms on time, every stamped envelope is gone 14 days and 24 hours after its timestamp. */
  lemma GoneInTime(clock: int, evs: seq<Event>, k: nat)
    requires AllowedAll(Empty(clock), evs)
    requires var q := StepAll(Empty(clock), evs).box.queue;
             k < |q| && q[k].envelope.Stamped?
    ensures var n := StepAll(Empty(clock), evs);
            n.box.alarm.Some? && n.clock <= n.box.alarm.value <= n.box.queue[k].envelope.ts + TTL + SWEEP_INTERVAL
  {
    RunKeeps(Empty(clock), evs);
    var n := StepAll(Empty(clock), evs);
    assert DueBy(n.box.queue[k].envelope, n.box.alarm.value);
  }

  /** What the sweep never takes: a sealed receipt carries no timestamp, and outlives every alarm. */
  lemma {:induction false} ReceiptsAreNeverSwept(q: seq<Entry>, e: Entry, cutoff: int)
    requires e.envelope.Sealed? && e.envelope.sealedTs.None?
    ensures e in Fresh(q, cutoff) <==> e in q
  {
    if q != [] {
      assert q == [q[0]] + q[1..];
      ReceiptsAreNeverSwept(q[1..], e, cutoff);
    }
  }

  /** Writing under a key that is taken replaces what was queued; that is why new keys matter. */
  lemma {:induction false} TakenKeyOverwrites(q: seq<Entry>, e: Entry)
    ensures |Insert(q, e)| == |q| <==>
            exists k :: 0 <= k < |q| && q[k].key == e.key && forall j :: 0 <= j < k ==> !Less(e.key, q[j].key)
  {
    if q != [] && q[0].key != e.key && !Less(e.key, q[0].key) {
      TakenKeyOverwrites(q[1..], e);
      if k :| 0 <= k < |q[1..]| && q[1..][k].key == e.key && forall j :: 0 <= j < k ==> !Less(e.key, q[1..][j].key) {
        assert q[k + 1].key == e.key;
      }
    }
  }

  // ---- the send counter ----

  datatype Use = Draw | Lose

  /** The numbers handed out, and the counter left, over any mixture of sends and evictions. */
  function Numbers(c: Counter, uses: seq<Use>): (seq<nat>, Counter)
    decreases |uses|
  {
    if uses == [] then ([], c)
    else
      match uses[0]
      case Lose => Numbers(Evicted(c), uses[1..])
      case Draw =>
        var (k, c1) := Next(c);
        var (rest, c2) := Numbers(c1, uses[1..]);
        ([k] + rest, c2)
  }

  /** The counter survives eviction: numbers come out one after the other, none twice and none left out. */
  lemma {:induction false} NumbersNeverRepeat(c: Counter, uses: seq<Use>)
    requires c.memory.Some? ==> c.memory == c.stored
    ensures var (numbers, _) := Numbers(c, uses);
            forall k :: 0 <= k < |numbers| ==> numbers[k] == OrElse(c.stored, 0) + k
    decreases |uses|
  {
    if uses != [] {
      match uses[0]
      case Lose =>
        NumbersNeverRepeat(Evicted(c), uses[1..]);
        assert Numbers(c, uses) == Numbers(Evicted(c), uses[1..]);
      case Draw =>
        var (k, c1) := Next(c);
        NumbersNeverRepeat(c1, uses[1..]);
        assert Numbers(c, uses).0 == [k] + Numbers(c1, uses[1..]).0;
    }
  }
}
