/** Every run of the prekey pool, with writers of the document interleaved in any way. */
module PrekeyRun {
  import opened Crypto
  import opened Prekeys
  import opened X3dh

  // ---- where a key can be ----

  function InBatches(s: seq<Batch>): multiset<nat> {
    if s == [] then multiset{} else multiset(s[0].keys) + InBatches(s[1..])
  }

  /** Every public key that is or may yet be on the server, and not handed out. */
  function Public(p: Pool): multiset<nat> {
    multiset(p.table) + InBatches(p.memory) + InBatches(p.requests) + InBatches(p.inserts)
  }

  function Everywhere(p: Pool): multiset<nat> {
    multiset(p.handed) + Public(p)
  }

  /** A key somebody may still start a handshake with. */
  predicate Wanted(p: Pool, k: nat) {
    k in Public(p) || (k in p.handed && k !in p.taken)
  }

  // ---- what holds in every reachable state ----

  /** A handshake can only name a key that somebody was given. */
  predicate Allowed(p: Pool, ev: Event) {
    ev.Load? && ev.task.Take? ==> ev.task.key in p.handed
  }

  ghost predicate AllowedAll(p: Pool, evs: seq<Event>)
    decreases |evs|
  {
    evs == [] || (Allowed(p, evs[0]) && AllowedAll(Step(p, evs[0]), evs[1..]))
  }

  /** No key is in two places, or twice in one. */
  ghost predicate Once(m: multiset<nat>) {
    forall x :: m[x] <= 1
  }

  ghost predicate BooksOk(p: Pool) {
    && Once(Everywhere(p))
    && (forall x :: x in Everywhere(p) ==> x in p.saved)
    && (forall x :: x in p.secrets ==> x in p.saved)
    && (forall x :: x in p.saved ==> x < p.drawn)
    && (forall x :: x in p.taken ==> x in p.handed)
  }

  ghost predicate JobOk(p: Pool, j: Job) {
    && (forall x :: x in j.seen ==> x in j.savedThen)
    && (forall x :: x in j.savedThen ==> x in p.saved)
    && (forall x :: x in j.takenThen ==> x in p.taken)
    && (forall x :: x in j.made ==> x !in p.saved && x < p.drawn)
    && Once(multiset(j.made))
    && (j.task.Take? ==> j.task.key in p.handed && j.task.key in j.seen)
    && (j.task.Save? || j.made == [])
  }

  /** Writers at work have drawn different keys. */
  ghost predicate Apart(p: Pool) {
    forall id, other, x :: id in p.jobs && other in p.jobs && id != other && x in p.jobs[id].made ==>
      x !in p.jobs[other].made
  }

  ghost predicate JobsOk(p: Pool) {
    && (forall id :: id in p.jobs ==> id < p.started && JobOk(p, p.jobs[id]))
    && Apart(p)
  }

  ghost predicate PoolOk(p: Pool) {
    BooksOk(p) && JobsOk(p)
  }

  /** The promise: every key still wanted has its secret, and no secret is there twice over. */
  ghost predicate Sound(p: Pool) {
    && (forall k :: Wanted(p, k) ==> k in p.secrets)
    && (forall k :: k in p.taken ==> k !in p.secrets)
  }

  /** What a writer read is what there was when it read, as far as it still matters. */
  ghost predicate Saw(p: Pool, j: Job) {
    && (forall k :: k in j.savedThen && Wanted(p, k) ==> k in j.seen)
    && (forall k :: k in j.savedThen && k in p.taken ==> (k in j.seen <==> k !in j.takenThen))
  }

  ghost predicate AllSaw(p: Pool) {
    forall id :: id in p.jobs ==> Saw(p, p.jobs[id])
  }

  // ---- steps that leave the document alone ----

  /** Keys may be lost, or move from public to handed; writers may be gone. */
  ghost predicate Quiet(p: Pool, q: Pool) {
    && q.secrets == p.secrets && q.saved == p.saved && q.taken == p.taken && q.drawn == p.drawn
    && q.started == p.started
    && (forall id :: id in q.jobs ==> id in p.jobs && q.jobs[id] == p.jobs[id])
    && Public(q) <= Public(p) && Everywhere(q) <= Everywhere(p)
    && (forall k :: k in p.handed ==> k in q.handed)
  }

  lemma QuietWanted(p: Pool, q: Pool, k: nat)
    requires Quiet(p, q) && Wanted(q, k)
    ensures Wanted(p, k)
  {
    if k !in Public(q) {
      assert k in multiset(q.handed) && k in Everywhere(q);
      assert k in Everywhere(p);
    }
  }

  lemma QuietBooks(p: Pool, q: Pool)
    requires BooksOk(p) && Quiet(p, q)
    ensures BooksOk(q)
  {
    forall x ensures Everywhere(q)[x] <= Everywhere(p)[x] {
    }
    forall x | x in Everywhere(q) ensures x in q.saved {
      assert x in Everywhere(p);
    }
  }

  lemma QuietJobs(p: Pool, q: Pool)
    requires JobsOk(p) && Quiet(p, q)
    ensures JobsOk(q)
  {
    forall id | id in q.jobs ensures id < q.started && JobOk(q, q.jobs[id]) {
      assert JobOk(p, p.jobs[id]);
    }
  }

  lemma QuietSound(p: Pool, q: Pool)
    requires Sound(p) && AllSaw(p) && Quiet(p, q)
    ensures Sound(q) && AllSaw(q)
  {
    forall k | Wanted(q, k) ensures Wanted(p, k) {
      QuietWanted(p, q, k);
    }
    forall id | id in q.jobs ensures Saw(q, q.jobs[id]) {
      assert Saw(p, p.jobs[id]);
    }
  }

  lemma {:induction false} WithoutBatch(s: seq<Batch>, k: nat)
    requires k < |s|
    ensures InBatches(RemoveAt(s, k)) + multiset(s[k].keys) == InBatches(s)
  {
    if k > 0 {
      WithoutBatch(s[1..], k - 1);
      assert RemoveAt(s, k)[1..] == RemoveAt(s[1..], k - 1);
    } else {
      assert RemoveAt(s, 0) == s[1..];
    }
  }

  lemma {:induction false} AppendBatch(s: seq<Batch>, b: Batch)
    ensures InBatches(s + [b]) == InBatches(s) + multiset(b.keys)
  {
    if s == [] {
      assert [b][1..] == [];
    } else {
      assert (s + [b])[1..] == s[1..] + [b];
      AppendBatch(s[1..], b);
    }
  }

  /**
   Of a batch of more than 200 nothing is accepted; of any other all of it, or, for a top-up, the
   longest beginning that leaves no more than 100 stored.
   */
  lemma AcceptedWithin(table: seq<nat>, b: Batch)
    ensures Accepted(table, b) <= b.keys && multiset(Accepted(table, b)) <= multiset(b.keys)
    ensures |b.keys| > 200 ==> Accepted(table, b) == []
    ensures |b.keys| <= 200 && b.withIdentity ==> Accepted(table, b) == b.keys
    ensures |b.keys| <= 200 && !b.withIdentity ==>
              var most := if |table| < 100 then 100 else |table|;
              && |table| + |Accepted(table, b)| <= most
              && (Accepted(table, b) != b.keys ==> |table| + |Accepted(table, b)| == most)
  {
    var a := Accepted(table, b);
    if |a| < |b.keys| {
      assert b.keys == b.keys[..|a|] + b.keys[|a|..];
    }
  }

  lemma PublishIsQuiet(p: Pool, k: nat)
    ensures Quiet(p, PublishBatch(p, k))
  {
    if k < |p.memory| {
      WithoutBatch(p.memory, k);
      AppendBatch(p.requests, p.memory[k]);
    }
  }

  lemma ArriveIsQuiet(p: Pool, k: nat)
    ensures Quiet(p, Count(p, k))
  {
    if k < |p.requests| {
      WithoutBatch(p.requests, k);
      AcceptedWithin(p.table, p.requests[k]);
      AppendBatch(p.inserts, Batch(Accepted(p.table, p.requests[k]), p.requests[k].withIdentity));
    }
  }

  lemma InsertIsQuiet(p: Pool, k: nat)
    ensures Quiet(p, InsertRows(p, k))
  {
    if k < |p.inserts| {
      WithoutBatch(p.inserts, k);
    }
  }

  lemma LoseIsQuiet(p: Pool, k: nat)
    ensures Quiet(p, LoseRequest(p, k))
  {
    if k < |p.requests| {
      WithoutBatch(p.requests, k);
      assert InBatches(LoseRequest(p, k).requests) <= InBatches(p.requests);
    }
  }

  lemma RestartIsQuiet(p: Pool)
    ensures Quiet(p, Restart(p))
  {
    assert InBatches([]) <= InBatches(p.memory);
  }

  lemma ClaimIsQuiet(p: Pool, requester: string)
    ensures Quiet(p, ClaimKey(p, requester).1)
  {
    if ClaimKey(p, requester).1.table != p.table {
      assert p.table == [p.table[0]] + p.table[1..];
    }
  }

  lemma NewWindowIsQuiet(p: Pool)
    ensures Quiet(p, Step(p, NewWindow))
  {
    assert Public(Step(p, NewWindow)) == Public(p);
  }

  lemma OthersAreQuiet(p: Pool, ev: Event)
    requires !ev.Load? && !ev.Store?
    ensures Quiet(p, Step(p, ev))
  {
    match ev
    case Publish(k) =>
      assert Step(p, ev) == PublishBatch(p, k);
      PublishIsQuiet(p, k);
    case Crash =>
      assert Step(p, ev) == Restart(p);
      RestartIsQuiet(p);
    case Arrive(k) =>
      assert Step(p, ev) == Count(p, k);
      ArriveIsQuiet(p, k);
    case Insert(k) =>
      assert Step(p, ev) == InsertRows(p, k);
      InsertIsQuiet(p, k);
    case Lose(k) =>
      assert Step(p, ev) == LoseRequest(p, k);
      LoseIsQuiet(p, k);
    case Claim(requester) =>
      assert Step(p, ev) == ClaimKey(p, requester).1;
      ClaimIsQuiet(p, requester);
    case NewWindow => NewWindowIsQuiet(p);
  }

  // ---- reading the document ----

  lemma {:induction false} NewKeysOnce(from: nat, count: int)
    ensures forall x :: multiset(NewKeys(from, count))[x] <= (if from <= x < from + count then 1 else 0)
    decreases if count > 0 then count else 0
  {
    if count > 0 {
      NewKeysOnce(from, count - 1);
      assert NewKeys(from, count) == NewKeys(from, count - 1) + [from + count - 1];
    }
  }

  lemma LoadBooks(p: Pool, task: Task)
    requires BooksOk(p)
    ensures BooksOk(LoadDoc(p, task))
  {
    assert Everywhere(LoadDoc(p, task)) == Everywhere(p);
  }

  lemma LoadJobs(p: Pool, task: Task)
    requires BooksOk(p) && JobsOk(p) && Allowed(p, Load(task))
    ensures JobsOk(LoadDoc(p, task))
  {
    var q := LoadDoc(p, task);
    if Writes(p, task) {
      var count := if task.Save? then task.count else 0;
      NewKeysOnce(p.drawn, count);
      forall x | x in NewKeys(p.drawn, count) ensures p.drawn <= x < q.drawn {
      }
      forall id | id in q.jobs ensures id < q.started && JobOk(q, q.jobs[id]) {
        assert id != p.started ==> JobOk(p, p.jobs[id]);
      }
    }
  }

  lemma LoadSound(p: Pool, task: Task)
    requires PoolOk(p) && Sound(p) && AllSaw(p)
    ensures Sound(LoadDoc(p, task)) && AllSaw(LoadDoc(p, task))
  {
    var q := LoadDoc(p, task);
    forall k ensures Wanted(q, k) <==> Wanted(p, k) {
      assert Public(q) == Public(p);
    }
    forall id | id in q.jobs ensures Saw(q, q.jobs[id]) {
      assert id in p.jobs && q.jobs[id] == p.jobs[id] ==> Saw(p, p.jobs[id]);
    }
  }

  // ---- writing it back ----

  lemma StorePublic(p: Pool, id: nat)
    requires id in p.jobs && (p.jobs[id].task.Save? || p.jobs[id].made == [])
    ensures Public(StoreDoc(p, id)) == Public(p) + multiset(p.jobs[id].made)
  {
    if p.jobs[id].task.Save? {
      AppendBatch(p.memory, Batch(p.jobs[id].made, false));
    }
  }

  /** Saving adds the new keys; taking makes one of the keys handed out a used one. */
  lemma StoreWanted(p: Pool, id: nat, k: nat)
    requires BooksOk(p) && id in p.jobs && JobOk(p, p.jobs[id])
    ensures Wanted(StoreDoc(p, id), k) <==> (Wanted(p, k) && k !in Own(p.jobs[id])) || k in p.jobs[id].made
  {
    StorePublic(p, id);
    assert k in multiset(p.jobs[id].made) <==> k in p.jobs[id].made;
    if k in p.handed {
      assert k in multiset(p.handed);
      assert Everywhere(p)[k] <= 1;
    }
  }

  lemma StoreBooks(p: Pool, id: nat)
    requires BooksOk(p) && id in p.jobs && JobOk(p, p.jobs[id])
    ensures BooksOk(StoreDoc(p, id))
  {
    var j, q := p.jobs[id], StoreDoc(p, id);
    StorePublic(p, id);
    assert Everywhere(q) == Everywhere(p) + multiset(j.made);
    forall x ensures Everywhere(q)[x] <= 1 && (x in Everywhere(q) ==> x in q.saved) {
      assert x in multiset(j.made) <==> x in j.made;
      assert multiset(j.made)[x] <= 1 && Everywhere(p)[x] <= 1;
      assert x in Everywhere(p) ==> x in p.saved;
    }
  }

  lemma StoreJobs(p: Pool, id: nat)
    requires JobsOk(p) && id in p.jobs
    ensures JobsOk(StoreDoc(p, id))
  {
    var q := StoreDoc(p, id);
    forall other | other in q.jobs ensures other < q.started && JobOk(q, q.jobs[other]) {
      assert JobOk(p, p.jobs[other]);
    }
  }

  lemma StoreSaw(p: Pool, id: nat)
    requires PoolOk(p) && Sound(p) && AllSaw(p) && id in p.jobs
    ensures AllSaw(StoreDoc(p, id))
  {
    var q := StoreDoc(p, id);
    forall other | other in q.jobs ensures Saw(q, q.jobs[other]) {
      assert Saw(p, p.jobs[other]) && JobOk(p, p.jobs[other]) && JobOk(p, p.jobs[id]);
      forall k ensures Wanted(q, k) <==> (Wanted(p, k) && k !in Own(p.jobs[id])) || k in p.jobs[id].made {
        StoreWanted(p, id, k);
      }
    }
  }

  lemma StepKeeps(p: Pool, ev: Event)
    requires PoolOk(p) && Allowed(p, ev)
    ensures PoolOk(Step(p, ev))
  {
    match ev
    case Load(task) =>
      LoadBooks(p, task);
      LoadJobs(p, task);
    case Store(id) =>
      if id in p.jobs {
        StoreBooks(p, id);
        StoreJobs(p, id);
      }
    case _ =>
      OthersAreQuiet(p, ev);
      QuietBooks(p, Step(p, ev));
      QuietJobs(p, Step(p, ev));
  }

  lemma {:induction false} RunKeeps(p: Pool, evs: seq<Event>)
    requires PoolOk(p) && AllowedAll(p, evs)
    ensures PoolOk(StepAll(p, evs))
    decreases |evs|
  {
    if evs != [] {
      StepKeeps(p, evs[0]);
      RunKeeps(Step(p, evs[0]), evs[1..]);
    }
  }

  lemma CreatedOk()
    ensures PoolOk(Created()) && Sound(Created()) && AllSaw(Created())
  {
    NewKeysOnce(0, INITIAL_BATCH);
    var keys := NewKeys(0, INITIAL_BATCH);
    assert [Batch(keys, true)][1..] == [];
    assert Everywhere(Created()) == multiset(keys);
    forall x | x in multiset(keys) ensures x in keys && x < INITIAL_BATCH {
    }
  }

  // ---- the promise, and exactly when it is kept ----

  /**
   A write is overtaken when, since its writer read the document, a key that is still wanted was
   saved, or a key it knew was used up by somebody else.
   */
  ghost predicate Overtaken(p: Pool, j: Job) {
    || (exists k :: Wanted(p, k) && k !in j.savedThen)
    || (exists k :: k in p.taken && k !in j.takenThen && k in j.savedThen && k !in Own(j))
  }

  ghost predicate InTime(p: Pool, ev: Event) {
    ev.Store? && ev.job in p.jobs ==> !Overtaken(p, p.jobs[ev.job])
  }

  ghost predicate InTimeAll(p: Pool, evs: seq<Event>)
    decreases |evs|
  {
    evs == [] || (InTime(p, evs[0]) && InTimeAll(Step(p, evs[0]), evs[1..]))
  }

  /** Sound now and after every step. */
  ghost predicate SoundThroughout(p: Pool, evs: seq<Event>)
    decreases |evs|
  {
    Sound(p) && (evs == [] || SoundThroughout(Step(p, evs[0]), evs[1..]))
  }

  lemma StoreInTime(p: Pool, id: nat)
    requires PoolOk(p) && Sound(p) && AllSaw(p) && id in p.jobs && !Overtaken(p, p.jobs[id])
    ensures Sound(StoreDoc(p, id))
  {
    var j, q := p.jobs[id], StoreDoc(p, id);
    assert JobOk(p, j) && Saw(p, j);
    forall k | Wanted(q, k) ensures k in q.secrets {
      StoreWanted(p, id, k);
    }
    forall k | k in q.taken ensures k !in q.secrets {
      assert k in multiset(p.handed) && k in Everywhere(p);
    }
  }

  lemma StoreTooLate(p: Pool, id: nat)
    requires PoolOk(p) && Sound(p) && AllSaw(p) && id in p.jobs && Overtaken(p, p.jobs[id])
    ensures !Sound(StoreDoc(p, id))
  {
    var j, q := p.jobs[id], StoreDoc(p, id);
    assert JobOk(p, j) && Saw(p, j);
    if exists k :: Wanted(p, k) && k !in j.savedThen {
      var k :| Wanted(p, k) && k !in j.savedThen;
      StoreWanted(p, id, k);
      assert k in Public(p) || k in multiset(p.handed);
      assert k in Everywhere(p);
      assert Wanted(q, k) && k !in q.secrets;
    } else {
      var k :| k in p.taken && k !in j.takenThen && k in j.savedThen && k !in Own(j);
      assert k in q.taken && k in q.secrets;
    }
  }

  lemma StepExact(p: Pool, ev: Event)
    requires PoolOk(p) && Allowed(p, ev) && Sound(p) && AllSaw(p)
    ensures Sound(Step(p, ev)) <==> InTime(p, ev)
    ensures AllSaw(Step(p, ev))
  {
    match ev
    case Load(task) => LoadSound(p, task);
    case Store(id) =>
      if id in p.jobs {
        StoreSaw(p, id);
        if Overtaken(p, p.jobs[id]) { StoreTooLate(p, id); } else { StoreInTime(p, id); }
      }
    case _ =>
      OthersAreQuiet(p, ev);
      QuietSound(p, Step(p, ev));
  }

  lemma {:induction false} SoundExactly(p: Pool, evs: seq<Event>)
    requires PoolOk(p) && Sound(p) && AllSaw(p) && AllowedAll(p, evs)
    ensures SoundThroughout(p, evs) <==> InTimeAll(p, evs)
    decreases |evs|
  {
    if evs != [] {
      StepKeeps(p, evs[0]);
      StepExact(p, evs[0]);
      if InTime(p, evs[0]) {
        SoundExactly(Step(p, evs[0]), evs[1..]);
      } else {
        assert !SoundThroughout(Step(p, evs[0]), evs[1..]);
      }
    }
  }

  /**
   Over every run of a new identity's pool: every key still wanted keeps its secret and every used
   secret stays gone, at every state, if and only if no write of the document was overtaken.
   */
  lemma EveryKeyBackedExactly(evs: seq<Event>)
    requires AllowedAll(Created(), evs)
    ensures SoundThroughout(Created(), evs) <==> InTimeAll(Created(), evs)
  {
    CreatedOk();
    SoundExactly(Created(), evs);
  }

  lemma {:induction false} SoundAtTheEnd(p: Pool, evs: seq<Event>)
    requires SoundThroughout(p, evs)
    ensures Sound(StepAll(p, evs))
    decreases |evs|
  {
    if evs != [] {
      SoundAtTheEnd(Step(p, evs[0]), evs[1..]);
    }
  }

  /**
   However writers, crashes and requests interleave, no key is handed out twice. With no write
   overtaken, every key on the server has its secret on the device, and a key that was handed out
   keeps it until a handshake used it, and not longer.
   */
  lemma EveryKeyBackedAndHandedOnce(evs: seq<Event>)
    requires AllowedAll(Created(), evs)
    ensures var p := StepAll(Created(), evs);
            && (forall i, j :: 0 <= i < j < |p.handed| ==> p.handed[i] != p.handed[j])
            && (InTimeAll(Created(), evs) ==>
                  && (forall x :: x in p.table ==> x in p.secrets)
                  && (forall x :: x in p.handed ==> (x in p.secrets <==> x !in p.taken)))
  {
    CreatedOk();
    RunKeeps(Created(), evs);
    EveryKeyBackedExactly(evs);
    var p := StepAll(Created(), evs);
    if InTimeAll(Created(), evs) {
      SoundAtTheEnd(Created(), evs);
      assert forall x :: x in p.table ==> x in multiset(p.table) && x in Public(p) && Wanted(p, x);
      assert forall x :: x in p.handed && x !in p.taken ==> Wanted(p, x);
    }
    forall i, j | 0 <= i < j < |p.handed| ensures p.handed[i] != p.handed[j] {
      assert Everywhere(p)[p.handed[i]] <= 1;
      if p.handed[i] == p.handed[j] {
        TwiceCounted(p.handed, i, j);
      }
    }
  }

  lemma TwiceCounted(s: seq<nat>, i: nat, j: nat)
    requires i < j < |s| && s[i] == s[j]
    ensures multiset(s)[s[i]] >= 2
  {
    assert s == s[..i] + [s[i]] + s[i + 1..j] + [s[j]] + s[j + 1..];
  }

  // ---- one key ----

  ghost predicate KeptThroughout(p: Pool, k: nat, evs: seq<Event>)
    decreases |evs|
  {
    (k in p.secrets || k in p.taken) && (evs == [] || KeptThroughout(Step(p, evs[0]), k, evs[1..]))
  }

  ghost predicate GoneThroughout(p: Pool, k: nat, evs: seq<Event>)
    decreases |evs|
  {
    k !in p.secrets && (evs == [] || GoneThroughout(Step(p, evs[0]), k, evs[1..]))
  }

  predicate Stores(p: Pool, ev: Event, writers: set<nat>) {
    ev.Store? && ev.job in p.jobs && ev.job in writers
  }

  /** One of the writers is stored, before the key is used up. */
  predicate StoredBeforeUse(p: Pool, k: nat, evs: seq<Event>, writers: set<nat>)
    decreases |evs|
  {
    evs != [] && k !in p.taken && (Stores(p, evs[0], writers) || StoredBeforeUse(Step(p, evs[0]), k, evs[1..], writers))
  }

  predicate StoredEver(p: Pool, evs: seq<Event>, writers: set<nat>)
    decreases |evs|
  {
    evs != [] && (Stores(p, evs[0], writers) || StoredEver(Step(p, evs[0]), evs[1..], writers))
  }

  /** The open writers that would write the document without the key are just those of `early`. */
  ghost predicate OnlyEarlyDrop(p: Pool, k: nat, early: set<nat>) {
    && k < p.drawn
    && (forall id :: id in p.jobs || id in early ==> id < p.started)
    && (forall id :: id in p.jobs ==> k !in p.jobs[id].made && (k in p.jobs[id].seen <==> id !in early))
    && (forall id :: id in p.jobs && k in Own(p.jobs[id]) ==> id !in early)
  }

  /** A step keeps the key, or uses it up, unless it stores one of the early writers. */
  lemma KeptStep(p: Pool, k: nat, ev: Event, early: set<nat>)
    requires k in p.secrets && k !in p.taken && OnlyEarlyDrop(p, k, early)
    ensures var q := Step(p, ev);
            if Stores(p, ev, early) then k !in q.secrets && k !in q.taken
            else k in q.taken || (k in q.secrets && OnlyEarlyDrop(q, k, early))
  {
  }

  lemma TakenForGood(p: Pool, k: nat, ev: Event)
    requires k in p.taken
    ensures k in Step(p, ev).taken
  {
  }

  lemma {:induction false} KeptExactly(p: Pool, k: nat, evs: seq<Event>, early: set<nat>)
    requires k in p.taken || (k in p.secrets && OnlyEarlyDrop(p, k, early))
    ensures KeptThroughout(p, k, evs) <==> !StoredBeforeUse(p, k, evs, early)
    decreases |evs|
  {
    if evs != [] {
      var q := Step(p, evs[0]);
      if k in p.taken {
        TakenForGood(p, k, evs[0]);
        KeptExactly(q, k, evs[1..], early);
      } else {
        KeptStep(p, k, evs[0], early);
        if Stores(p, evs[0], early) {
          assert !KeptThroughout(q, k, evs[1..]);
        } else {
          KeptExactly(q, k, evs[1..], early);
        }
      }
    }
  }

  /**
   What a save is worth: the key it stored is in the document at every later state until it is
   used up, if and only if no writer that had read the document before is stored after it.
   */
  lemma SavedKeySurvivesExactly(p: Pool, id: nat, k: nat, evs: seq<Event>)
    requires PoolOk(p) && id in p.jobs && k in p.jobs[id].made
    ensures var q := StoreDoc(p, id);
            KeptThroughout(q, k, evs) <==> !StoredBeforeUse(q, k, evs, q.jobs.Keys)
  {
    var q := StoreDoc(p, id);
    assert JobOk(p, p.jobs[id]);
    forall other | other in q.jobs ensures k !in q.jobs[other].made && k !in q.jobs[other].seen {
      assert JobOk(p, p.jobs[other]);
    }
    KeptExactly(q, k, evs, q.jobs.Keys);
  }

  /** Writers that read the key and would put it back. */
  function Readers(p: Pool, k: nat): set<nat> {
    set id | id in p.jobs && k in p.jobs[id].seen && k !in Own(p.jobs[id])
  }

  ghost predicate OnlyReadersRevive(p: Pool, k: nat, readers: set<nat>) {
    && k < p.drawn
    && (forall id :: id in p.jobs || id in readers ==> id < p.started)
    && (forall id :: id in p.jobs ==> k !in p.jobs[id].made && (k in Written(p.jobs[id]) <==> id in readers))
  }

  lemma GoneStep(p: Pool, k: nat, ev: Event, readers: set<nat>)
    requires k !in p.secrets && OnlyReadersRevive(p, k, readers)
    ensures var q := Step(p, ev);
            if Stores(p, ev, readers) then k in q.secrets
            else k !in q.secrets && OnlyReadersRevive(q, k, readers)
  {
  }

  lemma {:induction false} GoneExactly(p: Pool, k: nat, evs: seq<Event>, readers: set<nat>)
    requires k !in p.secrets && OnlyReadersRevive(p, k, readers)
    ensures GoneThroughout(p, k, evs) <==> !StoredEver(p, evs, readers)
    decreases |evs|
  {
    if evs != [] {
      var q := Step(p, evs[0]);
      GoneStep(p, k, evs[0], readers);
      if Stores(p, evs[0], readers) {
        assert !GoneThroughout(q, k, evs[1..]);
      } else {
        GoneExactly(q, k, evs[1..], readers);
      }
    }
  }

  /** A used secret stays gone if and only if no writer that had read it before is stored after the take. */
  lemma UsedKeyStaysGoneExactly(p: Pool, id: nat, k: nat, evs: seq<Event>)
    requires PoolOk(p) && id in p.jobs && p.jobs[id].task == Take(k)
    ensures var q := StoreDoc(p, id);
            GoneThroughout(q, k, evs) <==> !StoredEver(q, evs, Readers(q, k))
  {
    var q := StoreDoc(p, id);
    assert JobOk(p, p.jobs[id]);
    assert k in multiset(p.handed) && k in Everywhere(p) && k in p.saved;
    forall other | other in q.jobs
      ensures k !in q.jobs[other].made && (k in Written(q.jobs[other]) <==> other in Readers(q, k))
    {
      assert JobOk(p, p.jobs[other]);
    }
    GoneExactly(q, k, evs, Readers(q, k));
  }

  function Snapshot(p: Pool, task: Task, made: seq<nat>): Job {
    Job(task, made, p.secrets, p.saved, p.taken)
  }

  ghost predicate Backed(p: Pool) {
    forall k :: Wanted(p, k) ==> k in p.secrets
  }

  /** Whoever named it: taking a secret, in time, is harmless exactly when its key is no longer to be handed out. */
  lemma TakingIsSafeExactly(p: Pool, id: nat, key: nat)
    requires Backed(p) && id in p.jobs && p.jobs[id] == Snapshot(p, Take(key), [])
    ensures Backed(StoreDoc(p, id)) <==> key !in Public(p)
  {
    var q := StoreDoc(p, id);
    assert Public(q) == Public(p);
    if key in Public(p) {
      assert Wanted(q, key);
    }
    forall k | Wanted(q, k) && k != key ensures k in q.secrets {
      assert Wanted(p, k);
    }
  }

  // ---- what is lost otherwise ----

  /** What a missing secret costs: the claimer's handshake and the owner's answer give different secrets. */
  lemma MissingSecretBreaksFirstContact(claimer: Identity, owner: Identity, signedPreKey: nat, p: Pool, key: nat,
                                        ephemeral: nat)
    ensures var mine := Initiate(claimer, Published(owner, signedPreKey, Some(key)), ephemeral);
            var found := if Writes(p, Take(key)) then Some(key) else None;
            var theirs := Respond(owner, signedPreKey, found, Point(claimer.dh), Point(ephemeral));
            mine.Ok? && (mine.value.secret == theirs.secret <==> key in p.secrets)
  {
  }

  lemma FourSteps(p: Pool, a: Event, b: Event, c: Event, d: Event)
    ensures StepAll(p, [a, b, c, d]) == Step(Step(Step(Step(p, a), b), c), d)
  {
    assert [a, b, c, d] == [a] + [b, c] + [d];
    FirstAndLast(p, a, [b, c], d);
    assert [b, c][1..] == [c];
    OneStep(Step(Step(p, a), b), c);
  }

  /** One writer after the other reads the document. */
  lemma BothRead(p: Pool)
    requires forall id :: id in p.jobs ==> id < p.started
    ensures var r := Step(Step(p, Load(Touch)), Load(Save(1)));
            && r.jobs == p.jobs[p.started := Snapshot(p, Touch, [])][p.started + 1 := Snapshot(p, Save(1), [p.drawn])]
            && r.jobs - {p.started + 1} == p.jobs[p.started := Snapshot(p, Touch, [])]
            && r == p.(jobs := r.jobs, started := p.started + 2, drawn := p.drawn + 1)
  {
    assert NewKeys(p.drawn, 1) == [p.drawn] && NewKeys(p.drawn, 0) == [];
  }

  /** A key is drawn, stored and on its way to the server; a writer that read the document before is still at work. */
  lemma ToppedUp(p: Pool)
    requires PoolOk(p)
    ensures var q := StepAll(p, [Load(Touch), Load(Save(1)), Store(p.started + 1), Publish(|p.memory|)]);
            && q.jobs == p.jobs[p.started := Snapshot(p, Touch, [])]
            && q.requests == p.requests + [Batch([p.drawn], false)]
            && q.table == p.table && q.inserts == p.inserts && q.taken == p.taken && p.drawn in q.secrets
  {
    FourSteps(p, Load(Touch), Load(Save(1)), Store(p.started + 1), Publish(|p.memory|));
    BothRead(p);
    var s := StoreDoc(Step(Step(p, Load(Touch)), Load(Save(1))), p.started + 1);
    assert s.memory == p.memory + [Batch([p.drawn], false)];
    assert s.memory[|p.memory|] == Batch([p.drawn], false);
  }

  /**
   From any state with room on the server: a writer reads the document, the pool is topped up and
   the key published and inserted, and the writer is stored. The key is on the server; its secret is gone.
   */
  lemma TopUpLost(p: Pool)
    requires PoolOk(p) && |p.table| < MAX_STORED
    ensures var evs := [Load(Touch), Load(Save(1)), Store(p.started + 1), Publish(|p.memory|)]
                       + [Arrive(|p.requests|), NewWindow, Insert(|p.inserts|), Store(p.started)];
            var q := StepAll(p, evs);
            q.table == p.table + [p.drawn] && p.drawn !in q.secrets && p.drawn !in q.taken
  {
    ToppedUp(p);
    var first := [Load(Touch), Load(Save(1)), Store(p.started + 1), Publish(|p.memory|)];
    var last := [Arrive(|p.requests|), NewWindow, Insert(|p.inserts|), Store(p.started)];
    StepAllAppend(p, first, last);
    var q := StepAll(p, first);
    FourSteps(q, Arrive(|p.requests|), NewWindow, Insert(|p.inserts|), Store(p.started));
    assert Count(q, |p.requests|).inserts == p.inserts + [Batch([p.drawn], false)];
    assert forall x :: x in p.taken ==> x in multiset(p.handed) && x in Everywhere(p);
  }

  /**
   The mirror: a writer reads the document, a handshake uses a key up, and the writer is stored. The
   used secret is back.
   */
  lemma UsedSecretReturns(p: Pool, key: nat)
    requires key in p.handed && key in p.secrets
    ensures var q := StepAll(p, [Load(Touch), Load(Take(key)), Store(p.started + 1), Store(p.started)]);
            key in q.taken && key in q.secrets
  {
    FourSteps(p, Load(Touch), Load(Take(key)), Store(p.started + 1), Store(p.started));
  }

  /** Both can happen: a new identity's pool, and the pool after its first key was handed out. */
  lemma FirstHandedOut()
    ensures PoolOk(Created()) && |Created().table| < MAX_STORED
    ensures var p := StepAll(Created(), [Publish(0), Arrive(0), Insert(0), Claim("b")]);
            p.handed == [0] && 0 in p.secrets
  {
    CreatedOk();
    FourSteps(Created(), Publish(0), Arrive(0), Insert(0), Claim("b"));
    assert NewKeys(0, INITIAL_BATCH)[0] == 0;
  }

  // ---- the stored ceiling ----

  ghost predicate OnlyTopUps(p: Pool) {
    && (forall b :: b in p.memory ==> !b.withIdentity)
    && (forall b :: b in p.requests ==> !b.withIdentity)
  }

  /** One request at a time: the rows are counted only when nothing counted is still to be inserted. */
  predicate OneAtATime(p: Pool, ev: Event) {
    ev.Arrive? ==> p.inserts == []
  }

  ghost predicate OneAtATimeAll(p: Pool, evs: seq<Event>)
    decreases |evs|
  {
    evs == [] || (OneAtATime(p, evs[0]) && OneAtATimeAll(Step(p, evs[0]), evs[1..]))
  }

  ghost predicate WithinCeiling(p: Pool) {
    && |p.inserts| <= 1
    && |p.table| + (if p.inserts == [] then 0 else |p.inserts[0].keys|) <= MAX_STORED
  }

  lemma CeilingStep(p: Pool, ev: Event)
    requires OnlyTopUps(p) && WithinCeiling(p) && OneAtATime(p, ev)
    ensures OnlyTopUps(Step(p, ev)) && WithinCeiling(Step(p, ev))
  {
    if ev.Arrive? && ev.request < |p.requests| {
      AcceptedWithin(p.table, p.requests[ev.request]);
    }
  }

  /** After the first batch, requests handled one at a time never lift the pool above its ceiling. */
  lemma {:induction false} CeilingHolds(p: Pool, evs: seq<Event>)
    requires OnlyTopUps(p) && WithinCeiling(p) && OneAtATimeAll(p, evs)
    ensures |StepAll(p, evs).table| <= MAX_STORED
    decreases |evs|
  {
    if evs != [] {
      CeilingStep(p, evs[0]);
      CeilingHolds(Step(p, evs[0]), evs[1..]);
    }
  }

  /** Two requests counted before either is inserted: both get the whole room. */
  lemma CeilingOvershot(p: Pool, a: Batch, b: Batch)
    requires p.requests == [a, b] && p.inserts == [] && !a.withIdentity && !b.withIdentity
    requires |p.table| + |a.keys| <= MAX_STORED && |p.table| + |b.keys| <= MAX_STORED
    ensures StepAll(p, [Arrive(0), Arrive(0), Insert(0), Insert(0)]).table == p.table + a.keys + b.keys
  {
    FourSteps(p, Arrive(0), Arrive(0), Insert(0), Insert(0));
  }

  // ---- who is given a key ----

  /** The requester asked before event `i`, and the window has not changed since. */
  ghost predicate AskedInWindow(evs: seq<Event>, i: nat, requester: string) {
    exists j: nat :: j < i <= |evs| && evs[j] == Claim(requester) && forall k :: j < k < i ==> evs[k] != NewWindow
  }

  lemma {:induction false} CountsWindow(evs: seq<Event>, i: nat, requester: string)
    requires i <= |evs|
    ensures ClaimsBy(StepAll(Created(), evs[..i]), requester) > 0 <==> AskedInWindow(evs, i, requester)
  {
    if i == 0 {
      assert evs[..0] == [];
    } else {
      CountsWindow(evs, i - 1, requester);
      var p := StepAll(Created(), evs[..i - 1]);
      StepAllAppend(Created(), evs[..i - 1], [evs[i - 1]]);
      OneStep(p, evs[i - 1]);
      assert evs[..i] == evs[..i - 1] + [evs[i - 1]];
      WindowStep(evs, i - 1, requester);
    }
  }

  lemma WindowStep(evs: seq<Event>, i: nat, requester: string)
    requires i < |evs|
    ensures AskedInWindow(evs, i + 1, requester)
       <==> evs[i] == Claim(requester) || (evs[i] != NewWindow && AskedInWindow(evs, i, requester))
  {
    if evs[i] == Claim(requester) {
      assert AskedInWindow(evs, i + 1, requester);
    }
    if j: nat :| j < i && evs[j] == Claim(requester) && forall k :: j < k < i ==> evs[k] != NewWindow {
      assert evs[i] != NewWindow ==> AskedInWindow(evs, i + 1, requester);
    }
  }

  /**
   Over every run: a request is given the key that is on the server longest, and that key leaves the
   server with it, if and only if there is one and the requester has not asked before in this
   window; otherwise the keys stay as they are.
   */
  lemma GivenExactly(evs: seq<Event>, i: nat, requester: string)
    requires i < |evs| && evs[i] == Claim(requester)
    ensures var p := StepAll(Created(), evs[..i]);
            var (given, p') := ClaimKey(p, requester);
            && StepAll(Created(), evs[..i + 1]) == p'
            && p' == p.(table := p'.table, handed := p'.handed, claims := p'.claims)
            && if p.table != [] && !AskedInWindow(evs, i, requester)
               then given == Some(p.table[0]) && p'.table == p.table[1..] && p'.handed == p.handed + [p.table[0]]
               else given.None? && p'.table == p.table && p'.handed == p.handed
  {
    CountsWindow(evs, i, requester);
    StepAllAppend(Created(), evs[..i], [evs[i]]);
    OneStep(StepAll(Created(), evs[..i]), evs[i]);
    assert evs[..i + 1] == evs[..i] + [evs[i]];
  }
}
