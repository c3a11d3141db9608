/**
 One-time prekeys within one identity's lifetime: secrets in the device's document, public halves
 on the server, each handed out once. Every write of the document reads it first and writes the
 whole of it back later, and nothing keeps other writers out in between. The client may crash at
 any point, and requests may be lost, late or handled side by side.
 */
module Prekeys {
  import opened Crypto

  const INITIAL_BATCH: nat := 20
  const LOW_WATER_MARK: nat := 8
  const TARGET_POOL: nat := 20
  const MAX_BATCH: nat := 200
  const MAX_STORED: nat := 100
  const CLAIM_LIMIT: nat := 1
  const RECHECK_AFTER: int := 30 * 60 * 1000

  /** Public keys on their way; only the first batch, sent with the identity, is not clamped to the stored ceiling. */
  datatype Batch = Batch(keys: seq<nat>, withIdentity: bool)

  /** What a writer wants of the document: new prekeys, one prekey, or anything else (contacts, timers, tokens). */
  datatype Task = Save(count: int) | Take(key: nat) | Touch

  /**
   A writer between its load and its store. `seen` are the prekeys it read, `made` the ones it
   drew; `savedThen` and `takenThen` are what had been saved and taken when it read.
   */
  datatype Job = Job(task: Task, made: seq<nat>, seen: set<nat>, savedThen: set<nat>, takenThen: set<nat>)

  /**
   `secrets` are the prekeys in the device's document, `saved` and `taken` every key ever stored in
   it and used up, `jobs` the writers at work and `started` how many there ever were; `memory` is
   what the running client is about to publish, `requests` what is on its way, `inserts` what the
   server has counted and not yet inserted, `table` its rows in order of insertion, `handed` what
   was given out, `claims` the requesters' counts in the current window, and `drawn` how many key
   pairs were ever made.
   */
  datatype Pool = Pool(
    secrets: set<nat>,
    saved: set<nat>,
    taken: set<nat>,
    jobs: map<nat, Job>,
    started: nat,
    memory: seq<Batch>,
    requests: seq<Batch>,
    inserts: seq<Batch>,
    table: seq<nat>,
    handed: seq<nat>,
    claims: map<string, nat>,
    drawn: nat)

  datatype Event =
    | Load(task: Task)
    | Store(job: nat)
    | Publish(batch: nat)
    | Crash
    | Arrive(request: nat)
    | Insert(counted: nat)
    | Lose(request: nat)
    | Claim(requester: string)
    | NewWindow

  function NewKeys(from: nat, count: int): (r: seq<nat>)
    ensures |r| == if count > 0 then count else 0
    ensures forall k :: 0 <= k < |r| ==> r[k] == from + k
  {
    seq(if count > 0 then count else 0, k requires k >= 0 => from + k)
  }

  function Elements(s: seq<nat>): set<nat> {
    set x | x in s
  }

  // ---- the document ----

  /** Saving none, and taking a key that is not there, end without a write. */
  predicate Writes(p: Pool, task: Task) {
    match task
    case Save(count) => count > 0
    case Take(key) => key in p.secrets
    case Touch => true
  }

  function LoadDoc(p: Pool, task: Task): Pool {
    if !Writes(p, task) then p
    else
      var count := if task.Save? then task.count else 0;
      p.(jobs := p.jobs[p.started := Job(task, NewKeys(p.drawn, count), p.secrets, p.saved, p.taken)],
         started := p.started + 1, drawn := p.drawn + count)
  }

  /** The key a writer uses up. */
  function Own(j: Job): set<nat> {
    if j.task.Take? then {j.task.key} else {}
  }

  /** The prekeys a writer puts back: what it read, with its own change. */
  function Written(j: Job): set<nat> {
    j.seen + Elements(j.made) - Own(j)
  }

  /** Only after its secrets are stored may a batch be published. */
  function StoreDoc(p: Pool, id: nat): Pool {
    if id !in p.jobs then p
    else
      var j := p.jobs[id];
      p.(secrets := Written(j), saved := p.saved + Elements(j.made), taken := p.taken + Own(j), jobs := p.jobs - {id},
         memory := if j.task.Save? then p.memory + [Batch(j.made, false)] else p.memory)
  }

  // ---- the server ----

  /** Too large a batch is refused; a top-up is cut to the room there is when the rows are counted. */
  function Accepted(table: seq<nat>, b: Batch): seq<nat> {
    if |b.keys| > MAX_BATCH then []
    else if b.withIdentity then b.keys
    else
      var room := if |table| < MAX_STORED then MAX_STORED - |table| else 0;
      if |b.keys| <= room then b.keys else b.keys[..room]
  }

  function Count(p: Pool, k: nat): Pool {
    if k >= |p.requests| then p
    else
      p.(requests := RemoveAt(p.requests, k),
         inserts := p.inserts + [Batch(Accepted(p.table, p.requests[k]), p.requests[k].withIdentity)])
  }

  function InsertRows(p: Pool, k: nat): Pool {
    if k >= |p.inserts| then p else p.(table := p.table + p.inserts[k].keys, inserts := RemoveAt(p.inserts, k))
  }

  function ClaimsBy(p: Pool, requester: string): nat {
    if requester in p.claims then p.claims[requester] else 0
  }

  /** The first row goes to a requester who has not claimed from this user in this window; otherwise none. */
  function ClaimKey(p: Pool, requester: string): (Option<nat>, Pool) {
    var n := ClaimsBy(p, requester) + 1;
    var counted := p.(claims := p.claims[requester := n]);
    if n > CLAIM_LIMIT || p.table == [] then (None, counted)
    else (Some(p.table[0]), counted.(table := p.table[1..], handed := p.handed + [p.table[0]]))
  }

  // ---- runs ----

  function PublishBatch(p: Pool, k: nat): Pool {
    if k >= |p.memory| then p
    else p.(memory := RemoveAt(p.memory, k), requests := p.requests + [p.memory[k]])
  }

  function LoseRequest(p: Pool, k: nat): Pool {
    if k >= |p.requests| then p else p.(requests := RemoveAt(p.requests, k))
  }

  /** Whatever was on its way to the document or to the server from memory is gone. */
  function Restart(p: Pool): Pool {
    p.(memory := [], jobs := map[])
  }

  function Step(p: Pool, ev: Event): Pool {
    match ev
    case Load(task) => LoadDoc(p, task)
    case Store(id) => StoreDoc(p, id)
    case Publish(k) => PublishBatch(p, k)
    case Crash => Restart(p)
    case Arrive(k) => Count(p, k)
    case Insert(k) => InsertRows(p, k)
    case Lose(k) => LoseRequest(p, k)
    case Claim(requester) => ClaimKey(p, requester).1
    case NewWindow => p.(claims := map[])
  }

  function StepAll(p: Pool, evs: seq<Event>): Pool
    decreases |evs|
  {
    if evs == [] then p else StepAll(Step(p, evs[0]), evs[1..])
  }

  lemma {:induction false} StepAllAppend(p: Pool, a: seq<Event>, b: seq<Event>)
    ensures StepAll(p, a + b) == StepAll(StepAll(p, a), b)
    decreases |a|
  {
    if a == [] {
      assert a + b == b;
    } else {
      assert (a + b)[1..] == a[1..] + b;
      StepAllAppend(Step(p, a[0]), a[1..], b);
    }
  }

  lemma OneStep(p: Pool, ev: Event)
    ensures StepAll(p, [ev]) == Step(p, ev)
  {
    assert [ev][1..] == [];
  }

  lemma FirstAndLast(p: Pool, first: Event, others: seq<Event>, last: Event)
    ensures StepAll(p, [first] + others + [last]) == Step(StepAll(Step(p, first), others), last)
  {
    StepAllAppend(p, [first] + others, [last]);
    StepAllAppend(p, [first], others);
    OneStep(p, first);
    OneStep(StepAll(Step(p, first), others), last);
  }

  /** A new identity: twenty secrets saved, their public halves about to be published with it. */
  function Created(): Pool {
    var keys := NewKeys(0, INITIAL_BATCH);
    Pool(Elements(keys), Elements(keys), {}, map[], 0, [Batch(keys, true)], [], [], [], [], map[], INITIAL_BATCH)
  }

  // ---- the device and the server's handler ----

  /** How a replenishment goes: the count may not be read, the client may stop after saving, the request may be lost. */
  datatype Fate = NoCount | StopsAfterSave | RequestLost | Done

  /** What may happen while a writer waits: anything but its own store and the end of the client. */
  predicate Meanwhile(others: seq<Event>, id: nat) {
    Crash !in others && Store(id) !in others
  }

  lemma {:induction false} StillOpen(p: Pool, others: seq<Event>, id: nat)
    requires id in p.jobs && id < p.started && Meanwhile(others, id)
    ensures var q := StepAll(p, others);
            id in q.jobs && q.jobs[id] == p.jobs[id]
    decreases |others|
  {
    if others != [] {
      assert others[0] in others;
      StillOpen(Step(p, others[0]), others[1..], id);
    }
  }

  /** The events of one read-modify-write with `others` in between. */
  function Writing(p: Pool, task: Task, others: seq<Event>): seq<Event> {
    if Writes(p, task) then [Load(task)] + others + [Store(p.started)] else [Load(task)]
  }

  lemma WritingRuns(p: Pool, task: Task, others: seq<Event>)
    ensures StepAll(p, Writing(p, task, others)) ==
            if Writes(p, task) then StoreDoc(StepAll(LoadDoc(p, task), others), p.started) else p
  {
    if Writes(p, task) {
      FirstAndLast(p, Load(task), others, Store(p.started));
    } else {
      OneStep(p, Load(task));
    }
  }

  class Device {
    var pool: Pool
    var lastCheckedAt: int
    var inFlight: bool

    constructor ()
      ensures pool == Created() && lastCheckedAt == 0 && !inFlight
    {
      pool, lastCheckedAt, inFlight := Created(), 0, false;
    }

    /** An await: whatever else is running goes on. */
    method Await(others: seq<Event>)
      modifies `pool
      ensures pool == StepAll(old(pool), others)
    {
      assert others[..0] == [];
      for k := 0 to |others|
        invariant pool == StepAll(old(pool), others[..k])
      {
        StepAllAppend(old(pool), others[..k], [others[k]]);
        assert others[..k + 1] == others[..k] + [others[k]];
        OneStep(pool, others[k]);
        pool := Step(pool, others[k]);
      }
      assert others[..|others|] == others;
    }

    method AddOneTimePreKeys(count: int, others: seq<Event>) returns (keys: seq<nat>)
      requires Meanwhile(others, pool.started)
      modifies `pool
      ensures pool == StepAll(old(pool), Writing(old(pool), Save(count), others))
      ensures keys == NewKeys(old(pool).drawn, count)
      ensures count > 0 ==> Elements(keys) <= pool.secrets && Elements(keys) <= pool.saved
    {
      WritingRuns(pool, Save(count), others);
      if count <= 0 {
        return [];
      }
      var id, doc := pool.started, pool.secrets;
      keys := NewKeys(pool.drawn, count);
      pool := LoadDoc(pool, Save(count));
      ghost var loaded := pool;
      for k := 0 to |keys|
        invariant doc == loaded.secrets + Elements(keys[..k]) && pool == loaded
      {
        doc := doc + {keys[k]};
        assert keys[..k + 1] == keys[..k] + [keys[k]];
      }
      assert keys[..|keys|] == keys;
      Await(others);
      StillOpen(loaded, others, id);
      pool := pool.(secrets := doc, saved := pool.saved + Elements(keys), jobs := pool.jobs - {id},
                    memory := pool.memory + [Batch(keys, false)]);
    }

    method TakeOneTimePreKeySecret(key: nat, others: seq<Event>) returns (secret: Option<nat>)
      requires Meanwhile(others, pool.started)
      modifies `pool
      ensures pool == StepAll(old(pool), Writing(old(pool), Take(key), others))
      ensures secret == if key in old(pool).secrets then Some(key) else None
    {
      WritingRuns(pool, Take(key), others);
      if key !in pool.secrets {
        return None;
      }
      var id, doc := pool.started, pool.secrets;
      pool := LoadDoc(pool, Take(key));
      ghost var loaded := pool;
      doc := doc - {key};
      Await(others);
      StillOpen(loaded, others, id);
      pool := pool.(secrets := doc, taken := pool.taken + {key}, jobs := pool.jobs - {id});
      secret := Some(key);
    }

    /** The server's half: count, clamp, and insert in a second statement. */
    method HandleAddOneTimePreKeys(request: nat, others: seq<Event>) returns (accepted: nat)
      requires request < |pool.requests| && Waits(|pool.inserts|, others)
      modifies `pool
      ensures pool == StepAll(old(pool), Handling(old(pool), request, others))
      ensures accepted == |Accepted(old(pool).table, old(pool).requests[request])|
    {
      HandlingRuns(pool, request, others);
      var b, slot := pool.requests[request], |pool.inserts|;
      var rows: seq<nat> := [];
      if |b.keys| <= MAX_BATCH {
        var existing := |pool.table|;
        var room := if b.withIdentity then |b.keys| else if existing < MAX_STORED then MAX_STORED - existing else 0;
        rows := if |b.keys| <= room then b.keys else b.keys[..room];
      }
      pool := Count(pool, request);
      ghost var counted := pool;
      Await(others);
      SlotHolds(counted, others, slot);
      slot := Slot(slot, others);
      pool := pool.(table := pool.table + rows, inserts := RemoveAt(pool.inserts, slot));
      accepted := |rows|;
    }

    /** The last batch saved is sent off, unless the client stops first. */
    method PublishTopUp(fate: Fate)
      requires pool.memory != []
      modifies `pool
      ensures pool == StepAll(old(pool), AfterSave(old(pool), fate))
    {
      AfterSaveRuns(pool, fate);
      if fate == StopsAfterSave {
        pool := Step(pool, Crash);
        return;
      }
      pool := PublishBatch(pool, |pool.memory| - 1);
      var last := |pool.requests| - 1;
      if fate == Done {
        var _ := HandleAddOneTimePreKeys(last, []);
      } else {
        pool := Step(pool, Lose(last));
      }
    }

    /** Top up when low; save before publishing; a reading that failed does not start the quiet period. */
    method ReplenishIfLow(now: int, fate: Fate, others: seq<Event>)
      requires Meanwhile(others, pool.started)
      modifies this
      ensures var skipped := old(inFlight) || now - old(lastCheckedAt) < RECHECK_AFTER;
              && pool == StepAll(old(pool), Course(old(pool), skipped, fate, others))
              && inFlight == old(inFlight)
              && lastCheckedAt == (if skipped || fate == NoCount then old(lastCheckedAt) else now)
              && (skipped || fate == NoCount || |old(pool).table| > 8 ==> pool == old(pool))
    {
      if inFlight {
        return;
      }
      if now - lastCheckedAt < RECHECK_AFTER {
        return;
      }
      inFlight := true;
      if fate != NoCount {
        var remaining := |pool.table|;
        lastCheckedAt := now;
        if remaining <= LOW_WATER_MARK {
          SavedHasBatch(pool, others);
          StepAllAppend(pool, Writing(pool, Save(TARGET_POOL - remaining), others),
                        AfterSave(SavedPool(pool, others), fate));
          var _ := AddOneTimePreKeys(TARGET_POOL - remaining, others);
          PublishTopUp(fate);
        }
      }
      inFlight := false;
    }
  }

  // ---- the server's handler among others ----

  function Shift(n: nat, ev: Event): nat {
    if ev.Insert? && ev.counted < n then n - 1 else n
  }

  /** Where the `n`-th counted batch is after `others`. */
  function Slot(n: nat, others: seq<Event>): nat
    decreases |others|
  {
    if others == [] then n else Slot(Shift(n, others[0]), others[1..])
  }

  /** None of `others` inserts the `n`-th batch. */
  predicate Waits(n: nat, others: seq<Event>)
    decreases |others|
  {
    others == [] || (others[0] != Insert(n) && Waits(Shift(n, others[0]), others[1..]))
  }

  lemma {:induction false} SlotHolds(p: Pool, others: seq<Event>, n: nat)
    requires n < |p.inserts| && Waits(n, others)
    ensures var q := StepAll(p, others);
            Slot(n, others) < |q.inserts| && q.inserts[Slot(n, others)] == p.inserts[n]
    decreases |others|
  {
    if others != [] {
      SlotHolds(Step(p, others[0]), others[1..], Shift(n, others[0]));
    }
  }

  /** The events of one request handled with `others` in between. */
  function Handling(p: Pool, request: nat, others: seq<Event>): seq<Event> {
    [Arrive(request)] + others + [Insert(Slot(|p.inserts|, others))]
  }

  lemma HandlingRuns(p: Pool, request: nat, others: seq<Event>)
    ensures StepAll(p, Handling(p, request, others)) ==
            InsertRows(StepAll(Count(p, request), others), Slot(|p.inserts|, others))
  {
    FirstAndLast(p, Arrive(request), others, Insert(Slot(|p.inserts|, others)));
  }

  // ---- replenishing ----

  /** What follows once the secrets are saved. */
  function AfterSave(p: Pool, fate: Fate): seq<Event>
    requires p.memory != []
  {
    var last := |p.requests|;
    if fate == StopsAfterSave then [Crash]
    else [Publish(|p.memory| - 1)] + (if fate == Done then [Arrive(last), Insert(|p.inserts|)] else [Lose(last)])
  }

  function SavedPool(p: Pool, others: seq<Event>): Pool {
    StepAll(p, Writing(p, Save(TARGET_POOL - |p.table|), others))
  }

  lemma SavedHasBatch(p: Pool, others: seq<Event>)
    requires |p.table| <= LOW_WATER_MARK && Meanwhile(others, p.started)
    ensures SavedPool(p, others).memory != []
  {
    WritingRuns(p, Save(TARGET_POOL - |p.table|), others);
    StillOpen(LoadDoc(p, Save(TARGET_POOL - |p.table|)), others, p.started);
  }

  /** The events of one replenishment. */
  function Course(p: Pool, skipped: bool, fate: Fate, others: seq<Event>): seq<Event>
    requires Meanwhile(others, p.started)
  {
    if skipped || fate == NoCount || |p.table| > LOW_WATER_MARK then []
    else
      SavedHasBatch(p, others);
      Writing(p, Save(TARGET_POOL - |p.table|), others) + AfterSave(SavedPool(p, others), fate)
  }

  lemma AfterSaveRuns(p: Pool, fate: Fate)
    requires p.memory != []
    ensures var sent := PublishBatch(p, |p.memory| - 1);
            StepAll(p, AfterSave(p, fate)) == (
              if fate == StopsAfterSave then Step(p, Crash)
              else if fate == Done then StepAll(sent, Handling(sent, |p.requests|, []))
              else Step(sent, Lose(|p.requests|)))
  {
    var last := |p.requests|;
    var sent := PublishBatch(p, |p.memory| - 1);
    if fate == StopsAfterSave {
      OneStep(p, Crash);
    } else if fate == Done {
      assert AfterSave(p, fate)[1..] == [Arrive(last)] + [] + [Insert(|p.inserts|)];
    } else {
      assert AfterSave(p, fate)[1..] == [Lose(last)];
      OneStep(sent, Lose(last));
    }
  }

  lemma FitsWhenLow(table: seq<nat>, b: Batch)
    requires |table| <= LOW_WATER_MARK && |b.keys| <= TARGET_POOL
    ensures Accepted(table, b) == b.keys
  {
  }

  lemma SavesMissing(p: Pool)
    requires |p.table| <= LOW_WATER_MARK
    ensures var keys := NewKeys(p.drawn, TARGET_POOL - |p.table|);
            var s := SavedPool(p, []);
            && s.secrets == p.secrets + Elements(keys) && s.memory == p.memory + [Batch(keys, false)]
            && s.table == p.table && s.handed == p.handed
  {
    WritingRuns(p, Save(TARGET_POOL - |p.table|), []);
  }

  /** The last batch saved reaches the table when its request arrives; nothing else changes there or in the document. */
  lemma SendsLast(p: Pool, fate: Fate)
    requires p.memory != []
    ensures var b := p.memory[|p.memory| - 1];
            var p' := StepAll(p, AfterSave(p, fate));
            && p'.secrets == p.secrets && p'.handed == p.handed
            && p'.table == p.table + (if fate == Done then Accepted(p.table, b) else [])
  {
    AfterSaveRuns(p, fate);
    var sent := PublishBatch(p, |p.memory| - 1);
    HandlingRuns(sent, |p.requests|, []);
  }

  lemma CourseTopsUp(p: Pool, fate: Fate)
    requires |p.table| <= LOW_WATER_MARK && fate != NoCount
    ensures SavedPool(p, []).memory != []
    ensures StepAll(p, Course(p, false, fate, [])) == StepAll(SavedPool(p, []), AfterSave(SavedPool(p, []), fate))
  {
    SavedHasBatch(p, []);
    StepAllAppend(p, Writing(p, Save(TARGET_POOL - |p.table|), []), AfterSave(SavedPool(p, []), fate));
  }

  /** In the quiet period, when the pool could not be counted, and when it is healthy, nothing happens. */
  lemma ReplenishLeavesAlone(p: Pool, skipped: bool, fate: Fate, others: seq<Event>)
    requires Meanwhile(others, p.started) && (skipped || fate == NoCount || |p.table| > 8)
    ensures StepAll(p, Course(p, skipped, fate, others)) == p
  {
  }

  /**
   Undisturbed, a low pool's missing keys are made and their secrets kept, whatever becomes of the
   request, and when that arrives the pool is filled to the target with just those keys.
   */
  lemma ReplenishFillsToTarget(p: Pool, fate: Fate)
    requires |p.table| <= 8 && fate != NoCount
    ensures var p' := StepAll(p, Course(p, false, fate, []));
            var keys := NewKeys(p.drawn, 20 - |p.table|);
            && p'.secrets == p.secrets + Elements(keys) && p'.handed == p.handed
            && p'.table == p.table + (if fate == Done then keys else [])
            && (fate == Done ==> |p'.table| == 20)
  {
    var keys := NewKeys(p.drawn, TARGET_POOL - |p.table|);
    CourseTopsUp(p, fate);
    SavesMissing(p);
    var s := SavedPool(p, []);
    assert s.memory[|s.memory| - 1] == Batch(keys, false);
    SendsLast(s, fate);
    FitsWhenLow(p.table, Batch(keys, false));
  }
}
