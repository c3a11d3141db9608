/**
 Chains of promises. The client's chain of session operations and the mailbox's chain of sends
 are built by two different uses of `then`; the runtime below runs either.
 */
module OpChain {
  import opened Crypto

  datatype Outcome = Fulfilled | Rejected(error: nat)

  /** What a reaction does: start a task and follow it, fulfil at once, or pass the outcome on. */
  datatype Handler = Run(task: nat) | Noop | PassOn

  datatype Promise = Given(outcome: Outcome) | Then(parent: nat, onFulfilled: Handler, onRejected: Handler)

  datatype Status = Waiting | Running | Settled(outcome: Outcome)

  datatype Entry = Started(task: nat) | Finished(task: nat, outcome: Outcome)

  // ---- building a chain ----

  /** The client's chain after `n` calls: each call makes the result and a tail that never rejects. */
  function ClientPromises(n: nat): (r: seq<Promise>)
    ensures |r| == 2 * n + 1
    ensures r[0] == Given(Fulfilled)
    ensures forall i :: 0 < i < |r| ==>
              var task := if i % 2 == 1 then Run(i / 2) else Noop;
              r[i] == Then(i - 1, task, task)
  {
    if n == 0 then [Given(Fulfilled)]
    else ClientPromises(n - 1) + [Then(2 * n - 2, Run(n - 1), Run(n - 1)), Then(2 * n - 1, Noop, Noop)]
  }

  /** The mailbox's chain after `n` calls: no handler for a rejection. */
  function MailboxPromises(n: nat): (r: seq<Promise>)
    ensures |r| == n + 1
    ensures r[0] == Given(Fulfilled)
    ensures forall i :: 0 < i < |r| ==> r[i] == Then(i - 1, Run(i - 1), PassOn)
  {
    if n == 0 then [Given(Fulfilled)] else MailboxPromises(n - 1) + [Then(n - 1, Run(n - 1), PassOn)]
  }

  class SessionOpChain {
    var promises: seq<Promise>
    var tail: nat
    ghost var calls: nat

    ghost predicate Valid()
      reads this
    {
      promises == ClientPromises(calls) && tail == 2 * calls
    }

    constructor ()
      ensures Valid() && calls == 0
    {
      promises, tail, calls := [Given(Fulfilled)], 0, 0;
    }

    /**
     Run the operation however the previous one settled; hand back its own promise; hide its rejection
     from the tail.
     */
    method Enqueue(task: nat) returns (result: nat)
      requires Valid() && task == calls
      modifies this
      ensures Valid() && calls == old(calls) + 1 && result == 2 * task + 1
      ensures promises[result] == Then(old(tail), Run(task), Run(task))
    {
      result := |promises|;
      promises := promises + [Then(tail, Run(task), Run(task))];
      promises := promises + [Then(result, Noop, Noop)];
      tail := result + 1;
      calls := calls + 1;
      assert promises == ClientPromises(calls);
    }
  }

  class SendChain {
    var promises: seq<Promise>
    var tail: nat
    ghost var calls: nat

    ghost predicate Valid()
      reads this
    {
      promises == MailboxPromises(calls) && tail == calls
    }

    constructor ()
      ensures Valid() && calls == 0
    {
      promises, tail, calls := [Given(Fulfilled)], 0, 0;
    }

    method Chain(task: nat)
      requires Valid() && task == calls
      modifies this
      ensures Valid() && calls == old(calls) + 1
    {
      promises := promises + [Then(tail, Run(task), PassOn)];
      tail := |promises| - 1;
      calls := calls + 1;
      assert promises == MailboxPromises(calls);
    }
  }

  // ---- running it ----

  datatype Machine = Machine(promises: seq<Promise>, status: seq<Status>, log: seq<Entry>)

  datatype Event = Extend | React(promise: nat) | Complete(promise: nat, outcome: Outcome)

  function TaskOf(p: Promise): Option<nat> {
    if p.Then? && p.onFulfilled.Run? then Some(p.onFulfilled.task) else None
  }

  /** A reaction is due when its parent has settled. */
  predicate Due(m: Machine, i: nat) {
    && i < |m.promises| == |m.status|
    && m.status[i].Waiting? && m.promises[i].Then? && m.promises[i].parent < |m.status|
    && m.status[m.promises[i].parent].Settled?
  }

  function ReactTo(m: Machine, i: nat): Machine
    requires Due(m, i)
  {
    var p := m.promises[i];
    var outcome := m.status[p.parent].outcome;
    match (if outcome.Fulfilled? then p.onFulfilled else p.onRejected)
    case Run(task) => m.(status := m.status[i := Running], log := m.log + [Started(task)])
    case Noop => m.(status := m.status[i := Settled(Fulfilled)])
    case PassOn => m.(status := m.status[i := Settled(outcome)])
  }

  /** `Extend` is a call that adds to the chain; the number of calls so far says which. */
  function Step(m: Machine, client: bool, ev: Event): Machine {
    match ev
    case Extend =>
      var p := if client then ClientPromises(|m.promises| / 2 + 1) else MailboxPromises(|m.promises|);
      if |p| < |m.status| then m
      else Machine(p, m.status + seq(|p| - |m.status|, _ => Waiting), m.log)
    case React(i) => if Due(m, i) then ReactTo(m, i) else m
    case Complete(i, outcome) =>
      if i < |m.promises| == |m.status| && m.status[i].Running? && TaskOf(m.promises[i]).Some? then
        m.(status := m.status[i := Settled(outcome)], log := m.log + [Finished(TaskOf(m.promises[i]).value, outcome)])
      else m
  }

  function StepAll(m: Machine, client: bool, evs: seq<Event>): Machine
    decreases |evs|
  {
    if evs == [] then m else StepAll(Step(m, client, evs[0]), client, evs[1..])
  }

  function Initial(): Machine {
    Machine([Given(Fulfilled)], [Settled(Fulfilled)], [])
  }

  // ---- the frontier ----

  /** Everything before `f` has settled, everything after it waits. */
  ghost predicate Frontier(m: Machine, f: nat) {
    && |m.promises| == |m.status| && 0 < f <= |m.status|
    && (forall i :: 0 <= i < f ==> m.status[i].Settled?)
    && (forall i :: f < i < |m.status| ==> m.status[i].Waiting?)
    && (f < |m.status| ==> !m.status[f].Settled?)
  }

  // ---- the client's chain ----

  /** The log of a sequential queue that has finished `n` tasks, each with the outcome of its promise. */
  ghost function Sequential(status: seq<Status>, n: nat): (r: seq<Entry>)
    requires 2 * n <= |status|
    ensures |r| == 2 * n
  {
    if n == 0 then []
    else
      var own := status[2 * n - 1];
      Sequential(status, n - 1) + [Started(n - 1), Finished(n - 1, if own.Settled? then own.outcome else Fulfilled)]
  }

  ghost predicate TailsFulfilled(status: seq<Status>, f: nat)
    requires f <= |status|
  {
    forall i :: 0 <= i < f && i % 2 == 0 ==> status[i] == Settled(Fulfilled)
  }

  /** The log is that of a sequential queue, as far as the frontier says. */
  ghost predicate ClientOk(m: Machine, f: nat) {
    && Frontier(m, f) && TailsFulfilled(m.status, f)
    && |m.promises| % 2 == 1 && m.promises == ClientPromises(|m.promises| / 2)
    && (f < |m.status| && m.status[f].Running? ==> f % 2 == 1)
    && m.log == Sequential(m.status, f / 2) + (if f < |m.status| && m.status[f].Running? then [Started(f / 2)] else [])
  }

  /** Only the promises before the frontier matter to the log. */
  lemma {:induction false} SequentialSame(s: seq<Status>, t: seq<Status>, n: nat)
    requires 2 * n <= |s| && 2 * n <= |t| && s[..2 * n] == t[..2 * n]
    ensures Sequential(s, n) == Sequential(t, n)
  {
    if n > 0 {
      assert s[..2 * n][..2 * n - 2] == s[..2 * n - 2] && t[..2 * n][..2 * n - 2] == t[..2 * n - 2];
      assert s[..2 * n][2 * n - 1] == t[..2 * n][2 * n - 1];
      SequentialSame(s, t, n - 1);
    }
  }

  lemma {:induction false} SequentialAt(status: seq<Status>, n: nat, i: nat)
    requires 2 * n <= |status| && i < 2 * n
    ensures if i % 2 == 0 then Sequential(status, n)[i] == Started(i / 2)
            else Sequential(status, n)[i] == Finished(i / 2,
                                                      if status[i].Settled? then status[i].outcome else Fulfilled)
  {
    if i < 2 * n - 2 {
      SequentialAt(status, n - 1, i);
    }
  }

  lemma ClientExtends(m: Machine, f: nat)
    requires ClientOk(m, f)
    ensures ClientOk(Step(m, true, Extend), f)
  {
    var n := Step(m, true, Extend);
    assert |n.promises| == |m.promises| + 2;
    assert n.promises == ClientPromises(|n.promises| / 2);
    SequentialSame(m.status, n.status, f / 2);
  }

  /** A task starts, whatever its predecessor's outcome. */
  lemma ClientStarts(m: Machine, f: nat)
    requires ClientOk(m, f) && Due(m, f) && f % 2 == 1
    ensures ClientOk(ReactTo(m, f), f)
  {
    SequentialSame(m.status, ReactTo(m, f).status, f / 2);
  }

  /** A tail fulfils, whatever the task's outcome. */
  lemma ClientTailFulfils(m: Machine, f: nat)
    requires ClientOk(m, f) && Due(m, f) && f % 2 == 0
    ensures ClientOk(ReactTo(m, f), f + 1)
  {
    SequentialSame(m.status, ReactTo(m, f).status, f / 2);
  }

  lemma ClientCompletes(m: Machine, f: nat, outcome: Outcome)
    requires ClientOk(m, f) && f < |m.status| && m.status[f].Running?
    ensures TaskOf(m.promises[f]) == Some(f / 2)
    ensures ClientOk(Step(m, true, Complete(f, outcome)), f + 1)
  {
    SequentialSame(m.status, Step(m, true, Complete(f, outcome)).status, f / 2);
  }

  /** Only the frontier can move. */
  lemma OnlyFrontierMoves(m: Machine, f: nat, i: nat)
    requires Frontier(m, f)
    requires forall j :: 0 < j < |m.promises| ==> m.promises[j].Then? && m.promises[j].parent == j - 1
    requires Due(m, i) || (i < |m.status| && m.status[i].Running?)
    ensures i == f
  {
  }

  lemma ClientStep(m: Machine, ev: Event, f: nat) returns (f': nat)
    requires ClientOk(m, f)
    ensures ClientOk(Step(m, true, ev), f') && f <= f'
  {
    f' := f;
    match ev
    case Extend => ClientExtends(m, f);
    case React(i) =>
      if Due(m, i) {
        OnlyFrontierMoves(m, f, i);
        if f % 2 == 1 {
          ClientStarts(m, f);
        } else {
          ClientTailFulfils(m, f);
          f' := f + 1;
        }
      }
    case Complete(i, outcome) =>
      if i < |m.status| && m.status[i].Running? {
        OnlyFrontierMoves(m, f, i);
        ClientCompletes(m, f, outcome);
        f' := f + 1;
      }
  }

  lemma {:induction false} ClientRun(m: Machine, evs: seq<Event>, f: nat) returns (f': nat)
    requires ClientOk(m, f)
    ensures ClientOk(StepAll(m, true, evs), f') && f <= f'
    decreases |evs|
  {
    if evs == [] {
      f' := f;
    } else {
      var f1 := ClientStep(m, evs[0], f);
      f' := ClientRun(Step(m, true, evs[0]), evs[1..], f1);
    }
  }

  /** What stands at each place of the log. */
  lemma LogAt(m: Machine, f: nat, i: nat)
    requires ClientOk(m, f) && i < |m.log|
    ensures if i % 2 == 0 then m.log[i] == Started(i / 2) else i < f && m.log[i] == Finished(i / 2, m.status[i].outcome)
  {
    if i < 2 * (f / 2) {
      SequentialAt(m.status, f / 2, i);
    }
  }

  lemma OwnOutcome(m: Machine, f: nat, k: nat, o: Outcome)
    requires ClientOk(m, f) && 2 * k + 1 < |m.status|
    ensures m.status[2 * k + 1] == Settled(o) <==> Finished(k, o) in m.log
  {
    var i := 2 * k + 1;
    if m.status[i] == Settled(o) {
      LogAt(m, f, i);
      assert m.log[i] == Finished(k, o);
    }
    if Finished(k, o) in m.log {
      var j :| 0 <= j < |m.log| && m.log[j] == Finished(k, o);
      LogAt(m, f, j);
    }
  }

  /**
   A sequential queue. In every run the tasks start in the order they were enqueued, each only
   after the one before it finished, whatever its outcome; and a caller's promise settles with
   the outcome of its own task.
   */
  lemma OneAfterTheOther(evs: seq<Event>)
    ensures var m := StepAll(Initial(), true, evs);
            && (forall i: nat :: i < |m.log| ==>
                  if i % 2 == 0 then m.log[i] == Started(i / 2) else m.log[i].Finished? && m.log[i].task == i / 2)
            && (forall k: nat, o :: 2 * k + 1 < |m.status| ==>
                  (m.status[2 * k + 1] == Settled(o) <==> Finished(k, o) in m.log))
  {
    var f := ClientRun(Initial(), evs, 1);
    var m := StepAll(Initial(), true, evs);
    forall i: nat | i < |m.log|
      ensures if i % 2 == 0 then m.log[i] == Started(i / 2) else m.log[i].Finished? && m.log[i].task == i / 2
    {
      LogAt(m, f, i);
    }
    forall k: nat, o | 2 * k + 1 < |m.status| ensures m.status[2 * k + 1] == Settled(o) <==> Finished(k, o) in m.log {
      OwnOutcome(m, f, k, o);
    }
  }

  /** Nothing is skipped: while a task is unfinished, one is running or a reaction is due. */
  lemma AlwaysMovesOn(evs: seq<Event>)
    ensures var m := StepAll(Initial(), true, evs);
            (forall i :: 0 <= i < |m.status| ==> m.status[i].Settled?)
            || exists i: nat :: i < |m.status| && (m.status[i].Running? || Due(m, i))
  {
    var f := ClientRun(Initial(), evs, 1);
    var m := StepAll(Initial(), true, evs);
    if f < |m.status| {
      assert m.promises[f].parent == f - 1;
      assert m.status[f].Running? || Due(m, f);
    }
  }

  // ---- the mailbox's chain ----

  /** Task `k` was started: its predecessor fulfilled and its own promise left the waiting state. */
  predicate Began(status: seq<Status>, k: nat) {
    k + 1 < |status| && status[k] == Settled(Fulfilled) && !status[k + 1].Waiting?
  }

  /** A rejection is all that follows a rejection. */
  ghost predicate Poisoned(status: seq<Status>, f: nat)
    requires f <= |status|
  {
    forall i, j :: 0 <= i <= j < f && status[i].Settled? && status[i].outcome.Rejected? ==> status[j] == status[i]
  }

  ghost predicate MailboxOk(m: Machine, f: nat) {
    && Frontier(m, f) && Poisoned(m.status, f)
    && m.promises == MailboxPromises(|m.promises| - 1)
    && (f < |m.status| && m.status[f].Running? ==> m.status[f - 1] == Settled(Fulfilled))
    && (forall k: nat :: Started(k) in m.log <==> Began(m.status, k))
  }

  lemma MailboxExtends(m: Machine, f: nat)
    requires MailboxOk(m, f)
    ensures MailboxOk(Step(m, false, Extend), f)
  {
  }

  lemma MailboxReacts(m: Machine, f: nat)
    requires MailboxOk(m, f) && Due(m, f)
    ensures MailboxOk(ReactTo(m, f), if m.status[f - 1].outcome.Rejected? then f + 1 else f)
  {
  }

  lemma MailboxCompletes(m: Machine, f: nat, outcome: Outcome)
    requires MailboxOk(m, f) && f < |m.status| && m.status[f].Running?
    ensures MailboxOk(Step(m, false, Complete(f, outcome)), f + 1)
  {
  }

  lemma MailboxStep(m: Machine, ev: Event, f: nat) returns (f': nat)
    requires MailboxOk(m, f)
    ensures MailboxOk(Step(m, false, ev), f') && f <= f'
    ensures forall i :: 0 <= i < f ==> Step(m, false, ev).status[i] == m.status[i]
  {
    f' := f;
    match ev
    case Extend => MailboxExtends(m, f);
    case React(i) =>
      if Due(m, i) {
        OnlyFrontierMoves(m, f, i);
        MailboxReacts(m, f);
        f' := if m.status[f - 1].outcome.Rejected? then f + 1 else f;
      }
    case Complete(i, outcome) =>
      if i < |m.status| && m.status[i].Running? {
        OnlyFrontierMoves(m, f, i);
        MailboxCompletes(m, f, outcome);
        f' := f + 1;
      }
  }

  lemma {:induction false} MailboxRun(m: Machine, evs: seq<Event>, f: nat) returns (f': nat)
    requires MailboxOk(m, f)
    ensures MailboxOk(StepAll(m, false, evs), f') && f <= f'
    ensures forall i :: 0 <= i < f ==> StepAll(m, false, evs).status[i] == m.status[i]
    decreases |evs|
  {
    if evs == [] {
      f' := f;
    } else {
      var f1 := MailboxStep(m, evs[0], f);
      f' := MailboxRun(Step(m, false, evs[0]), evs[1..], f1);
    }
  }

  /**
   One throwing delivery stops every later one, as long as the object stays in memory: once the
   promise of a send has rejected, no send chained after it ever starts, in any continuation of
   the run, and their promises can only reject with the same error.
   */
  lemma OneRejectionStopsTheRest(evs: seq<Event>, more: seq<Event>, j: nat, k: nat)
    requires var m := StepAll(Initial(), false, evs);
             j < |m.status| && m.status[j].Settled? && m.status[j].outcome.Rejected? && j <= k
    ensures var m := StepAll(Initial(), false, evs);
            var later := StepAll(m, false, more);
            && Started(k) !in later.log
            && (k < |later.status| && later.status[k].Settled? ==> later.status[k] == m.status[j])
  {
    var m := StepAll(Initial(), false, evs);
    var f := MailboxRun(Initial(), evs, 1);
    var f' := MailboxRun(m, more, f);
    var later := StepAll(m, false, more);
    assert j < f;
    assert later.status[j] == m.status[j];
    if k < |later.status| && later.status[k].Settled? {
      assert k < f';
    }
  }

  /** And exactly then: a send that started had every send before it succeed. */
  lemma StartedOnlyAfterSuccess(evs: seq<Event>, k: nat, j: nat)
    requires Started(k) in StepAll(Initial(), false, evs).log && j <= k
    ensures var m := StepAll(Initial(), false, evs);
            k < |m.status| && m.status[j] == Settled(Fulfilled)
  {
    var m := StepAll(Initial(), false, evs);
    var f := MailboxRun(Initial(), evs, 1);
    assert Began(m.status, k);
    assert k < f;
  }
}
