/**
 Changing the password across two stores that cannot be written together: the record on this
 device and the verifier on the server. Every write of the record reads it first and puts it back
 later, the server checks and updates in two statements, and nothing keeps others out in between.
 The client may crash at any point, requests and replies may be lost or late, and the record may
 be unlocked and its document saved at any time.
 */
module ChangePassword {
  import opened Crypto
  import opened IdentityRecord

  /** Sessions are good only at the user's current epoch. */
  datatype Token = Token(epoch: nat)

  /** `checkedAt` is the epoch the server read when it found the current password right. */
  datatype Request = Request(current: string, next: string, checkedAt: Option<nat>)

  /** What the client knows of the request it is waiting on. */
  datatype Reply = NoReply | Accepted(token: Token) | Refused

  /** One change at a time: the form is disabled while one is under way. */
  datatype Phase = Idle | Staging(job: nat) | Waiting(attempt: nat, reply: Reply) | Settling(job: nat)

  datatype Task<+D> =
    | StageTask(current: string, next: string, salt: nat, altSalt: nat)
    | FinalizeTask
    | RollbackTask
    | UnlockTask(password: string, unlockSalt: nat)
    | SaveTask(doc: D)

  /**
   A writer between reading the record and putting it back. `savedThen` and `rewrapsThen` are the
   document last saved and the number of changes of the wraps when it read.
   */
  datatype Job<+D> = Job(task: Task<D>, seen: Record<D>, savedThen: D, rewrapsThen: nat)

  /** The two passwords in play: those of the change staged last, or the one there was. */
  datatype Pair = Pair(previous: string, chosen: string)

  /** `requests`, by attempt, are still on their way to the server, whatever became of the client that sent them. */
  datatype State<+D> = State(
    local: Record<D>,
    server: string,
    epoch: nat,
    requests: map<nat, Request>,
    phase: Phase,
    attempts: nat,
    jobs: map<nat, Job<D>>,
    started: nat,
    saved: D,
    pair: Pair,
    rewraps: nat)

  datatype Event<+D> =
    | Read(task: Task<D>)
    | Write(job: nat)
    | ServerChecks(request: nat, limited: bool)
    | ServerWrites(request: nat)
    | RequestLost(request: nat)
    | Crash

  // ---- the record ----

  /** What a writer puts back for the record it read; nothing when there is nothing to change or it fails. */
  function Rewritten<D>(r: Record<D>, task: Task<D>): Option<Record<D>> {
    match task
    case StageTask(current, next, salt, altSalt) => (
      match Stage(r, current, next, salt, altSalt)
      case Ok(staged) => Some(staged)
      case Err(_) => None)
    case FinalizeTask => if r.V2? && r.altWrap.Some? then Some(Promote(r)) else None
    case RollbackTask => if r.V2? && r.altWrap.Some? then Some(Abort(r)) else None
    case UnlockTask(password, salt) => (
      match Open(r, password, salt)
      case Ok(o) => o.migrated
      case Err(_) => None)
    case SaveTask(doc) => Some(r.(blob := Cipher(r.blob.key, doc)))
  }

  predicate HeardYes(p: Phase) {
    p.Waiting? && p.reply.Accepted?
  }

  /** Settling goes forward on a yes, and back on any error, whatever its cause. */
  predicate MayRead<D>(p: Phase, task: Task<D>) {
    match task
    case StageTask(_, _, _, _) => p.Idle?
    case FinalizeTask => HeardYes(p)
    case RollbackTask => p.Waiting?
    case _ => true
  }

  function ReadRecord<D>(s: State<D>, task: Task<D>): State<D> {
    if !MayRead(s.phase, task) then s
    else if Rewritten(s.local, task).None? then
      if task.FinalizeTask? || task.RollbackTask? then s.(phase := Idle) else s
    else
      s.(jobs := s.jobs[s.started := Job(task, s.local, s.saved, s.rewraps)],
         started := s.started + 1,
         phase := if task.StageTask? then Staging(s.started)
                  else if task.FinalizeTask? || task.RollbackTask? then Settling(s.started)
                  else s.phase)
  }

  /** Once the staged record is stored the request is sent. */
  function WriteRecord<D>(s: State<D>, id: nat): State<D> {
    if id !in s.jobs || Rewritten(s.jobs[id].seen, s.jobs[id].task).None? then s
    else
      var put := s.(local := Rewritten(s.jobs[id].seen, s.jobs[id].task).value, jobs := s.jobs - {id});
      match s.jobs[id].task
      case StageTask(current, next, _, _) =>
        put.(requests := s.requests[s.attempts := Request(current, next, None)], phase := Waiting(s.attempts, NoReply),
             attempts := s.attempts + 1, pair := Pair(current, next), rewraps := s.rewraps + 1)
      case UnlockTask(_, _) => put.(rewraps := s.rewraps + 1)
      case SaveTask(doc) => put.(saved := doc)
      case _ => put.(phase := Idle, rewraps := s.rewraps + 1)
  }

  // ---- the server ----

  const MIN_PASSWORD_LENGTH: nat := 8
  const MAX_PASSWORD_LENGTH: nat := 1024

  /** The server takes a valid new password from somebody who knows the current one and is not rate-limited. */
  predicate Accepts(server: string, r: Request, limited: bool) {
    r.current != "" && MIN_PASSWORD_LENGTH <= |r.next| <= MAX_PASSWORD_LENGTH && !limited && server == r.current
  }

  function Answer(p: Phase, attempt: nat, reply: Reply): Phase {
    if p.Waiting? && p.attempt == attempt then Waiting(attempt, reply) else p
  }

  function Check<D>(s: State<D>, attempt: nat, limited: bool): State<D> {
    if attempt !in s.requests || s.requests[attempt].checkedAt.Some? then s
    else
      var r := s.requests[attempt];
      if Accepts(s.server, r, limited) then s.(requests := s.requests[attempt := r.(checkedAt := Some(s.epoch))])
      else s.(requests := s.requests - {attempt}, phase := Answer(s.phase, attempt, Refused))
  }

  /** The new verifier and the next epoch are stored together; the token is signed for the epoch after the one read. */
  function Update<D>(s: State<D>, attempt: nat): State<D> {
    if attempt !in s.requests || s.requests[attempt].checkedAt.None? then s
    else
      var r := s.requests[attempt];
      s.(server := r.next, epoch := s.epoch + 1, requests := s.requests - {attempt},
         phase := Answer(s.phase, attempt, Accepted(Token(r.checkedAt.value + 1))))
  }

  // ---- runs ----

  function Step<D>(s: State<D>, ev: Event<D>): State<D> {
    match ev
    case Read(task) => ReadRecord(s, task)
    case Write(id) => WriteRecord(s, id)
    case ServerChecks(attempt, limited) => Check(s, attempt, limited)
    case ServerWrites(attempt) => Update(s, attempt)
    case RequestLost(attempt) => s.(requests := s.requests - {attempt})
    case Crash => s.(phase := Idle, jobs := map[])
  }

  function StepAll<D>(s: State<D>, evs: seq<Event<D>>): State<D>
    decreases |evs|
  {
    if evs == [] then s else StepAll(Step(s, evs[0]), evs[1..])
  }

  lemma {:induction false} StepAllAppend<D>(s: State<D>, a: seq<Event<D>>, b: seq<Event<D>>)
    ensures StepAll(s, a + b) == StepAll(StepAll(s, a), b)
    decreases |a|
  {
    if a == [] {
      assert a + b == b;
    } else {
      assert (a + b)[1..] == a[1..] + b;
      StepAllAppend(Step(s, a[0]), a[1..], b);
    }
  }

  lemma OneStep<D>(s: State<D>, ev: Event<D>)
    ensures StepAll(s, [ev]) == Step(s, ev)
  {
    assert [ev][1..] == [];
  }

  lemma FirstAndLast<D>(s: State<D>, first: Event<D>, others: seq<Event<D>>, last: Event<D>)
    ensures StepAll(s, [first] + others + [last]) == Step(StepAll(Step(s, first), others), last)
  {
    StepAllAppend(s, [first] + others, [last]);
    StepAllAppend(s, [first], others);
    OneStep(s, first);
    OneStep(StepAll(Step(s, first), others), last);
  }

  // ---- the flow as the application runs it ----

  /** What may happen while a writer waits: anything but its own write and the end of the client. */
  ghost predicate Meanwhile<D>(others: seq<Event<D>>, id: nat) {
    forall ev :: ev in others ==> !ev.Crash? && ev != Write(id)
  }

  lemma {:induction false} StillOpen<D>(s: State<D>, others: seq<Event<D>>, id: nat)
    requires id in s.jobs && id < s.started && Meanwhile(others, id)
    ensures var t := StepAll(s, others);
            id in t.jobs && t.jobs[id] == s.jobs[id]
    decreases |others|
  {
    if others != [] {
      assert others[0] in others;
      StillOpen(Step(s, others[0]), others[1..], id);
    }
  }

  /** Whether a writer gets as far as a write. */
  predicate Writes<D>(s: State<D>, task: Task<D>) {
    MayRead(s.phase, task) && Rewritten(s.local, task).Some?
  }

  /** The events of one read and write with `others` in between. */
  function Writing<D>(s: State<D>, task: Task<D>, others: seq<Event<D>>): seq<Event<D>> {
    if Writes(s, task) then [Read(task)] + others + [Write(s.started)] else [Read(task)]
  }

  lemma WritingRuns<D>(s: State<D>, task: Task<D>, others: seq<Event<D>>)
    ensures StepAll(s, Writing(s, task, others)) ==
            if Writes(s, task) then WriteRecord(StepAll(ReadRecord(s, task), others), s.started)
            else ReadRecord(s, task)
  {
    if Writes(s, task) {
      FirstAndLast(s, Read(task), others, Write(s.started));
    } else {
      OneStep(s, Read(task));
    }
  }

  class Account<D> {
    var state: State<D>

    constructor (local: Record<D>, server: string)
      ensures state == Begun(local, server)
    {
      state := Begun(local, server);
    }

    /** An await: whatever else is running goes on. */
    method Await(others: seq<Event<D>>)
      modifies this
      ensures state == StepAll(old(state), others)
    {
      assert others[..0] == [];
      for k := 0 to |others|
        invariant state == StepAll(old(state), others[..k])
      {
        StepAllAppend(old(state), others[..k], [others[k]]);
        assert others[..k + 1] == others[..k] + [others[k]];
        OneStep(state, others[k]);
        state := Step(state, others[k]);
      }
      assert others[..|others|] == others;
    }

    /** Staging reads the record, derives keys, and puts the staged record back; then the request is sent. */
    method StageChangePassword(current: string, next: string, salt: nat, altSalt: nat, others: seq<Event<D>>)
      returns (r: Result<(), OpenError>)
      requires state.phase.Idle? && Meanwhile(others, state.started)
      modifies this
      ensures state == StepAll(old(state), Writing(old(state), StageTask(current, next, salt, altSalt), others))
      ensures match Stage(old(state).local, current, next, salt, altSalt)
              case Ok(staged) => r.Ok? && state.local == staged
              case Err(e) => r == Err(e) && state == old(state)
    {
      var task := StageTask(current, next, salt, altSalt);
      WritingRuns(state, task, others);
      var record, id := state.local, state.started;
      var staged := Stage(record, current, next, salt, altSalt);
      if staged.Err? {
        return Err(staged.error);
      }
      state := ReadRecord(state, task);
      StillOpen(state, others, id);
      Await(others);
      var attempt := state.attempts;
      state := state.(local := staged.value, jobs := state.jobs - {id},
                      requests := state.requests[attempt := Request(current, next, None)],
                      phase := Waiting(attempt, NoReply),
                      attempts := attempt + 1, pair := Pair(current, next), rewraps := state.rewraps + 1);
      r := Ok(());
    }

    /** The server said yes: the new password's wrap becomes the only one. No effect on a record that is not staged. */
    method FinalizeChangePassword(others: seq<Event<D>>)
      requires HeardYes(state.phase) && Meanwhile(others, state.started)
      modifies this
      ensures state == StepAll(old(state), Writing(old(state), FinalizeTask, others))
      ensures Rewritten(old(state).local, FinalizeTask).None? ==> state == old(state).(phase := Idle)
    {
      WritingRuns(state, FinalizeTask, others);
      var record, id := state.local, state.started;
      if record.V1? || record.altWrap.None? {
        state := state.(phase := Idle);
        return;
      }
      state := ReadRecord(state, FinalizeTask);
      StillOpen(state, others, id);
      Await(others);
      state := state.(local := Promote(record), jobs := state.jobs - {id}, phase := Idle, rewraps := state.rewraps + 1);
    }

    /** Any error: the staged wrap is dropped. No effect on a record that is not staged. */
    method RollbackChangePassword(others: seq<Event<D>>)
      requires state.phase.Waiting? && Meanwhile(others, state.started)
      modifies this
      ensures state == StepAll(old(state), Writing(old(state), RollbackTask, others))
      ensures Rewritten(old(state).local, RollbackTask).None? ==> state == old(state).(phase := Idle)
    {
      WritingRuns(state, RollbackTask, others);
      var record, id := state.local, state.started;
      if record.V1? || record.altWrap.None? {
        state := state.(phase := Idle);
        return;
      }
      state := ReadRecord(state, RollbackTask);
      StillOpen(state, others, id);
      Await(others);
      state := state.(local := Abort(record), jobs := state.jobs - {id}, phase := Idle, rewraps := state.rewraps + 1);
    }

    /** Only the document changes; the wraps are put back as read. */
    method SaveDoc(doc: D, others: seq<Event<D>>)
      requires Meanwhile(others, state.started)
      modifies this
      ensures state == StepAll(old(state), Writing(old(state), SaveTask(doc), others))
    {
      WritingRuns(state, SaveTask(doc), others);
      var record, id := state.local, state.started;
      state := ReadRecord(state, SaveTask(doc));
      StillOpen(state, others, id);
      Await(others);
      state := state.(local := record.(blob := Cipher(record.blob.key, doc)), jobs := state.jobs - {id}, saved := doc);
    }

    /** Opening an old or a staged record settles it under the password used. */
    method Unlock(password: string, salt: nat, others: seq<Event<D>>) returns (unlocked: bool)
      requires Meanwhile(others, state.started)
      modifies this
      ensures state == StepAll(old(state), Writing(old(state), UnlockTask(password, salt), others))
      ensures unlocked == Open(old(state).local, password, salt).Ok?
    {
      WritingRuns(state, UnlockTask(password, salt), others);
      var id := state.started;
      var o := Open(state.local, password, salt);
      if o.Ok? && o.value.migrated.Some? {
        state := ReadRecord(state, UnlockTask(password, salt));
        StillOpen(state, others, id);
        Await(others);
        state := state.(local := o.value.migrated.value, jobs := state.jobs - {id}, rewraps := state.rewraps + 1);
      }
      unlocked := o.Ok?;
    }

    /** Sessions are good only at the user's current epoch. */
    predicate Honours(t: Token)
      reads this
    {
      t.epoch == state.epoch
    }

    /**
     The server's half: check, then update. The session that asked keeps a good token exactly when
     no other change was applied in between; every session from before is signed out.
     */
    method HandleChangePassword(attempt: nat, limited: bool, others: seq<Event<D>>) returns (token: Option<Token>)
      requires attempt in state.requests && state.requests[attempt].checkedAt.None? && attempt < state.attempts
      requires LeavesRequest(others, attempt)
      modifies this
      ensures state == StepAll(old(state), Handling(attempt, limited, others))
      ensures var r := old(state).requests[attempt];
              token.Some? <==> r.current == old(state).server && r.current != "" && 8 <= |r.next| <= 1024 && !limited
      ensures token.Some? ==>
                && state.server == old(state).requests[attempt].next
                && (Honours(token.value) <==>
                      StepAll(Check(old(state), attempt, limited), others).epoch == old(state).epoch)
                && (forall t: Token :: t.epoch <= old(state).epoch ==> !Honours(t))
    {
      FirstAndLast(state, ServerChecks(attempt, limited), others, ServerWrites(attempt));
      var r := state.requests[attempt];
      StillAsked(Check(state, attempt, limited), others, attempt);
      EpochGrows(Check(state, attempt, limited), others);
      var valid := r.current != "" && MIN_PASSWORD_LENGTH <= |r.next| <= MAX_PASSWORD_LENGTH;
      if !valid || limited || state.server != r.current {
        state := state.(requests := state.requests - {attempt}, phase := Answer(state.phase, attempt, Refused));
        Await(others);
        return None;
      }
      var signedAt := state.epoch + 1;
      state := state.(requests := state.requests[attempt := r.(checkedAt := Some(state.epoch))]);
      Await(others);
      state := state.(server := r.next, epoch := state.epoch + 1, requests := state.requests - {attempt},
                      phase := Answer(state.phase, attempt, Accepted(Token(signedAt))));
      token := Some(Token(signedAt));
    }

    /** The request goes out and the reply comes back, or does not. */
    method Ask(fate: Fate) returns (heard: bool)
      requires Asks(state) && state.attempts > state.phase.attempt
      modifies this
      ensures state == StepAll(old(state), Asking(old(state), fate))
      ensures state.phase.Waiting? && heard == (HeardYes(state.phase) && fate.Heard?)
      ensures var r := old(state).requests[old(state).phase.attempt];
              heard <==>
                && fate.Heard? && !fate.limited
                && r.current == old(state).server && r.current != "" && 8 <= |r.next| <= 1024
      ensures heard ==> state.server == old(state).requests[old(state).phase.attempt].next
    {
      AskingRuns(state, fate);
      var attempt := state.phase.attempt;
      if fate.NeverArrives? {
        state := state.(requests := state.requests - {attempt});
        return false;
      }
      var token := HandleChangePassword(attempt, fate.limited, []);
      heard := token.Some? && fate.Heard?;
    }

    /** Stage, ask the server, then settle: forward on success, back on any error. */
    method ChangePassword(current: string, next: string, salt: nat, altSalt: nat, fate: Fate) returns (r: Outcome)
      requires state.phase.Idle?
      modifies this
      ensures state == StepAll(old(state), Course(old(state), current, next, salt, altSalt, fate))
      ensures r.Changed? <==>
                && Stage(old(state).local, current, next, salt, altSalt).Ok? && fate.Heard? && !fate.limited
                && current == old(state).server && current != "" && 8 <= |next| <= 1024
      ensures r.Changed? ==> state.server == next
      ensures r == WrongLocalPassword ==> state == old(state)
    {
      StagedAsks(state, current, next, salt, altSalt);
      var staged := StageChangePassword(current, next, salt, altSalt, []);
      if staged.Err? {
        return if staged.error == WrongPassword then WrongLocalPassword else Threw;
      }
      CourseRuns(old(state), current, next, salt, altSalt, fate);
      var heard := Ask(fate);
      if !heard {
        RollbackChangePassword([]);
        return Threw;
      }
      WritingRuns(state, FinalizeTask, []);
      FinalizeChangePassword([]);
      r := Changed;
    }
  }

  // ---- the server's handler among others ----

  ghost predicate LeavesRequest<D>(others: seq<Event<D>>, attempt: nat) {
    forall ev :: ev in others ==> (ev.ServerChecks? || ev.ServerWrites? || ev.RequestLost? ==> ev.request != attempt)
  }

  function Handling<D>(attempt: nat, limited: bool, others: seq<Event<D>>): seq<Event<D>> {
    [ServerChecks(attempt, limited)] + others + [ServerWrites(attempt)]
  }

  lemma {:induction false} StillAsked<D>(s: State<D>, others: seq<Event<D>>, attempt: nat)
    requires LeavesRequest(others, attempt) && attempt < s.attempts
    ensures var t := StepAll(s, others);
            && (attempt in t.requests <==> attempt in s.requests)
            && (attempt in s.requests ==> t.requests[attempt] == s.requests[attempt])
    decreases |others|
  {
    if others != [] {
      assert others[0] in others;
      StillAsked(Step(s, others[0]), others[1..], attempt);
    }
  }

  lemma {:induction false} EpochGrows<D>(s: State<D>, evs: seq<Event<D>>)
    ensures StepAll(s, evs).epoch >= s.epoch
    decreases |evs|
  {
    if evs != [] {
      EpochGrows(Step(s, evs[0]), evs[1..]);
    }
  }

  // ---- the whole flow ----

  /** What happens to the one request of a change: it is lost, its reply is lost, or the client hears. */
  datatype Fate = NeverArrives | ReplyLost(limited: bool) | Heard(limited: bool)

  datatype Outcome = Changed | WrongLocalPassword | Threw

  /** Waiting for a request that nobody has looked at yet. */
  predicate Asks<D>(s: State<D>) {
    && s.phase.Waiting? && s.phase.reply == NoReply
    && s.phase.attempt in s.requests && s.requests[s.phase.attempt].checkedAt.None?
  }

  function Asking<D>(s: State<D>, fate: Fate): seq<Event<D>>
    requires s.phase.Waiting?
  {
    if fate.NeverArrives? then [RequestLost(s.phase.attempt)] else Handling(s.phase.attempt, fate.limited, [])
  }

  lemma AskingRuns<D>(s: State<D>, fate: Fate)
    requires Asks(s)
    ensures var t := StepAll(s, Asking(s, fate));
            && t.phase.Waiting?
            && (HeardYes(t.phase) <==>
                  !fate.NeverArrives? && Accepts(s.server, s.requests[s.phase.attempt], fate.limited))
            && (fate.NeverArrives? ==> t == s.(requests := s.requests - {s.phase.attempt}))
  {
    if fate.NeverArrives? {
      OneStep(s, RequestLost(s.phase.attempt));
    } else {
      FirstAndLast(s, ServerChecks(s.phase.attempt, fate.limited), [], ServerWrites(s.phase.attempt));
    }
  }

  /** Back on any error, a lost reply included. */
  function Settle<D>(s: State<D>, fate: Fate): Task<D> {
    if HeardYes(s.phase) && fate.Heard? then FinalizeTask else RollbackTask
  }

  /** The events of one run of the flow. */
  function Course<D>(s: State<D>, current: string, next: string, salt: nat, altSalt: nat, fate: Fate): seq<Event<D>> {
    var staging := Writing(s, StageTask(current, next, salt, altSalt), []);
    var staged := StepAll(s, staging);
    if Writes(s, StageTask(current, next, salt, altSalt)) && staged.phase.Waiting? then
      var asked := StepAll(staged, Asking(staged, fate));
      staging + Asking(staged, fate) + Writing(asked, Settle(asked, fate), [])
    else staging
  }

  lemma StagedAsks<D>(s: State<D>, current: string, next: string, salt: nat, altSalt: nat)
    ensures Writes(s, StageTask(current, next, salt, altSalt)) ==>
              var staged := StepAll(s, Writing(s, StageTask(current, next, salt, altSalt), []));
              && Asks(staged) && staged.attempts > staged.phase.attempt && staged.server == s.server
              && staged.requests[staged.phase.attempt] == Request(current, next, None)
  {
    WritingRuns(s, StageTask(current, next, salt, altSalt), []);
  }

  lemma CourseRuns<D>(s: State<D>, current: string, next: string, salt: nat, altSalt: nat, fate: Fate)
    requires Writes(s, StageTask(current, next, salt, altSalt))
    ensures var staged := StepAll(s, Writing(s, StageTask(current, next, salt, altSalt), []));
            && staged.phase.Waiting?
            && var asked := StepAll(staged, Asking(staged, fate));
               var end := StepAll(asked, Writing(asked, Settle(asked, fate), []));
               StepAll(s, Course(s, current, next, salt, altSalt, fate)) == end
  {
    var staging := Writing(s, StageTask(current, next, salt, altSalt), []);
    StagedAsks(s, current, next, salt, altSalt);
    var staged := StepAll(s, staging);
    var asked := StepAll(staged, Asking(staged, fate));
    StepAllAppend(s, staging + Asking(staged, fate), Writing(asked, Settle(asked, fate), []));
    StepAllAppend(s, staging, Asking(staged, fate));
  }

  /** A record and a server at rest. */
  function Begun<D>(local: Record<D>, server: string): State<D> {
    State(local, server, 0, map[], Idle, 0, map[], 0, local.blob.content,
          Pair(MainPassword(local), MainPassword(local)), 0)
  }
}
