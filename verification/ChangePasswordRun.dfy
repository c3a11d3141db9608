/** Every run of password changes, unlocks and saves, with readers and writers of the record interleaved in any way. */
module ChangePasswordRun {
  import opened Crypto
  import opened IdentityRecord
  import opened ChangePassword

  /** The record keeps the master key, and whatever document its blob holds. */
  ghost predicate Keyed<D>(r: Record<D>, masterKey: LocalKey) {
    Keeps(r, masterKey, r.blob.content)
  }

  predicate Same<D>(r: Record<D>, q: Record<D>) {
    MainPassword(r) == MainPassword(q) && Staged(r) == Staged(q)
  }

  /** What every write does to the record it read. */
  lemma RewrittenIs<D>(r: Record<D>, task: Task<D>, masterKey: LocalKey)
    requires Keyed(r, masterKey) && Rewritten(r, task).Some?
    ensures var w := Rewritten(r, task).value;
            && Keyed(w, masterKey)
            && w.blob.content == (if task.SaveTask? then task.doc else r.blob.content)
            && match task
               case StageTask(current, next, _, _) =>
                 Unlocks(r, current) && MainPassword(w) == current && Staged(w) == Some(next)
               case FinalizeTask => Staged(r) == Some(MainPassword(w)) && Staged(w).None?
               case RollbackTask => Staged(r).Some? && MainPassword(w) == MainPassword(r) && Staged(w).None?
               case UnlockTask(password, _) => Unlocks(r, password) && MainPassword(w) == password && Staged(w).None?
               case SaveTask(_) => Same(w, r)
  {
  }

  // ---- the master key is never lost ----

  ghost predicate AllKeyed<D>(s: State<D>, masterKey: LocalKey) {
    Keyed(s.local, masterKey) && forall id :: id in s.jobs ==> Keyed(s.jobs[id].seen, masterKey)
  }

  lemma StepKeepsKeyed<D>(s: State<D>, ev: Event<D>, masterKey: LocalKey)
    requires AllKeyed(s, masterKey)
    ensures AllKeyed(Step(s, ev), masterKey)
  {
    if ev.Write? && ev.job in s.jobs && Rewritten(s.jobs[ev.job].seen, s.jobs[ev.job].task).Some? {
      RewrittenIs(s.jobs[ev.job].seen, s.jobs[ev.job].task, masterKey);
    }
  }

  lemma {:induction false} RunKeepsKeyed<D>(s: State<D>, evs: seq<Event<D>>, masterKey: LocalKey)
    requires AllKeyed(s, masterKey)
    ensures AllKeyed(StepAll(s, evs), masterKey)
    decreases |evs|
  {
    if evs != [] {
      StepKeepsKeyed(s, evs[0], masterKey);
      RunKeepsKeyed(Step(s, evs[0]), evs[1..], masterKey);
    }
  }

  /**
   However everything interleaves, some password opens the record, and whichever does opens it to the
   one master key.
   */
  lemma MasterKeyNeverLost<D>(s: State<D>, evs: seq<Event<D>>, masterKey: LocalKey, doc: D, salt: nat)
    requires s.jobs == map[] && Keeps(s.local, masterKey, doc)
    ensures var end := StepAll(s, evs).local;
            && Open(end, MainPassword(end), salt).Ok?
            && (forall q :: Open(end, q, salt).Ok? ==> Open(end, q, salt).value.masterKey == masterKey)
  {
    RunKeepsKeyed(s, evs, masterKey);
    var end := StepAll(s, evs).local;
    OpensExactly(end, masterKey, end.blob.content, MainPassword(end), salt);
    forall q | Open(end, q, salt).Ok? ensures Open(end, q, salt).value.masterKey == masterKey {
      OpensExactly(end, masterKey, end.blob.content, q, salt);
    }
  }

  // ---- the old or the new password, and the document last saved ----

  predicate InPair(p: Pair, password: string) {
    password == p.previous || password == p.chosen
  }

  predicate Among<D>(r: Record<D>, p: Pair) {
    InPair(p, MainPassword(r)) && (Staged(r).Some? ==> InPair(p, Staged(r).value))
  }

  /** The record holds the document last saved, under no password but the two in play. */
  ghost predicate Good<D>(s: State<D>) {
    s.local.blob.content == s.saved && Among(s.local, s.pair)
  }

  ghost predicate GoodThroughout<D>(s: State<D>, evs: seq<Event<D>>)
    decreases |evs|
  {
    Good(s) && (evs == [] || GoodThroughout(Step(s, evs[0]), evs[1..]))
  }

  /** Writers have read what was good then. */
  ghost predicate ReadGood<D>(s: State<D>) {
    forall id :: id in s.jobs ==> s.jobs[id].seen.blob.content == s.jobs[id].savedThen
  }

  /**
   A write is astray when another document was saved since a writer of the wraps read the record,
   or when a writer puts back a password that is not in play any more.
   */
  predicate Astray<D(==)>(s: State<D>, j: Job<D>) {
    match j.task
    case StageTask(_, _, _, _) => j.savedThen != s.saved
    case FinalizeTask => j.savedThen != s.saved || (Staged(j.seen).Some? && !InPair(s.pair, Staged(j.seen).value))
    case RollbackTask => j.savedThen != s.saved || !InPair(s.pair, MainPassword(j.seen))
    case UnlockTask(password, _) => j.savedThen != s.saved || !InPair(s.pair, password)
    case SaveTask(_) => !Among(j.seen, s.pair)
  }

  predicate OnCourse<D(==)>(s: State<D>, ev: Event<D>) {
    ev.Write? && ev.job in s.jobs && Rewritten(s.jobs[ev.job].seen, s.jobs[ev.job].task).Some? ==>
      !Astray(s, s.jobs[ev.job])
  }

  ghost predicate OnCourseAll<D>(s: State<D>, evs: seq<Event<D>>)
    decreases |evs|
  {
    evs == [] || (OnCourse(s, evs[0]) && OnCourseAll(Step(s, evs[0]), evs[1..]))
  }

  lemma GoodStep<D>(s: State<D>, ev: Event<D>, masterKey: LocalKey)
    requires AllKeyed(s, masterKey) && Good(s) && ReadGood(s)
    ensures Good(Step(s, ev)) <==> OnCourse(s, ev)
    ensures ReadGood(Step(s, ev))
  {
    if ev.Write? && ev.job in s.jobs && Rewritten(s.jobs[ev.job].seen, s.jobs[ev.job].task).Some? {
      RewrittenIs(s.jobs[ev.job].seen, s.jobs[ev.job].task, masterKey);
    }
  }

  lemma {:induction false} GoodExactly<D>(s: State<D>, evs: seq<Event<D>>, masterKey: LocalKey)
    requires AllKeyed(s, masterKey) && Good(s) && ReadGood(s)
    ensures GoodThroughout(s, evs) <==> OnCourseAll(s, evs)
    decreases |evs|
  {
    if evs != [] {
      StepKeepsKeyed(s, evs[0], masterKey);
      GoodStep(s, evs[0], masterKey);
      if OnCourse(s, evs[0]) {
        GoodExactly(Step(s, evs[0]), evs[1..], masterKey);
      } else {
        assert !GoodThroughout(Step(s, evs[0]), evs[1..]);
      }
    }
  }

  lemma {:induction false} GoodAtTheEnd<D>(s: State<D>, evs: seq<Event<D>>)
    requires GoodThroughout(s, evs)
    ensures Good(StepAll(s, evs))
    decreases |evs|
  {
    if evs != [] {
      GoodAtTheEnd(Step(s, evs[0]), evs[1..]);
    }
  }

  /**
   Crash safety. Through crashes, lost and late messages and unlocks, the record holds the document
   last saved under no password but the two in play, at every state, if and only if no write goes
   astray; then the old or the new password opens it, to the same master key, and no other does.
   */
  lemma OldOrNewAlwaysOpens<D>(local: Record<D>, server: string, evs: seq<Event<D>>, masterKey: LocalKey, doc: D,
                               salt: nat)
    requires Keeps(local, masterKey, doc) && Staged(local).None?
    ensures GoodThroughout(Begun(local, server), evs) <==> OnCourseAll(Begun(local, server), evs)
    ensures OnCourseAll(Begun(local, server), evs) ==>
              var s := StepAll(Begun(local, server), evs);
              && (Open(s.local, s.pair.previous, salt).Ok? || Open(s.local, s.pair.chosen, salt).Ok?)
              && (forall q :: Open(s.local, q, salt).Ok? ==>
                    && InPair(s.pair, q) && Open(s.local, q, salt).value.masterKey == masterKey
                    && Open(s.local, q, salt).value.doc == s.saved)
  {
    var begun := Begun(local, server);
    GoodExactly(begun, evs, masterKey);
    if OnCourseAll(begun, evs) {
      RunKeepsKeyed(begun, evs, masterKey);
      GoodAtTheEnd(begun, evs);
      var s := StepAll(begun, evs);
      OpensExactly(s.local, masterKey, s.saved, MainPassword(s.local), salt);
      forall q | Open(s.local, q, salt).Ok?
        ensures Unlocks(s.local, q) && Open(s.local, q, salt).value.masterKey == masterKey
        ensures Open(s.local, q, salt).value.doc == s.saved
      {
        OpensExactly(s.local, masterKey, s.saved, q, salt);
      }
    }
  }

  /** A write of the record as it still is never goes astray. */
  lemma UnchangedIsOnCourse<D>(s: State<D>, id: nat, masterKey: LocalKey)
    requires AllKeyed(s, masterKey) && Good(s) && ReadGood(s) && id in s.jobs && s.jobs[id].seen == s.local
    ensures OnCourse(s, Write(id))
  {
    if Rewritten(s.jobs[id].seen, s.jobs[id].task).Some? {
      RewrittenIs(s.jobs[id].seen, s.jobs[id].task, masterKey);
    }
  }

  // ---- when the server's password opens the record ----

  predicate ServerOpens<D>(s: State<D>) {
    Unlocks(s.local, s.server)
  }

  /** What must hold before a step for the server's password to open the record after it. */
  predicate Safe<D>(s: State<D>, ev: Event<D>) {
    match ev
    case Write(id) => (
      id in s.jobs && Rewritten(s.jobs[id].seen, s.jobs[id].task).Some? ==>
        var seen := s.jobs[id].seen;
        match s.jobs[id].task
        case StageTask(current, next, _, _) => s.server == current || s.server == next
        case FinalizeTask => Staged(seen) == Some(s.server)
        case RollbackTask => s.server == MainPassword(seen)
        case UnlockTask(password, _) => password == s.server
        case SaveTask(_) => Unlocks(seen, s.server))
    case ServerWrites(attempt) =>
      attempt in s.requests && s.requests[attempt].checkedAt.Some? ==> Unlocks(s.local, s.requests[attempt].next)
    case _ => true
  }

  /** Step by step, and for every step: the guard is exact. */
  lemma SafeIsExact<D>(s: State<D>, ev: Event<D>, masterKey: LocalKey)
    requires AllKeyed(s, masterKey) && ServerOpens(s)
    ensures ServerOpens(Step(s, ev)) <==> Safe(s, ev)
  {
    if ev.Write? && ev.job in s.jobs && Rewritten(s.jobs[ev.job].seen, s.jobs[ev.job].task).Some? {
      RewrittenIs(s.jobs[ev.job].seen, s.jobs[ev.job].task, masterKey);
    }
  }

  ghost predicate ServerOpensThroughout<D>(s: State<D>, evs: seq<Event<D>>)
    decreases |evs|
  {
    ServerOpens(s) && (evs == [] || ServerOpensThroughout(Step(s, evs[0]), evs[1..]))
  }

  ghost predicate SafeAll<D>(s: State<D>, evs: seq<Event<D>>)
    decreases |evs|
  {
    evs == [] || (Safe(s, evs[0]) && SafeAll(Step(s, evs[0]), evs[1..]))
  }

  /** Over every run: the server's password opens the record at every state if and only if every step was safe. */
  lemma {:induction false} ServerOpensExactly<D>(s: State<D>, evs: seq<Event<D>>, masterKey: LocalKey)
    requires AllKeyed(s, masterKey) && ServerOpens(s)
    ensures ServerOpensThroughout(s, evs) <==> SafeAll(s, evs)
    decreases |evs|
  {
    if evs != [] {
      StepKeepsKeyed(s, evs[0], masterKey);
      SafeIsExact(s, evs[0], masterKey);
      if Safe(s, evs[0]) {
        ServerOpensExactly(Step(s, evs[0]), evs[1..], masterKey);
      } else {
        assert !ServerOpensThroughout(Step(s, evs[0]), evs[1..]);
      }
    }
  }

  // ---- the discipline under which every step is safe ----

  /**
   An error means the change was not applied and never will be; unlocking and beginning a change
   use the password the server accepts, with no request still under way; and a record is written
   only when its wraps were not changed since it was read.
   */
  predicate Disciplined<D>(s: State<D>, ev: Event<D>) {
    match ev
    case Read(StageTask(current, _, _, _)) => current == s.server && s.requests == map[]
    case Read(RollbackTask) => s.requests == map[] && !HeardYes(s.phase)
    case Read(UnlockTask(password, _)) => password == s.server && s.requests == map[]
    case Write(id) => id in s.jobs ==> s.jobs[id].rewrapsThen == s.rewraps
    case _ => true
  }

  ghost predicate DisciplinedAll<D>(s: State<D>, evs: seq<Event<D>>)
    decreases |evs|
  {
    evs == [] || (Disciplined(s, evs[0]) && DisciplinedAll(Step(s, evs[0]), evs[1..]))
  }

  /** While a request or its reply is under way the record still holds both passwords. */
  ghost predicate Settled<D>(s: State<D>) {
    && ServerOpens(s)
    && (forall a :: a in s.requests ==>
          s.server == s.requests[a].current == MainPassword(s.local) && Staged(s.local) == Some(s.requests[a].next))
    && (forall a, b :: a in s.requests && b in s.requests ==> a == b)
    && (forall a :: a in s.requests && s.phase.Waiting? ==> s.phase == Waiting(a, NoReply))
    && (HeardYes(s.phase) && Staged(s.local).Some? ==> s.server == Staged(s.local).value)
    && (s.phase.Waiting? && !HeardYes(s.phase) && Staged(s.local).Some? ==> s.server == MainPassword(s.local))
  }

  /** A writer whose wraps are current will keep the server's password. */
  ghost predicate WillKeep<D>(s: State<D>, j: Job<D>) {
    && j.rewrapsThen <= s.rewraps
    && (j.rewrapsThen == s.rewraps ==>
          && Same(j.seen, s.local)
          && (!j.task.SaveTask? ==> s.requests == map[])
          && match j.task
             case StageTask(current, _, _, _) => current == s.server
             case FinalizeTask => Staged(j.seen) == Some(s.server)
             case RollbackTask => s.server == MainPassword(j.seen)
             case UnlockTask(password, _) => password == s.server
             case SaveTask(_) => true)
  }

  ghost predicate Settling<D>(s: State<D>) {
    Settled(s) && forall id :: id in s.jobs ==> WillKeep(s, s.jobs[id])
  }

  /** The write itself, and the server's password after it. */
  lemma WriteSettles<D>(s: State<D>, id: nat, masterKey: LocalKey)
    requires AllKeyed(s, masterKey) && Settling(s) && Disciplined(s, Write(id))
    ensures Safe(s, Write(id)) && Settled(WriteRecord(s, id))
  {
    if id in s.jobs && Rewritten(s.jobs[id].seen, s.jobs[id].task).Some? {
      assert WillKeep(s, s.jobs[id]);
      RewrittenIs(s.jobs[id].seen, s.jobs[id].task, masterKey);
    }
  }

  /** A change of the wraps leaves every other writer behind; a save changes none. */
  lemma WriteKeepsJobs<D>(s: State<D>, id: nat, masterKey: LocalKey)
    requires AllKeyed(s, masterKey) && Settling(s) && Disciplined(s, Write(id))
    ensures var t := WriteRecord(s, id);
            forall other :: other in t.jobs ==> WillKeep(t, t.jobs[other])
  {
    var t := WriteRecord(s, id);
    if id in s.jobs && Rewritten(s.jobs[id].seen, s.jobs[id].task).Some? {
      assert WillKeep(s, s.jobs[id]);
      RewrittenIs(s.jobs[id].seen, s.jobs[id].task, masterKey);
      forall other | other in t.jobs ensures WillKeep(t, t.jobs[other]) {
        assert WillKeep(s, s.jobs[other]);
      }
    }
  }

  lemma ReadSettles<D>(s: State<D>, task: Task<D>, masterKey: LocalKey)
    requires AllKeyed(s, masterKey) && Settling(s) && Disciplined(s, Read(task))
    ensures Settling(ReadRecord(s, task))
  {
    var t := ReadRecord(s, task);
    if Writes(s, task) {
      RewrittenIs(s.local, task, masterKey);
      assert WillKeep(t, t.jobs[s.started]);
    }
    forall id | id in t.jobs ensures WillKeep(t, t.jobs[id]) {
      assert id in s.jobs && t.jobs[id] == s.jobs[id] ==> WillKeep(s, s.jobs[id]);
    }
  }

  lemma DisciplineKeeps<D>(s: State<D>, ev: Event<D>, masterKey: LocalKey)
    requires AllKeyed(s, masterKey) && Settling(s) && Disciplined(s, ev)
    ensures Settling(Step(s, ev))
  {
    match ev
    case Read(task) => ReadSettles(s, task, masterKey);
    case Write(id) =>
      WriteSettles(s, id, masterKey);
      WriteKeepsJobs(s, id, masterKey);
    case _ =>
  }

  /** Over every disciplined run, crashes included, the password the server accepts opens the record. */
  lemma {:induction false} ServerPasswordOpens<D>(s: State<D>, evs: seq<Event<D>>, masterKey: LocalKey)
    requires AllKeyed(s, masterKey) && Settling(s) && DisciplinedAll(s, evs)
    ensures ServerOpensThroughout(s, evs)
    decreases |evs|
  {
    if evs != [] {
      StepKeepsKeyed(s, evs[0], masterKey);
      DisciplineKeeps(s, evs[0], masterKey);
      ServerPasswordOpens(Step(s, evs[0]), evs[1..], masterKey);
    }
  }

  /** At rest with the server on the record's password, a disciplined run may begin. */
  lemma RestIsSettling<D>(local: Record<D>, masterKey: LocalKey, doc: D)
    requires Keeps(local, masterKey, doc) && Staged(local).None?
    ensures AllKeyed(Begun(local, MainPassword(local)), masterKey) && Settling(Begun(local, MainPassword(local)))
  {
  }

  // ---- what goes wrong without it ----

  /** A settled record under `password`, and a server that accepts it. */
  function Rest<D>(doc: D, password: string, masterKey: LocalKey, salt: nat): State<D> {
    Begun(Seal(doc, password, masterKey, salt), password)
  }

  predicate Choosable(current: string, next: string) {
    current != "" && MIN_PASSWORD_LENGTH <= |next| <= MAX_PASSWORD_LENGTH && current != next
  }

  lemma FourSteps<D>(s: State<D>, a: Event<D>, b: Event<D>, c: Event<D>, d: Event<D>)
    ensures StepAll(s, [a, b, c, d]) == Step(Step(Step(Step(s, a), b), c), d)
  {
    assert [a, b, c, d] == [a] + [b, c] + [d];
    FirstAndLast(s, a, [b, c], d);
    assert [b, c][1..] == [c];
    OneStep(Step(Step(s, a), b), c);
  }

  /** Staged and asked, and the server has applied the change. */
  function ChangeApplied<D>(current: string, next: string, salt: nat, altSalt: nat): seq<Event<D>> {
    [Read(StageTask(current, next, salt, altSalt)), Write(0), ServerChecks(0, false), ServerWrites(0)]
  }

  lemma AfterChangeApplied<D>(doc: D, current: string, next: string, key: LocalKey, salt: nat, altSalt: nat)
    requires Choosable(current, next)
    ensures var s := Rest(doc, current, key, salt);
            var t := StepAll(s, ChangeApplied(current, next, salt, altSalt));
            && Keyed(t.local, key) && t.local.V2? && MainPassword(t.local) == current && Staged(t.local) == Some(next)
            && t.server == next && t.requests == map[] && t.phase == Waiting(0, Accepted(Token(1))) && t.jobs == map[]
            && t.started == 1
  {
    FourSteps(Rest(doc, current, key, salt), Read(StageTask(current, next, salt, altSalt)), Write(0),
              ServerChecks(0, false),
              ServerWrites(0));
  }

  /**
   The server applied the change but its reply was lost: the rollback keeps the password the server no
   longer accepts.
   */
  lemma LostReplyLocksOut<D>(doc: D, current: string, next: string, key: LocalKey, salt: nat, altSalt: nat)
    requires Choosable(current, next)
    ensures var end := StepAll(Rest(doc, current, key, salt),
                               ChangeApplied(current, next, salt, altSalt) + [Read(RollbackTask), Write(1)]);
            end.server == next && !ServerOpens(end) && Unlocks(end.local, current)
  {
    AfterChangeApplied(doc, current, next, key, salt, altSalt);
    StepAllAppend(Rest(doc, current, key, salt), ChangeApplied(current, next, salt, altSalt),
                  [Read(RollbackTask), Write(1)]);
    var t := StepAll(Rest(doc, current, key, salt), ChangeApplied(current, next, salt, altSalt));
    FirstAndLast(t, Read(RollbackTask), [], Write(1));
  }

  lemma ThreeSteps<D>(s: State<D>, a: Event<D>, b: Event<D>, c: Event<D>)
    ensures StepAll(s, [a, b, c]) == Step(Step(Step(s, a), b), c)
  {
    assert [a, b, c] == [a] + [b] + [c];
    FirstAndLast(s, a, [b], c);
    OneStep(Step(s, a), b);
  }

  /** An unlock with the old password, although the server's, collapses the record before a late request is applied. */
  lemma LateRequestLocksOut<D>(doc: D, current: string, next: string, key: LocalKey, salt: nat, altSalt: nat)
    requires Choosable(current, next)
    ensures var end := StepAll(Rest(doc, current, key, salt),
                               [Read(StageTask(current, next, salt, altSalt)), Write(0), Crash,
                                Read(UnlockTask(current, salt))]
                               + [Write(1), ServerChecks(0, false), ServerWrites(0)]);
            end.server == next && !ServerOpens(end) && Unlocks(end.local, current)
  {
    var s := Rest(doc, current, key, salt);
    var first := [Read(StageTask(current, next, salt, altSalt)), Write(0), Crash, Read(UnlockTask(current, salt))];
    StepAllAppend(s, first, [Write(1), ServerChecks(0, false), ServerWrites(0)]);
    FourSteps(s, first[0], first[1], first[2], first[3]);
    ThreeSteps(StepAll(s, first), Write(1), ServerChecks(0, false), ServerWrites(0));
  }

  /**
   After a crash the record still opens with the old password; changing again from it drops the one the
   server has.
   */
  lemma StaleBeginLocksOut<D>(doc: D, current: string, next: string, third: string, key: LocalKey, salt: nat,
                              altSalt: nat)
    requires Choosable(current, next) && third != next
    ensures var end := StepAll(Rest(doc, current, key, salt),
                               ChangeApplied(current, next, salt, altSalt)
                               + [Crash, Read(StageTask(current, third, salt, altSalt)), Write(1)]);
            end.server == next && !ServerOpens(end)
  {
    AfterChangeApplied(doc, current, next, key, salt, altSalt);
    var s := Rest(doc, current, key, salt);
    var last := [Crash, Read(StageTask(current, third, salt, altSalt)), Write(1)];
    StepAllAppend(s, ChangeApplied(current, next, salt, altSalt), last);
    ThreeSteps(StepAll(s, ChangeApplied(current, next, salt, altSalt)), last[0], last[1], last[2]);
  }

  /** A document saved while a change is being staged is overwritten by the staged record. */
  lemma SaveInsideStageIsLost<D>(doc: D, newer: D, current: string, next: string, key: LocalKey, salt: nat,
                                 altSalt: nat)
    requires Choosable(current, next)
    ensures var end := StepAll(Rest(doc, current, key, salt),
                               [Read(StageTask(current, next, salt, altSalt)), Read(SaveTask(newer)), Write(1),
                                Write(0)]);
            end.saved == newer && end.local.blob == Cipher(key, doc) && Staged(end.local) == Some(next)
  {
    FourSteps(Rest(doc, current, key, salt), Read(StageTask(current, next, salt, altSalt)), Read(SaveTask(newer)),
              Write(1), Write(0));
  }

  /** The record is as it was but for the document, and the request is on its way. */
  lemma AfterSaveOver<D>(doc: D, newer: D, current: string, next: string, key: LocalKey, salt: nat, altSalt: nat)
    ensures var s := StepAll(Rest(doc, current, key, salt),
                             [Read(SaveTask(newer)), Read(StageTask(current, next, salt, altSalt)), Write(1),
                              Write(0)]);
            && s.requests == map[0 := Request(current, next, None)] && s.phase == Waiting(0, NoReply)
            && s.jobs == map[] && s.server == current
            && s.local.V2? && MainPassword(s.local) == current && Staged(s.local).None? && s.local.altWrap.None?
  {
    FourSteps(Rest(doc, current, key, salt), Read(SaveTask(newer)), Read(StageTask(current, next, salt, altSalt)),
              Write(1), Write(0));
  }

  /**
   A save that read the record before it was staged and writes it after drops the staged wrap. The
   change then succeeds, settling does nothing, and the server's password opens nothing.
   */
  lemma SaveOverStageLocksOut<D>(doc: D, newer: D, current: string, next: string, key: LocalKey, salt: nat,
                                 altSalt: nat)
    requires Choosable(current, next)
    ensures var end := StepAll(Rest(doc, current, key, salt),
                               [Read(SaveTask(newer)), Read(StageTask(current, next, salt, altSalt)), Write(1),
                                Write(0)]
                               + [ServerChecks(0, false), ServerWrites(0), Read(FinalizeTask)]);
            && end.server == next && end.phase.Idle? && end.jobs == map[]
            && !ServerOpens(end) && Unlocks(end.local, current)
  {
    var s := Rest(doc, current, key, salt);
    var first := [Read(SaveTask(newer)), Read(StageTask(current, next, salt, altSalt)), Write(1), Write(0)];
    StepAllAppend(s, first, [ServerChecks(0, false), ServerWrites(0), Read(FinalizeTask)]);
    AfterSaveOver(doc, newer, current, next, key, salt, altSalt);
    ThreeSteps(StepAll(s, first), ServerChecks(0, false), ServerWrites(0), Read(FinalizeTask));
  }

  // ---- the server changes only for somebody who knows its password ----

  /** The state after the first `n` events. */
  function After<D>(s: State<D>, evs: seq<Event<D>>, n: nat): State<D>
    requires n <= |evs|
  {
    StepAll(s, evs[..n])
  }

  lemma AfterStep<D>(s: State<D>, evs: seq<Event<D>>, n: nat)
    requires n < |evs|
    ensures After(s, evs, n + 1) == Step(After(s, evs, n), evs[n])
  {
    assert evs[..n + 1] == evs[..n] + [evs[n]];
    StepAllAppend(s, evs[..n], [evs[n]]);
    OneStep(After(s, evs, n), evs[n]);
  }

  /**
   Event `i` found the current password of the request right: the server's then, and a valid new one,
   not rate-limited.
   */
  ghost predicate CheckedAt<D>(s: State<D>, evs: seq<Event<D>>, i: nat, attempt: nat, r: Request) {
    && i < |evs| && evs[i] == ServerChecks(attempt, false)
    && r.current == After(s, evs, i).server && r.current != "" && 8 <= |r.next| <= 1024
  }

  /** Every request that passed did so at an event before. */
  ghost predicate PassedBefore<D>(s: State<D>, evs: seq<Event<D>>, n: nat)
    requires n <= |evs|
  {
    forall a :: a in After(s, evs, n).requests && After(s, evs, n).requests[a].checkedAt.Some? ==>
      exists i: nat :: i < n && CheckedAt(s, evs, i, a, After(s, evs, n).requests[a])
  }

  /** A step lets a request pass only by checking it, and changes no other. */
  lemma RequestStep<D>(s: State<D>, ev: Event<D>, a: nat)
    requires a in Step(s, ev).requests && Step(s, ev).requests[a].checkedAt.Some?
    ensures var r := Step(s, ev).requests[a];
            || (a in s.requests && s.requests[a] == r)
            || (ev == ServerChecks(a, false) && r.current == s.server && r.current != "" && 8 <= |r.next| <= 1024)
  {
  }

  lemma {:induction false} AllPassedBefore<D>(s: State<D>, evs: seq<Event<D>>, n: nat)
    requires n <= |evs| && s.requests == map[]
    ensures PassedBefore(s, evs, n)
  {
    if n == 0 {
      assert evs[..0] == [];
    } else {
      AllPassedBefore(s, evs, n - 1);
      AfterStep(s, evs, n - 1);
      var t := After(s, evs, n);
      forall a | a in t.requests && t.requests[a].checkedAt.Some?
        ensures exists i: nat :: i < n && CheckedAt(s, evs, i, a, t.requests[a])
      {
        RequestStep(After(s, evs, n - 1), evs[n - 1], a);
        if evs[n - 1] == ServerChecks(a, false) && t.requests[a].current == After(s, evs, n - 1).server {
          assert CheckedAt(s, evs, n - 1, a, t.requests[a]) || a in After(s, evs, n - 1).requests;
        }
      }
    }
  }

  /**
   Over every run: a step after which the server has another password is the update of one request
   to the password it asks for, and an earlier step found that the one who sent it knew the
   password the server had then.
   */
  lemma OnlyTheOwnerChanges<D>(s: State<D>, evs: seq<Event<D>>, n: nat)
    requires n < |evs| && s.requests == map[] && After(s, evs, n + 1).server != After(s, evs, n).server
    ensures exists a, i: nat :: && evs[n] == ServerWrites(a) && a in After(s, evs, n).requests && i < n
                                && CheckedAt(s, evs, i, a, After(s, evs, n).requests[a])
                                && After(s, evs, n + 1).server == After(s, evs, n).requests[a].next
  {
    AfterStep(s, evs, n);
    AllPassedBefore(s, evs, n);
    var t := After(s, evs, n);
    var a := evs[n].request;
    assert t.requests[a].checkedAt.Some?;
    var i: nat :| i < n && CheckedAt(s, evs, i, a, t.requests[a]);
  }

  /** Event `i` applied the request of this attempt. */
  ghost predicate AppliedAt<D>(s: State<D>, evs: seq<Event<D>>, i: nat, attempt: nat) {
    && i < |evs| && evs[i] == ServerWrites(attempt) && attempt in After(s, evs, i).requests
    && After(s, evs, i).requests[attempt].checkedAt.Some?
  }

  /** Over every run: the client goes forward only on the answer to the very request it waits for. */
  lemma {:induction false} HearsOnlyItsOwn<D>(s: State<D>, evs: seq<Event<D>>, n: nat)
    requires n <= |evs| && !HeardYes(s.phase)
    ensures var t := After(s, evs, n);
            HeardYes(t.phase) ==> exists i: nat :: i < n && AppliedAt(s, evs, i, t.phase.attempt)
  {
    if n == 0 {
      assert evs[..0] == [];
    } else {
      AfterStep(s, evs, n - 1);
      HearsOnlyItsOwn(s, evs, n - 1);
      var t := After(s, evs, n);
      if HeardYes(t.phase) && t.phase != After(s, evs, n - 1).phase {
        assert AppliedAt(s, evs, n - 1, t.phase.attempt);
      }
    }
  }

  // ---- one change from beginning to end ----

  /** The server takes the change: the request reaches it in time, names its password, and asks for a usable one. */
  predicate Agreed(server: string, current: string, next: string, fate: Fate) {
    !fate.NeverArrives? && !fate.limited && current == server && current != "" && 8 <= |next| <= 1024
  }

  lemma StagedRecord<D>(s: State<D>, current: string, next: string, salt: nat, altSalt: nat,
                        masterKey: LocalKey, doc: D)
    requires s.phase.Idle? && Keeps(s.local, masterKey, doc) && Unlocks(s.local, current)
    ensures Writes(s, StageTask(current, next, salt, altSalt))
    ensures var t := StepAll(s, Writing(s, StageTask(current, next, salt, altSalt), []));
            && Asks(t) && t.requests[t.phase.attempt] == Request(current, next, None)
            && t.server == s.server && t.epoch == s.epoch
            && t.local.V2? && Keeps(t.local, masterKey, doc)
            && MainPassword(t.local) == current && Staged(t.local) == Some(next)
  {
    StageAddsPassword(s.local, masterKey, doc, current, next, salt, altSalt);
    WritingRuns(s, StageTask(current, next, salt, altSalt), []);
  }

  lemma AskedServer<D>(s: State<D>, fate: Fate)
    requires Asks(s)
    ensures var t := StepAll(s, Asking(s, fate));
            var r := s.requests[s.phase.attempt];
            var agreed := Agreed(s.server, r.current, r.next, fate);
            && t.local == s.local && t.phase.Waiting? && (HeardYes(t.phase) <==> agreed)
            && t.server == (if agreed then r.next else s.server) && t.epoch == s.epoch + (if agreed then 1 else 0)
  {
    AskingRuns(s, fate);
    if !fate.NeverArrives? {
      FirstAndLast(s, ServerChecks(s.phase.attempt, fate.limited), [], ServerWrites(s.phase.attempt));
    }
  }

  /** Settled with nothing in between: one password is left, and the server is not involved. */
  lemma SettledRecord<D>(s: State<D>, fate: Fate, masterKey: LocalKey, doc: D)
    requires s.phase.Waiting? && s.local.V2? && Keeps(s.local, masterKey, doc) && Staged(s.local).Some?
    ensures var t := StepAll(s, Writing(s, Settle(s, fate), []));
            && t.phase.Idle? && t.server == s.server && t.epoch == s.epoch
            && t.local.V2? && Keeps(t.local, masterKey, doc) && Staged(t.local).None?
            && MainPassword(t.local) == if HeardYes(s.phase) && fate.Heard? then Staged(s.local).value
                                        else MainPassword(s.local)
  {
    SettleKeepsOne(s.local, masterKey, doc);
    WritingRuns(s, Settle(s, fate), []);
  }

  /**
   One change with nothing else going on. Without the current password nothing happens. Otherwise
   exactly one password opens the record in the end, to the same key and document: the next one
   if the client heard that the server took it, and the current one in every other case, also when
   the server took it and the reply was lost.
   */
  lemma ChangeEndsExactly<D>(s: State<D>, current: string, next: string, salt: nat, altSalt: nat, fate: Fate,
                             masterKey: LocalKey, doc: D, password: string, again: nat)
    requires s.phase.Idle? && Keeps(s.local, masterKey, doc)
    ensures var t := StepAll(s, Course(s, current, next, salt, altSalt, fate));
            if !Unlocks(s.local, current) then t == s
            else
              var agreed := Agreed(s.server, current, next, fate);
              && t.phase.Idle? && t.server == (if agreed then next else s.server)
              && t.epoch == s.epoch + (if agreed then 1 else 0)
              && (if password == (if agreed && fate.Heard? then next else current)
                  then Open(t.local, password, again) == Ok(Opened(doc, masterKey, None))
                  else Open(t.local, password, again) == Err(WrongPassword))
  {
    var task := StageTask(current, next, salt, altSalt);
    if !Unlocks(s.local, current) {
      StageAddsPassword(s.local, masterKey, doc, current, next, salt, altSalt);
      WritingRuns(s, task, []);
    } else {
      StagedRecord(s, current, next, salt, altSalt, masterKey, doc);
      CourseRuns(s, current, next, salt, altSalt, fate);
      var staged := StepAll(s, Writing(s, task, []));
      AskedServer(staged, fate);
      var asked := StepAll(staged, Asking(staged, fate));
      SettledRecord(asked, fate, masterKey, doc);
      var t := StepAll(asked, Writing(asked, Settle(asked, fate), []));
      OpensExactly(t.local, masterKey, doc, password, again);
    }
  }
}
