/** What the compiled-script life cycle guarantees over every run of ScriptLifecycle. */
module ScriptSafety {
  import opened Wrappers
  import opened ScriptStore
  import opened ScriptLifecycle

  lemma ApplyKeeps(s: State, e: Step)
    requires Inv(s) && Enabled(s, e)
    ensures Inv(Apply(s, e))
  {
    ApplyKeepsModes(s, e);
    ApplyKeepsJobs(s, e);
    ApplyKeepsWindows(s, e);
  }

  ghost predicate Run(s: State, es: seq<Step>, s': State)
    decreases |es|
  {
    if es == [] then s == s'
    else OneActive(s.db) && Enabled(s, es[0]) && Run(Apply(s, es[0]), es[1..], s')
  }

  ghost predicate Reachable(s: State) {
    exists es :: Run(Empty, es, s)
  }

  /** Attempts only grow and jobs keep their evidence, so a claim once lost stays lost. */
  ghost predicate JobsAdvance(s: State, s': State) {
    && (forall j :: j in s.db.jobs ==>
          j in s'.db.jobs && SameEvidence(s.db.jobs[j], s'.db.jobs[j])
              && s.db.jobs[j].attempts <= s'.db.jobs[j].attempts)
    && (forall c :: c in s.claims ==> c in s'.claims && s'.claims[c] == s.claims[c])
    && (forall j, n :: (j, n) in s.claims && Lost(s, j, n) ==> Lost(s', j, n))
  }

  /** Scripts keep their task, and a retired one stays retired. */
  ghost predicate ScriptsAdvance(s: State, s': State) {
    forall x :: x in s.db.scripts ==>
      && x in s'.db.scripts && s'.db.scripts[x].task == s.db.scripts[x].task
      && (s.db.scripts[x].status == Invalidated ==> s'.db.scripts[x].status == Invalidated)
  }

  /** The job has moved past this claim: handed out again, requeued or finished. */
  predicate Lost(s: State, j: JobId, n: nat) {
    j in s.db.jobs && !HoldsClaim(s.db, j, n)
  }

  lemma OneJobAdvances(s: State, j: JobId, job: Job, claims: map<(JobId, nat), Job>)
    requires ClaimsOk(s) && j in s.db.jobs && SameEvidence(s.db.jobs[j], job)
    requires if job.attempts > s.db.jobs[j].attempts then claims == s.claims[(j, job.attempts) := job]
             else claims == s.claims && job.attempts == s.db.jobs[j].attempts && s.db.jobs[j].status == Running
    ensures JobsAdvance(s, s.(db := s.db.(jobs := s.db.jobs[j := job]), claims := claims))
  {
  }

  lemma SameJobsAdvance(s: State, s': State)
    requires s'.db.jobs == s.db.jobs && s'.claims == s.claims
    ensures JobsAdvance(s, s')
  {
  }

  lemma QueueAdvances(s: State, j: JobId, job: Job)
    requires ClaimsOk(s)
    ensures JobsAdvance(s, s.(db := Enqueue(s.db, j, job)))
  {
  }

  lemma TakeAdvances(s: State, j: JobId, now: int)
    requires ClaimsOk(s) && j in s.db.jobs
    ensures var db := ClaimJob(s.db, j, now);
            JobsAdvance(s, s.(db := db, claims := s.claims[(j, db.jobs[j].attempts) := db.jobs[j]]))
  {
    var db := ClaimJob(s.db, j, now);
    OneJobAdvances(s, j, db.jobs[j], s.claims[(j, db.jobs[j].attempts) := db.jobs[j]]);
  }

  lemma BeatAdvances(s: State, j: JobId, n: nat, now: int)
    requires ClaimsOk(s)
    ensures JobsAdvance(s, s.(db := Heartbeat(s.db, j, n, now)))
  {
    if HoldsClaim(s.db, j, n) { OneJobAdvances(s, j, Heartbeat(s.db, j, n, now).jobs[j], s.claims); }
  }

  lemma FinishAdvances(s: State, j: JobId, job: Job, outcome: Outcome, now: int)
    requires ClaimsOk(s)
    ensures JobsAdvance(s, s.(db := Finish(s.db, j, job, outcome, now)))
  {
    if HoldsClaim(s.db, j, job.attempts) { OneJobAdvances(s, j, Finish(s.db, j, job, outcome, now).jobs[j], s.claims); }
  }

  lemma ApplyAdvancesJobs(s: State, e: Step)
    requires OneActive(s.db) && ClaimsOk(s) && Enabled(s, e)
    ensures JobsAdvance(s, Apply(s, e))
  {
    match e
    case Queue(j, job) => QueueAdvances(s, j, job);
    case Take(j, now) => TakeAdvances(s, j, now);
    case Beat(j, n, now) => BeatAdvances(s, j, n, now);
    case Finishing(j, n, outcome, now) => FinishAdvances(s, j, s.claims[(j, n)], outcome, now);
    case _ => SameJobsAdvance(s, Apply(s, e));
  }

  lemma PromoteAdvances(db: Db, p: Promotion)
    requires OneActive(db)
    ensures forall x :: x in db.scripts ==>
              && x in Promote(db, p).scripts && Promote(db, p).scripts[x].task == db.scripts[x].task
              && (db.scripts[x].status == Invalidated ==> Promote(db, p).scripts[x].status == Invalidated)
  {
  }

  lemma ApplyAdvancesScripts(s: State, e: Step)
    requires OneActive(s.db) && Enabled(s, e)
    ensures ScriptsAdvance(s, Apply(s, e))
  {
    match e
    case Promoting(j, n, script, definition) => PromoteAdvances(s.db, PromotionOf(s.claims[(j, n)], j, script,
        definition));
    case ChangeGrants(t, _) => RetireAdvances(s, Apply(s, e), t);
    case Ran(t, _, _) => RetireAdvances(s, Apply(s, e), t);
    case Incompatible(t, _) => RetireAdvances(s, Apply(s, e), t);
    case AddCandidate(x, t) =>
    case _ => assert Apply(s, e).db.scripts == s.db.scripts;
  }

  lemma RetireAdvances(s: State, s': State, t: TaskId)
    requires OneActive(s.db) && (s'.db.scripts == s.db.scripts || s'.db.scripts == Retire(s.db, t).scripts)
    ensures ScriptsAdvance(s, s')
  {
  }

  lemma {:induction false} RunKeeps(s: State, es: seq<Step>, s': State)
    requires Inv(s) && Run(s, es, s')
    ensures Inv(s') && JobsAdvance(s, s') && ScriptsAdvance(s, s')
    decreases |es|
  {
    if es != [] {
      var next := Apply(s, es[0]);
      ApplyKeeps(s, es[0]);
      ApplyAdvancesJobs(s, es[0]);
      ApplyAdvancesScripts(s, es[0]);
      RunKeeps(next, es[1..], s');
    }
  }

  lemma ReachableInv(s: State)
    requires Reachable(s)
    ensures Inv(s)
  {
    var es :| Run(Empty, es, s);
    RunKeeps(Empty, es, s);
  }

  /** Compiled mode is exactly: one active script, and it is what `getActiveScript` returns. */
  lemma CompiledIffOneActive(s: State, t: TaskId)
    requires Reachable(s) && t in s.db.tasks
    ensures OneActive(s.db)
    ensures s.db.tasks[t].mode == Compiled <==> ActiveScript(s.db, t).Some?
    ensures s.db.tasks[t].mode == Compiled <==>
              exists x :: IsActive(s.db, t, x) && forall y :: IsActive(s.db, t, y) ==> y == x
  {
    ReachableInv(s);
  }

  lemma InvalidatedForever(s: State, es: seq<Step>, s': State, x: ScriptId)
    requires Reachable(s) && Run(s, es, s') && x in s.db.scripts && s.db.scripts[x].status == Invalidated
    ensures x in s'.db.scripts && s'.db.scripts[x].status == Invalidated
    ensures forall t :: !IsActive(s'.db, t, x)
  {
    ReachableInv(s);
    RunKeeps(s, es, s');
  }

  lemma OneOpenJobPerTask(s: State, j: JobId, k: JobId)
    requires Reachable(s) && j in s.db.jobs && k in s.db.jobs
    requires Open(s.db.jobs[j]) && Open(s.db.jobs[k]) && s.db.jobs[j].task == s.db.jobs[k].task
    ensures j == k
  {
    ReachableInv(s);
  }

  /** Every claim is new, and taking a job over takes it from whoever had it. */
  lemma ClaimsAreExclusive(s: State, j: JobId, now: int)
    requires Reachable(s) && Enabled(s, Take(j, now))
    ensures OneActive(s.db)
    ensures var s' := Apply(s, Take(j, now));
            && (j, s'.db.jobs[j].attempts) !in s.claims
            && HoldsClaim(s'.db, j, s'.db.jobs[j].attempts)
            && forall n :: (j, n) in s.claims ==> Lost(s', j, n)
  {
    ReachableInv(s);
  }

  /** Once lost, a claim never comes back: whatever else happens, its worker's heartbeat,
      promotion and result change nothing. */
  lemma LostClaimIsPowerless(s: State, es: seq<Step>, s': State, j: JobId, n: nat, e: Step)
    requires Reachable(s) && (j, n) in s.claims && Lost(s, j, n) && Run(s, es, s')
    requires (e.Beat? || e.Promoting? || e.Finishing?) && e.j == j && e.attempts == n
    ensures Enabled(s', e) && OneActive(s'.db) && Apply(s', e).db == s'.db
  {
    ReachableInv(s);
    RunKeeps(s, es, s');
    assert Lost(s', j, n);
    assert s'.claims[(j, n)].attempts == n;
  }

  /** `script` takes the place of `expected`, and no other script or task is touched. */
  ghost predicate Replaced(db: Db, db': Db, t: TaskId, expected: Option<ScriptId>, script: ScriptId) {
    && t in db.tasks && IsActive(db', t, script)
    && db'.jobs == db.jobs && db'.tasks == db.tasks[t := db.tasks[t].(mode := Compiled, cleanAiRuns := 0)]
    && db'.scripts.Keys == db.scripts.Keys
    && (forall x :: x in db.scripts && x != script && Some(x) != expected ==> db'.scripts[x] == db.scripts[x])
    && (expected.Some? && expected.value in db.scripts && expected.value != script ==>
          db'.scripts[expected.value].status == Invalidated)
  }

  lemma PromoteReplaces(db: Db, p: Promotion)
    requires OneActive(db) && MayPromote(db, p)
    ensures Replaced(db, Promote(db, p), p.task, p.expectedScript, p.script)
  {
    assert forall x :: x in db.scripts && db.scripts[x].task == p.task && db.scripts[x].status == Active ==>
        IsActive(db, p.task, x);
  }

  /** A promotion either changes nothing or, while the claim is held and the content it was
      compiled from still stands, replaces exactly the artifact its job was queued against. */
  lemma PromotionReplacesOnlyExpected(s: State, j: JobId, n: nat, script: ScriptId, definition: string)
    requires Reachable(s) && (j, n) in s.claims
    ensures OneActive(s.db) && Enabled(s, Promoting(j, n, script, definition))
    ensures var db', job := Apply(s, Promoting(j, n, script, definition)).db, s.claims[(j, n)];
            || db' == s.db
            || (&& HoldsClaim(s.db, j, n) && SameEvidence(job, s.db.jobs[j])
                && job.task in s.db.tasks && s.db.tasks[job.task].contentHash == job.contentHash
                && ActiveScript(s.db, job.task) == job.expectedScript
                && Replaced(s.db, db', job.task, job.expectedScript, script))
  {
    ReachableInv(s);
    var p := PromotionOf(s.claims[(j, n)], j, script, definition);
    assert ClaimFits(s.db, j, n, s.claims[(j, n)]);
    if MayPromote(s.db, p) { PromoteReplaces(s.db, p); }
  }

  /** The window holds the last ten outcomes since the last demotion and fewer than three
      deopts, and it demotes exactly when the whole history says so. */
  lemma DemotionMatchesHistory(s: State, t: TaskId, deopted: bool, using: Option<ScriptId>)
    requires Reachable(s) && t in s.db.tasks
    ensures OneActive(s.db) && t in s.outcomes
    ensures s.db.tasks[t].recentDeopts == Recent(SinceDemotion(s.outcomes[t]))
    ensures Deopts(s.db.tasks[t].recentDeopts) < DEMOTE_DEOPTS
    ensures Demotes(s.db, t, deopted, using) <==>
              Counts(s.db, t, using) && Worn(SinceDemotion(s.outcomes[t]) + [deopted])
  {
    ReachableInv(s);
    var since := SinceDemotion(s.outcomes[t]);
    RecentOfRecent(since, deopted);
    WornIsDeopts(since + [deopted]);
  }

  /** A demotion takes the script away and starts the history over; any other run leaves the
      script and the mode alone. */
  lemma DemotionRetires(db: Db, t: TaskId, deopted: bool, using: Option<ScriptId>)
    requires ModesOk(db) && t in db.tasks
    ensures var db' := RecordRun(db, t, deopted, using);
            if Demotes(db, t, deopted, using)
            then t in db'.tasks && db'.tasks[t].mode == Ai && db'.tasks[t].recentDeopts == []
                && (forall x :: !IsActive(db', t, x))
            else db'.scripts == db.scripts && t in db'.tasks && db'.tasks[t].mode == db.tasks[t].mode
  {
    if Demotes(db, t, deopted, using) { DemotionKeepsModes(db, t); }
  }

  /** A run that names a script which is no longer the active one changes nothing at all. */
  lemma RetiredRunsDoNotCount(s: State, t: TaskId, deopted: bool, x: ScriptId)
    requires Reachable(s) && !IsActive(s.db, t, x)
    ensures OneActive(s.db) && Apply(s, Ran(t, deopted, Some(x))) == s
  {
    ReachableInv(s);
  }

  // ---- what the life cycle does not promise ----

  /** A runtime change retires the script but keeps its window, so the artifact promoted next
      starts with its predecessor's deopts. */
  lemma IncompatibilityKeepsWindow(s: State, t: TaskId, x: ScriptId)
    requires Reachable(s) && IsActive(s.db, t, x)
    ensures OneActive(s.db) && t in s.db.tasks
    ensures var s' := Apply(s, Incompatible(t, x));
            && s'.db.tasks[t].mode == Ai && s'.db.scripts[x].status == Invalidated
            && s'.db.tasks[t].recentDeopts == s.db.tasks[t].recentDeopts && s'.outcomes == s.outcomes
  {
    ReachableInv(s);
  }

  /** The part of the window the next outcome is counted with. */
  function LastNine(window: seq<bool>): seq<bool> {
    if |window| < DEOPT_WINDOW then window else window[|window| - DEOPT_WINDOW + 1..]
  }

  lemma {:induction false} DeoptsOfTail(window: seq<bool>)
    requires window != []
    ensures Deopts(window) == Deopts(window[1..]) + if window[0] then 1 else 0
  {
    var last := |window| - 1;
    if last > 0 {
      assert window[..last][1..] == window[1..][..last - 1];
      DeoptsOfTail(window[..last]);
    }
  }

  lemma NextIsCountedWithNine(window: seq<bool>, d: bool)
    requires |window| <= DEOPT_WINDOW
    ensures Recent(window + [d]) == LastNine(window) + [d]
  {
  }

  lemma DeoptsOfNine(window: seq<bool>)
    requires |window| <= DEOPT_WINDOW
    ensures Deopts(LastNine(window)) <= Deopts(window)
  {
    if |window| == DEOPT_WINDOW { DeoptsOfTail(window); }
  }

  /** An active script, freshly promoted or not, loses its place on its next deopt exactly when
      two of the last nine outcomes in the window were deopts, its own or a predecessor's. */
  lemma FreshScriptInheritsWindow(s: State, t: TaskId, x: ScriptId)
    requires Reachable(s) && t in s.db.tasks && IsActive(s.db, t, x)
    ensures OneActive(s.db) && (Demotes(s.db, t, true, Some(x)) <==> Deopts(LastNine(s.db.tasks[t].recentDeopts)) == 2)
  {
    ReachableInv(s);
    NextDeoptDecides(s.db.tasks[t].recentDeopts);
  }

  lemma NextDeoptDecides(window: seq<bool>)
    requires |window| <= DEOPT_WINDOW && Deopts(window) < DEMOTE_DEOPTS
    ensures Deopts(Recent(window + [true])) >= DEMOTE_DEOPTS <==> Deopts(LastNine(window)) == 2
  {
    NextIsCountedWithNine(window, true);
    DeoptsOfNine(window);
    assert (LastNine(window) + [true])[..|LastNine(window)|] == LastNine(window);
  }

  // ---- the attempt budget ----

  /** Waiting jobs have attempts left. */
  ghost predicate BudgetOk(s: State) {
    && (forall j :: j in s.db.jobs ==> s.db.jobs[j].maxAttempts == MAX_ATTEMPTS)
    && (forall j :: j in s.db.jobs && s.db.jobs[j].status == Queued ==> s.db.jobs[j].attempts < MAX_ATTEMPTS)
    && (forall c :: c in s.claims ==> s.claims[c].maxAttempts == MAX_ATTEMPTS && s.claims[c].attempts == c.1)
  }

  lemma SameJobsKeepBudget(s: State, s': State)
    requires BudgetOk(s) && s'.db.jobs == s.db.jobs && s'.claims == s.claims
    ensures BudgetOk(s')
  {
  }

  lemma ApplyKeepsBudget(s: State, e: Step)
    requires OneActive(s.db) && BudgetOk(s) && Enabled(s, e)
    ensures BudgetOk(Apply(s, e))
  {
    match e
    case Queue(j, job) => assert s.claims == Apply(s, e).claims;
    case Take(j, now) => TakeKeepsBudget(s, j, now);
    case Beat(j, n, now) => assert s.claims == Apply(s, e).claims;
    case Finishing(j, n, outcome, now) => FinishKeepsBudget(s, j, n, outcome, now);
    case _ => SameJobsKeepBudget(s, Apply(s, e));
  }

  lemma TakeKeepsBudget(s: State, j: JobId, now: int)
    requires OneActive(s.db) && BudgetOk(s) && Enabled(s, Take(j, now))
    ensures BudgetOk(Apply(s, Take(j, now)))
  {
  }

  lemma FinishKeepsBudget(s: State, j: JobId, n: nat, outcome: Outcome, now: int)
    requires OneActive(s.db) && BudgetOk(s) && Enabled(s, Finishing(j, n, outcome, now))
    ensures BudgetOk(Apply(s, Finishing(j, n, outcome, now)))
  {
    var job := s.claims[(j, n)];
    if HoldsClaim(s.db, j, job.attempts) {
      assert Finish(s.db, j, job, outcome, now).jobs == s.db.jobs[j := Finish(s.db, j, job, outcome, now).jobs[j]];
    }
  }

  lemma {:induction false} RunKeepsBudget(s: State, es: seq<Step>, s': State)
    requires BudgetOk(s) && Run(s, es, s')
    ensures BudgetOk(s')
    decreases |es|
  {
    if es != [] {
      ApplyKeepsBudget(s, es[0]);
      RunKeepsBudget(Apply(s, es[0]), es[1..], s');
    }
  }

  lemma QueuedHasAttemptsLeft(s: State, j: JobId)
    requires Reachable(s) && j in s.db.jobs
    ensures s.db.jobs[j].status == Queued ==> s.db.jobs[j].attempts < s.db.jobs[j].maxAttempts
  {
    var es :| Run(Empty, es, s);
    RunKeepsBudget(Empty, es, s);
  }

  /** A hand-out goes over the budget exactly when it takes a stale job, all of whose attempts
      are spent, away from a worker: only a finished attempt is held against `maxAttempts`. */
  lemma TakeExceedsBudgetIff(s: State, j: JobId, now: int)
    requires Reachable(s) && Enabled(s, Take(j, now))
    ensures OneActive(s.db) && j in s.db.jobs && j in Apply(s, Take(j, now)).db.jobs
    ensures var job, taken := s.db.jobs[j], Apply(s, Take(j, now)).db.jobs[j];
            taken.attempts > taken.maxAttempts <==>
              (job.status == Running && job.heartbeat.Some? && job.heartbeat.value <= now - STALE_MS
               && job.attempts >= job.maxAttempts)
  {
    ReachableInv(s);
    QueuedHasAttemptsLeft(s, j);
  }

  lemma {:induction false} RunThen(s: State, es: seq<Step>, mid: State, e: Step)
    requires Run(s, es, mid) && OneActive(mid.db) && Enabled(mid, e)
    ensures Run(s, es + [e], Apply(mid, e))
    decreases |es|
  {
    if es == [] {
      assert [e][1..] == [];
      assert Run(Apply(mid, e), [], Apply(mid, e));
    } else {
      RunThen(Apply(s, es[0]), es[1..], mid, e);
      assert (es + [e])[1..] == es[1..] + [e];
    }
  }

  lemma Then(s: State, e: Step) returns (s': State)
    requires Reachable(s) && Enabled(s, e)
    ensures OneActive(s.db) && s' == Apply(s, e) && Reachable(s')
  {
    ReachableInv(s);
    s' := Apply(s, e);
    var es :| Run(Empty, es, s);
    RunThen(Empty, es, s, e);
  }

  /** And there is no end to it: workers that keep dying are handed the job any number of times. */
  lemma {:induction false} AttemptsAreUnbounded(n: nat) returns (s: State, now: int)
    requires n > 0
    ensures Reachable(s) && "job" in s.db.jobs && "run" in s.settled
    ensures s.db.jobs["job"].status == Running && s.db.jobs["job"].run == "run" && s.db.jobs["job"].attempts == n
    ensures s.db.jobs["job"].heartbeat == Some(now) && s.db.jobs["job"].notBefore <= now
  {
    if n == 1 {
      assert Run(Empty, [], Empty);
      s := Then(Empty, AddTask("task", Task(true, Ai, None, "", 0, [])));
      s := Then(s, Settle("run"));
      s := Then(s, Queue("job", Job("task", "run", None, None, Queued, 0, 0, 0, None)));
      assert s.db.jobs["job"].status == Queued;
      s := Then(s, Take("job", 0));
      now := 0;
    } else {
      var s', then' := AttemptsAreUnbounded(n - 1);
      now := then' + STALE_MS;
      s := Then(s', Take("job", now));
    }
  }
}
