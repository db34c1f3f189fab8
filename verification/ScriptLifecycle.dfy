/** Every interleaving of compile workers, executors and authors on the script tables
    (packages/agent/src/compile-loop.ts and compiled-executor.ts as clients of
    packages/compiler). A worker is known only by the claims it was given: it may crash,
    outlive its claim, or use it in any order. */
module ScriptLifecycle {
  import opened Wrappers
  import opened ScriptStore

  /** `claims` are the job rows as handed to workers, under the attempt they were handed out
      for; `outcomes` are the compiled runs that counted, per task. */
  datatype State = State(db: Db, settled: set<RunId>, claims: map<(JobId, nat), Job>, outcomes: map<TaskId, seq<bool>>)

  datatype Step =
    | AddTask(t: TaskId, task: Task)
    | Redefine(t: TaskId, contentHash: Option<string>, definition: string)  // an author edits the node
    | ChangeGrants(t: TaskId, contentHash: Option<string>)                  // also retires the script
    | Settle(run: RunId)
    | AddCandidate(s: ScriptId, t: TaskId)
    | Queue(j: JobId, job: Job)
    | Take(j: JobId, now: int)
    | Beat(j: JobId, attempts: nat, now: int)
    | Promoting(j: JobId, attempts: nat, script: ScriptId, definition: string)
    | Finishing(j: JobId, attempts: nat, outcome: Outcome, now: int)
    | Ran(t: TaskId, deopted: bool, using: Option<ScriptId>)
    | Incompatible(t: TaskId, script: ScriptId)

  /** What `runOnce` passes on from its claim. */
  function PromotionOf(job: Job, j: JobId, script: ScriptId, definition: string): Promotion {
    Promotion(job.task, script, job.contentHash, job.expectedScript, definition, j, job.attempts)
  }

  predicate Enabled(s: State, e: Step) {
    match e
    case AddTask(t, task) => t !in s.db.tasks && task.mode == Ai && task.recentDeopts == []
                             && forall x :: x in s.db.scripts ==> s.db.scripts[x].task != t
    case Redefine(t, _, _) => t in s.db.tasks
    case ChangeGrants(t, _) => t in s.db.tasks
    case AddCandidate(x, t) => x !in s.db.scripts && t in s.db.tasks
    case Queue(j, job) => job.task in s.db.tasks
    case Take(j, now) => Claimable(s.db, s.settled, j, now)
    case Beat(j, n, _) => (j, n) in s.claims
    case Promoting(j, n, _, _) => (j, n) in s.claims
    case Finishing(j, n, _, _) => (j, n) in s.claims
    case _ => true
  }

  function Apply(s: State, e: Step): State
    requires Enabled(s, e) && OneActive(s.db)
  {
    match e
    case AddTask(t, task) => s.(db := s.db.(tasks := s.db.tasks[t := task]), outcomes := s.outcomes[t := []])
    case Redefine(t, hash, definition) =>
      s.(db := s.db.(tasks := s.db.tasks[t := s.db.tasks[t].(contentHash := hash, definition := definition)]))
    case ChangeGrants(t, hash) =>
      var mode := if ActiveScript(s.db, t).Some? then Ai else s.db.tasks[t].mode;
      s.(db := Retire(s.db, t).(tasks := s.db.tasks[t := s.db.tasks[t].(contentHash := hash, mode := mode)]))
    case Settle(run) => s.(settled := s.settled + {run})
    case AddCandidate(x, t) => s.(db := s.db.(scripts := s.db.scripts[x := Script(t, Candidate)]))
    case Queue(j, job) => s.(db := Enqueue(s.db, j, job))
    case Take(j, now) =>
      var db := ClaimJob(s.db, j, now);
      s.(db := db, claims := s.claims[(j, db.jobs[j].attempts) := db.jobs[j]])
    case Beat(j, n, now) => s.(db := Heartbeat(s.db, j, n, now))
    case Promoting(j, n, script, definition) =>
      s.(db := Promote(s.db, PromotionOf(s.claims[(j, n)], j, script, definition)))
    case Finishing(j, n, outcome, now) => s.(db := Finish(s.db, j, s.claims[(j, n)], outcome, now))
    case Ran(t, deopted, using) =>
      s.(db := RecordRun(s.db, t, deopted, using),
         outcomes := if Counts(s.db, t, using) && t in s.outcomes
                     then s.outcomes[t := s.outcomes[t] + [deopted]] else s.outcomes)
    case Incompatible(t, script) => s.(db := RuntimeChanged(s.db, t, script))
  }

  // ---- demotion, defined on a task's whole history ----

  predicate ThreeDeopts(outcomes: seq<bool>, i: int, j: int, k: int) {
    0 <= i < j < k < |outcomes| && outcomes[i] && outcomes[j] && outcomes[k]
  }

  /** Three deopts among the last ten outcomes. */
  ghost predicate Worn(outcomes: seq<bool>) {
    exists i, j, k :: ThreeDeopts(outcomes, i, j, k) && |outcomes| - DEOPT_WINDOW <= i
  }

  /** The outcomes since the last one that wore the script out, if any did. */
  ghost function SinceDemotion(outcomes: seq<bool>): seq<bool> {
    if outcomes == [] then []
    else
      var sofar := SinceDemotion(outcomes[..|outcomes| - 1]) + [outcomes[|outcomes| - 1]];
      if Worn(sofar) then [] else sofar
  }

  // ---- what every step keeps ----

  /** A task is in compiled mode exactly when it has its one active script. */
  ghost predicate ModesOk(db: Db) {
    && OneActive(db)
    && (forall x :: x in db.scripts ==> db.scripts[x].task in db.tasks)
    && (forall t :: t in db.tasks ==> (db.tasks[t].mode == Compiled <==> exists x :: IsActive(db, t, x)))
  }

  ghost predicate JobsOk(db: Db) {
    && (forall j, k | j in db.jobs && k in db.jobs && Open(db.jobs[j]) && Open(db.jobs[k]) ::
          db.jobs[j].task == db.jobs[k].task ==> j == k)
    && (forall j :: j in db.jobs ==> db.jobs[j].task in db.tasks)
  }

  /** A claim is a copy of its job, and never from the future. */
  ghost predicate ClaimsOk(s: State) {
    && (forall j, n :: (j, n) in s.claims ==> ClaimFits(s.db, j, n, s.claims[(j, n)]))
    && (forall j :: j in s.db.jobs && s.db.jobs[j].status == Running ==> (j, s.db.jobs[j].attempts) in s.claims)
  }

  predicate ClaimFits(db: Db, j: JobId, n: nat, claim: Job) {
    && j in db.jobs && n <= db.jobs[j].attempts && claim.attempts == n
    && SameEvidence(claim, db.jobs[j])
  }

  /** The task content and the artifact a job was queued against. */
  predicate SameEvidence(a: Job, b: Job) {
    a.task == b.task && a.run == b.run && a.contentHash == b.contentHash && a.expectedScript == b.expectedScript
  }

  /** The stored window is all that is needed of the history. */
  ghost predicate WindowsOk(s: State) {
    forall t :: t in s.db.tasks ==>
      && t in s.outcomes
      && s.db.tasks[t].recentDeopts == Recent(SinceDemotion(s.outcomes[t]))
      && Deopts(s.db.tasks[t].recentDeopts) < DEMOTE_DEOPTS
  }

  ghost predicate Inv(s: State) {
    ModesOk(s.db) && JobsOk(s.db) && ClaimsOk(s) && WindowsOk(s)
  }

  const Empty := State(Db(map[], map[], map[]), {}, map[], map[])

  // -- counting --

  lemma {:induction false} DeoptsOne(s: seq<bool>)
    ensures Deopts(s) >= 1 <==> exists i :: 0 <= i < |s| && s[i]
  {
    if s != [] {
      var p := s[..|s| - 1];
      DeoptsOne(p);
      assert forall i :: 0 <= i < |p| ==> p[i] == s[i];
    }
  }

  lemma {:induction false} DeoptsTwo(s: seq<bool>)
    ensures Deopts(s) >= 2 <==> exists i, j :: 0 <= i < j < |s| && s[i] && s[j]
  {
    if s != [] {
      var p := s[..|s| - 1];
      DeoptsTwo(p);
      DeoptsOne(p);
      assert forall i :: 0 <= i < |p| ==> p[i] == s[i];
    }
  }

  lemma {:induction false} DeoptsThree(s: seq<bool>)
    ensures Deopts(s) >= 3 <==> exists i, j, k :: ThreeDeopts(s, i, j, k)
  {
    if s != [] {
      var p, n := s[..|s| - 1], |s| - 1;
      DeoptsThree(p);
      DeoptsTwo(p);
      assert forall i, j, k :: ThreeDeopts(p, i, j, k) ==> ThreeDeopts(s, i, j, k);
      assert forall i, j, k :: ThreeDeopts(s, i, j, k) && k < n ==> ThreeDeopts(p, i, j, k);
      assert forall i, j :: 0 <= i < j < n && p[i] && p[j] && s[n] ==> ThreeDeopts(s, i, j, n);
      assert forall i, j, k :: ThreeDeopts(s, i, j, k) && k == n ==> 0 <= i < j < |p| && p[i] && p[j];
    }
  }

  lemma WornIsDeopts(outcomes: seq<bool>)
    ensures Worn(outcomes) <==> Deopts(Recent(outcomes)) >= DEMOTE_DEOPTS
  {
    var recent := Recent(outcomes);
    var from := |outcomes| - |recent|;
    DeoptsThree(recent);
    assert forall i :: 0 <= i < |recent| ==> recent[i] == outcomes[from + i];
    forall i, j, k | ThreeDeopts(recent, i, j, k) ensures Worn(outcomes) {
      assert ThreeDeopts(outcomes, from + i, from + j, from + k);
    }
    forall i, j, k | ThreeDeopts(outcomes, i, j, k) && |outcomes| - DEOPT_WINDOW <= i
      ensures ThreeDeopts(recent, i - from, j - from, k - from)
    {
      assert recent[i - from] == outcomes[i] && recent[j - from] == outcomes[j] && recent[k - from] == outcomes[k];
    }
  }

  lemma RecentOfRecent(outcomes: seq<bool>, d: bool)
    ensures Recent(Recent(outcomes) + [d]) == Recent(outcomes + [d])
  {
  }

  /** The window decides as the whole history does. */
  lemma WindowRefinesHistory(outcomes: seq<bool>, stored: seq<bool>, d: bool)
    requires stored == Recent(SinceDemotion(outcomes))
    ensures Deopts(Recent(stored + [d])) >= DEMOTE_DEOPTS <==> SinceDemotion(outcomes + [d]) == []
    ensures Deopts(Recent(stored + [d])) < DEMOTE_DEOPTS ==>
              Recent(stored + [d]) == Recent(SinceDemotion(outcomes + [d]))
  {
    var since := SinceDemotion(outcomes);
    assert (outcomes + [d])[..|outcomes|] == outcomes;
    RecentOfRecent(since, d);
    WornIsDeopts(since + [d]);
  }

  // -- the transactions --

  lemma PromoteKeepsModes(db: Db, p: Promotion)
    requires ModesOk(db)
    ensures ModesOk(Promote(db, p))
  {
    if MayPromote(db, p) {
      PromotedIsActive(db, p);
      assert IsActive(Promote(db, p), p.task, p.script);
    }
  }

  lemma PromotedIsActive(db: Db, p: Promotion)
    requires ModesOk(db) && MayPromote(db, p)
    ensures forall t, x :: IsActive(Promote(db, p), t, x) <==>
              if t == p.task then x == p.script else IsActive(db, t, x)
  {
  }

  lemma RetireKeepsModes(db: Db, t: TaskId, task: Task)
    requires ModesOk(db) && t in db.tasks
    requires task.mode == (if ActiveScript(db, t).Some? then Ai else db.tasks[t].mode)
    ensures ModesOk(Retire(db, t).(tasks := db.tasks[t := task]))
    ensures forall x :: x in db.scripts && db.scripts[x].status == Invalidated ==>
              Retire(db, t).scripts[x].status == Invalidated
  {
    var db' := Retire(db, t).(tasks := db.tasks[t := task]);
    var active := ActiveScript(db, t);
    forall u, x ensures IsActive(db', u, x) <==> u != t && IsActive(db, u, x) {
      if active.None? || x != active.value { assert IsActive(db', u, x) <==> IsActive(db, u, x); }
    }
  }

  lemma SameScriptsKeepModes(db: Db, db': Db)
    requires ModesOk(db) && db'.scripts == db.scripts && db'.tasks.Keys >= db.tasks.Keys
    requires forall t :: t in db'.tasks ==>
               if t in db.tasks then db'.tasks[t].mode == db.tasks[t].mode
               else db'.tasks[t].mode == Ai && forall x :: x in db.scripts ==> db.scripts[x].task != t
    ensures ModesOk(db')
  {
    assert forall t, x :: IsActive(db', t, x) <==> IsActive(db, t, x);
  }

  lemma CandidateKeepsModes(db: Db, x: ScriptId, t: TaskId)
    requires ModesOk(db) && x !in db.scripts && t in db.tasks
    ensures ModesOk(db.(scripts := db.scripts[x := Script(t, Candidate)]))
  {
    var db' := db.(scripts := db.scripts[x := Script(t, Candidate)]);
    assert forall u, y :: IsActive(db', u, y) <==> IsActive(db, u, y);
  }

  lemma DemotionKeepsModes(db: Db, t: TaskId)
    requires ModesOk(db) && t in db.tasks
    ensures ModesOk(Retire(db, t).(tasks := db.tasks[t := db.tasks[t].(mode := Ai, recentDeopts := [])]))
  {
    assert ActiveScript(db, t).None? ==> db.tasks[t].mode == Ai;
    RetireKeepsModes(db, t, db.tasks[t].(mode := Ai, recentDeopts := []));
  }

  lemma RanKeepsModes(db: Db, t: TaskId, deopted: bool, using: Option<ScriptId>)
    requires ModesOk(db)
    ensures ModesOk(RecordRun(db, t, deopted, using))
  {
    if Demotes(db, t, deopted, using) { DemotionKeepsModes(db, t); }
    else { SameScriptsKeepModes(db, RecordRun(db, t, deopted, using)); }
  }

  lemma IncompatibleKeepsModes(db: Db, t: TaskId, script: ScriptId)
    requires ModesOk(db)
    ensures ModesOk(RuntimeChanged(db, t, script))
  {
    if t in db.tasks && ActiveScript(db, t) == Some(script) {
      RetireKeepsModes(db, t, db.tasks[t].(mode := Ai, cleanAiRuns := 0));
    }
  }

  predicate OnlyTasksOrJobs(e: Step) {
    e.AddTask? || e.Redefine? || e.Settle? || e.Queue? || e.Take? || e.Beat? || e.Finishing?
  }

  lemma TablesKeepModes(s: State, e: Step)
    requires ModesOk(s.db) && Enabled(s, e) && OnlyTasksOrJobs(e)
    ensures ModesOk(Apply(s, e).db)
  {
    var db := Apply(s, e).db;
    assert db.scripts == s.db.scripts;
    if e.AddTask? || e.Redefine? {
      assert db.tasks == s.db.tasks[e.t := db.tasks[e.t]];
    } else {
      assert db.tasks == s.db.tasks;
    }
    SameScriptsKeepModes(s.db, db);
  }

  lemma ApplyKeepsModes(s: State, e: Step)
    requires Inv(s) && Enabled(s, e)
    ensures ModesOk(Apply(s, e).db)
  {
    match e
    case ChangeGrants(t, hash) => RetireKeepsModes(s.db, t, Apply(s, e).db.tasks[t]);
    case AddCandidate(x, t) => CandidateKeepsModes(s.db, x, t);
    case Promoting(j, n, script, definition) =>
      PromoteKeepsModes(s.db, PromotionOf(s.claims[(j, n)], j, script, definition));
    case Ran(t, deopted, using) => RanKeepsModes(s.db, t, deopted, using);
    case Incompatible(t, script) => IncompatibleKeepsModes(s.db, t, script);
    case _ => TablesKeepModes(s, e);
  }

  // -- jobs and claims --

  lemma OtherJobsKeep(s: State, s': State)
    requires JobsOk(s.db) && ClaimsOk(s)
    requires s'.db.jobs == s.db.jobs && s'.claims == s.claims && s.db.tasks.Keys <= s'.db.tasks.Keys
    ensures JobsOk(s'.db) && ClaimsOk(s')
  {
  }

  /** One job changes without changing what it is for; it stays open only if it was. */
  lemma OneJobKeeps(s: State, j: JobId, job: Job, claims: map<(JobId, nat), Job>)
    requires JobsOk(s.db) && ClaimsOk(s) && j in s.db.jobs
    requires SameEvidence(job, s.db.jobs[j]) && (Open(job) ==> Open(s.db.jobs[j]))
    requires s.db.jobs[j].attempts <= job.attempts
    requires claims == s.claims || (claims == s.claims[(j, job.attempts) := job])
    requires job.status == Running ==> (j, job.attempts) in claims
    ensures var s' := s.(db := s.db.(jobs := s.db.jobs[j := job]), claims := claims); JobsOk(s'.db) && ClaimsOk(s')
  {
  }

  lemma QueueKeeps(s: State, j: JobId, job: Job)
    requires JobsOk(s.db) && ClaimsOk(s) && job.task in s.db.tasks
    ensures var s' := s.(db := Enqueue(s.db, j, job)); JobsOk(s'.db) && ClaimsOk(s')
  {
  }

  lemma BeatKeeps(s: State, j: JobId, n: nat, now: int)
    requires JobsOk(s.db) && ClaimsOk(s)
    ensures var s' := s.(db := Heartbeat(s.db, j, n, now)); JobsOk(s'.db) && ClaimsOk(s')
  {
    if HoldsClaim(s.db, j, n) { OneJobKeeps(s, j, Heartbeat(s.db, j, n, now).jobs[j], s.claims); }
  }

  lemma FinishKeeps(s: State, j: JobId, job: Job, outcome: Outcome, now: int)
    requires JobsOk(s.db) && ClaimsOk(s)
    ensures var s' := s.(db := Finish(s.db, j, job, outcome, now)); JobsOk(s'.db) && ClaimsOk(s')
  {
    if HoldsClaim(s.db, j, job.attempts) { OneJobKeeps(s, j, Finish(s.db, j, job, outcome, now).jobs[j], s.claims); }
  }

  lemma TakeKeeps(s: State, j: JobId, now: int)
    requires JobsOk(s.db) && ClaimsOk(s) && Claimable(s.db, s.settled, j, now)
    ensures var db := ClaimJob(s.db, j, now);
            var s' := s.(db := db, claims := s.claims[(j, db.jobs[j].attempts) := db.jobs[j]]);
            JobsOk(s'.db) && ClaimsOk(s')
  {
    var db := ClaimJob(s.db, j, now);
    OneJobKeeps(s, j, db.jobs[j], s.claims[(j, db.jobs[j].attempts) := db.jobs[j]]);
  }

  lemma ApplyKeepsJobs(s: State, e: Step)
    requires OneActive(s.db) && JobsOk(s.db) && ClaimsOk(s) && Enabled(s, e)
    ensures JobsOk(Apply(s, e).db) && ClaimsOk(Apply(s, e))
  {
    match e
    case Queue(j, job) => QueueKeeps(s, j, job);
    case Take(j, now) => TakeKeeps(s, j, now);
    case Beat(j, n, now) => BeatKeeps(s, j, n, now);
    case Finishing(j, n, outcome, now) => FinishKeeps(s, j, s.claims[(j, n)], outcome, now);
    case _ => OtherJobsKeep(s, Apply(s, e));
  }

  // -- windows --

  lemma SameWindowsKeep(s: State, s': State)
    requires WindowsOk(s) && s.outcomes == s'.outcomes && s.db.tasks.Keys == s'.db.tasks.Keys
    requires forall t :: t in s.db.tasks ==> s'.db.tasks[t].recentDeopts == s.db.tasks[t].recentDeopts
    ensures WindowsOk(s')
  {
  }

  lemma RecordedWindow(db: Db, t: TaskId, deopted: bool, using: Option<ScriptId>)
    requires OneActive(db) && Counts(db, t, using)
    ensures var window := Recent(db.tasks[t].recentDeopts + [deopted]);
            RecordRun(db, t, deopted, using).tasks ==
              db.tasks[t := RecordRun(db, t, deopted, using).tasks[t]]
            && RecordRun(db, t, deopted, using).tasks[t].recentDeopts ==
              (if Deopts(window) >= DEMOTE_DEOPTS then [] else window)
  {
  }

  lemma WindowKeeps(s: State, s': State, t: TaskId)
    requires WindowsOk(s) && t in s.db.tasks && t in s'.db.tasks && t in s'.outcomes
    requires s'.db.tasks == s.db.tasks[t := s'.db.tasks[t]] && s'.outcomes == s.outcomes[t := s'.outcomes[t]]
    requires s'.db.tasks[t].recentDeopts == Recent(SinceDemotion(s'.outcomes[t]))
    requires Deopts(s'.db.tasks[t].recentDeopts) < DEMOTE_DEOPTS
    ensures WindowsOk(s')
  {
  }

  lemma RanKeepsWindows(s: State, t: TaskId, deopted: bool, using: Option<ScriptId>)
    requires WindowsOk(s) && OneActive(s.db)
    ensures WindowsOk(Apply(s, Ran(t, deopted, using)))
  {
    if Counts(s.db, t, using) {
      RecordedWindow(s.db, t, deopted, using);
      WindowRefinesHistory(s.outcomes[t], s.db.tasks[t].recentDeopts, deopted);
      WindowKeeps(s, Apply(s, Ran(t, deopted, using)), t);
    }
  }

  /** One task's row changes, but not its window. */
  lemma OneTaskKeepsWindows(s: State, s': State, t: TaskId)
    requires WindowsOk(s) && s'.outcomes == s.outcomes && t in s.db.tasks && t in s'.db.tasks
    requires s'.db.tasks == s.db.tasks[t := s'.db.tasks[t]] && s'.db.tasks[t].recentDeopts == s.db.tasks[t].recentDeopts
    ensures WindowsOk(s')
  {
  }

  lemma AddKeepsWindows(s: State, t: TaskId, task: Task)
    requires OneActive(s.db) && WindowsOk(s) && Enabled(s, AddTask(t, task))
    ensures WindowsOk(Apply(s, AddTask(t, task)))
  {
  }

  lemma ApplyKeepsWindows(s: State, e: Step)
    requires OneActive(s.db) && WindowsOk(s) && Enabled(s, e)
    ensures WindowsOk(Apply(s, e))
  {
    match e
    case AddTask(t, task) => AddKeepsWindows(s, t, task);
    case Ran(t, deopted, using) => RanKeepsWindows(s, t, deopted, using);
    case Redefine(t, _, _) => OneTaskKeepsWindows(s, Apply(s, e), t);
    case ChangeGrants(t, _) => OneTaskKeepsWindows(s, Apply(s, e), t);
    case Promoting(j, n, script, definition) =>
      PromotedWindows(s.db, PromotionOf(s.claims[(j, n)], j, script, definition));
      SameWindowsKeep(s, Apply(s, e));
    case Incompatible(t, script) =>
      ChangedWindows(s.db, t, script);
      SameWindowsKeep(s, Apply(s, e));
    case _ =>
      assert Apply(s, e).db.tasks == s.db.tasks;
      SameWindowsKeep(s, Apply(s, e));
  }

  lemma PromotedWindows(db: Db, p: Promotion)
    requires OneActive(db)
    ensures Promote(db, p).tasks.Keys == db.tasks.Keys
    ensures forall t :: t in db.tasks ==> Promote(db, p).tasks[t].recentDeopts == db.tasks[t].recentDeopts
  {
  }

  lemma ChangedWindows(db: Db, t: TaskId, script: ScriptId)
    requires OneActive(db)
    ensures RuntimeChanged(db, t, script).tasks.Keys == db.tasks.Keys
    ensures forall u :: u in db.tasks ==>
              RuntimeChanged(db, t, script).tasks[u].recentDeopts == db.tasks[u].recentDeopts
  {
  }
}
