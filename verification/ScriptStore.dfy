/** Compiled scripts and the queue that produces them (packages/compiler/src/registry.ts,
    promotion.ts and jobs.ts): each function is one database transaction, and the class runs
    it statement by statement. */
module ScriptStore {
  import opened Wrappers

  type TaskId = string
  type ScriptId = string
  type JobId = string
  type RunId = string

  const DEMOTE_DEOPTS: nat := 3
  const DEOPT_WINDOW: nat := 10
  const STALE_MS: int := 300000
  const RETRY_DELAY_MS: int := 30000
  const MAX_ATTEMPTS: nat := 2           // the column's default, which nothing overrides

  datatype Mode = Ai | Compiled
  datatype Task = Task(browser: bool, mode: Mode, contentHash: Option<string>, definition: string,
    cleanAiRuns: nat, recentDeopts: seq<bool>)

  datatype ScriptStatus = Candidate | Active | Invalidated
  datatype Script = Script(task: TaskId, status: ScriptStatus)

  datatype JobStatus = Queued | Running | Succeeded | Refused | Failed
  datatype Job = Job(task: TaskId, run: RunId, contentHash: Option<string>, expectedScript: Option<ScriptId>,
    status: JobStatus, attempts: nat, maxAttempts: nat, notBefore: int, heartbeat: Option<int>)

  datatype Db = Db(tasks: map<TaskId, Task>, scripts: map<ScriptId, Script>, jobs: map<JobId, Job>)

  predicate IsActive(db: Db, t: TaskId, s: ScriptId) {
    s in db.scripts && db.scripts[s].task == t && db.scripts[s].status == Active
  }

  /** The partial unique index on active scripts. */
  ghost predicate OneActive(db: Db) {
    forall t, s, s' :: IsActive(db, t, s) && IsActive(db, t, s') ==> s == s'
  }

  function ActiveScript(db: Db, t: TaskId): (r: Option<ScriptId>)
    requires OneActive(db)
    ensures r.Some? ==> IsActive(db, t, r.value)
    ensures r.None? ==> forall s :: !IsActive(db, t, s)
  {
    if exists s :: s in db.scripts && IsActive(db, t, s) then
      var s :| s in db.scripts && IsActive(db, t, s); Some(s)
    else None
  }

  function Invalidate(db: Db, s: ScriptId): Db {
    if s in db.scripts then db.(scripts := db.scripts[s := db.scripts[s].(status := Invalidated)]) else db
  }

  /** `activateScript`: whatever held the place is invalidated, and this script takes it. */
  function Activate(db: Db, s: ScriptId): Db
    requires s in db.scripts
  {
    var retired := map x | x in db.scripts ::
      if db.scripts[x].task == db.scripts[s].task && db.scripts[x].status == Active && x != s
      then db.scripts[x].(status := Invalidated) else db.scripts[x];
    db.(scripts := retired[s := retired[s].(status := Active)])
  }

  /** What the worker passes to `promoteTask`, all of it taken from its claim. */
  datatype Promotion = Promotion(task: TaskId, script: ScriptId, contentHash: Option<string>,
    expectedScript: Option<ScriptId>, definition: string, job: JobId, attempts: nat)

  predicate HoldsClaim(db: Db, j: JobId, attempts: nat) {
    j in db.jobs && db.jobs[j].status == Running && db.jobs[j].attempts == attempts
  }

  predicate MayPromote(db: Db, p: Promotion)
    requires OneActive(db)
  {
    && p.task in db.tasks
    && db.tasks[p.task].contentHash == p.contentHash
    && (p.definition != "" ==> db.tasks[p.task].definition == p.definition)
    && HoldsClaim(db, p.job, p.attempts)
    && ActiveScript(db, p.task) == p.expectedScript
    && db.tasks[p.task].browser
    && p.script in db.scripts && db.scripts[p.script].task == p.task && db.scripts[p.script].status != Invalidated
  }

  function Promote(db: Db, p: Promotion): Db
    requires OneActive(db)
  {
    if !MayPromote(db, p) then db
    else
      var activated := Activate(db, p.script);
      activated.(tasks := db.tasks[p.task := db.tasks[p.task].(mode := Compiled, cleanAiRuns := 0)])
  }

  function Deopts(window: seq<bool>): nat {
    if window == [] then 0 else Deopts(window[..|window| - 1]) + (if window[|window| - 1] then 1 else 0)
  }

  /** `slice(-DEOPT_WINDOW)` */
  function Recent(outcomes: seq<bool>): seq<bool> {
    if |outcomes| <= DEOPT_WINDOW then outcomes else outcomes[|outcomes| - DEOPT_WINDOW..]
  }

  /** A run's outcome counts unless it names a script that is no longer the active one. */
  predicate Counts(db: Db, t: TaskId, script: Option<ScriptId>)
    requires OneActive(db)
  {
    t in db.tasks && (script.Some? ==> ActiveScript(db, t) == script)
  }

  predicate Demotes(db: Db, t: TaskId, deopted: bool, script: Option<ScriptId>)
    requires OneActive(db)
  {
    Counts(db, t, script) && Deopts(Recent(db.tasks[t].recentDeopts + [deopted])) >= DEMOTE_DEOPTS
  }

  function RecordRun(db: Db, t: TaskId, deopted: bool, script: Option<ScriptId>): Db
    requires OneActive(db)
  {
    if !Counts(db, t, script) then db
    else if !Demotes(db, t, deopted, script) then
      db.(tasks := db.tasks[t := db.tasks[t].(recentDeopts := Recent(db.tasks[t].recentDeopts + [deopted]))])
    else
      Retire(db, t).(tasks := db.tasks[t := db.tasks[t].(mode := Ai, recentDeopts := [])])
  }

  function Retire(db: Db, t: TaskId): Db
    requires OneActive(db)
  {
    if ActiveScript(db, t).Some? then Invalidate(db, ActiveScript(db, t).value) else db
  }

  /** The browser or script runtime changed: the executor takes its own script back. */
  function RuntimeChanged(db: Db, t: TaskId, script: ScriptId): Db
    requires OneActive(db)
  {
    if t !in db.tasks || ActiveScript(db, t) != Some(script) then db
    else Retire(db, t).(tasks := db.tasks[t := db.tasks[t].(mode := Ai, cleanAiRuns := 0)])
  }

  predicate Open(job: Job) {
    job.status == Queued || job.status == Running
  }

  /** `null` when the task already has an open job. */
  function Enqueue(db: Db, j: JobId, job: Job): Db {
    if j in db.jobs || exists k :: k in db.jobs && Open(db.jobs[k]) && db.jobs[k].task == job.task then db
    else db.(jobs := db.jobs[j := job.(status := Queued, attempts := 0, maxAttempts := MAX_ATTEMPTS,
        heartbeat := None)])
  }

  predicate Claimable(db: Db, settled: set<RunId>, j: JobId, now: int) {
    && j in db.jobs && db.jobs[j].notBefore <= now && db.jobs[j].run in settled
    && (db.jobs[j].status == Queued
        || (db.jobs[j].status == Running && db.jobs[j].heartbeat.Some? && db.jobs[j].heartbeat.value <= now - STALE_MS))
  }

  function ClaimJob(db: Db, j: JobId, now: int): Db
    requires j in db.jobs
  {
    db.(jobs := db.jobs[j := db.jobs[j].(status := Running, attempts := db.jobs[j].attempts + 1,
        heartbeat := Some(now))])
  }

  function Heartbeat(db: Db, j: JobId, attempts: nat, now: int): Db {
    if HoldsClaim(db, j, attempts) then db.(jobs := db.jobs[j := db.jobs[j].(heartbeat := Some(now))]) else db
  }

  datatype Outcome = Success | Refusal | Failure(retryable: bool)

  /** `job` is the row as the worker claimed it. */
  function Finish(db: Db, j: JobId, job: Job, outcome: Outcome, now: int): Db {
    if !HoldsClaim(db, j, job.attempts) then db
    else if outcome.Failure? && outcome.retryable && job.attempts < job.maxAttempts then
      db.(jobs := db.jobs[j := db.jobs[j].(status := Queued, heartbeat := None, notBefore := now + RETRY_DELAY_MS)])
    else
      var status := match outcome case Success => Succeeded case Refusal => Refused case Failure(_) => Failed;
      db.(jobs := db.jobs[j := db.jobs[j].(status := status, heartbeat := None)])
  }

  /** The tables, changed statement by statement as the transactions do. */
  class Tables {
    var tasks: map<TaskId, Task>
    var scripts: map<ScriptId, Script>
    var jobs: map<JobId, Job>

    function Value(): Db
      reads this
    {
      Db(tasks, scripts, jobs)
    }

    method InsertCandidate(s: ScriptId, t: TaskId)
      requires s !in scripts
      modifies this`scripts
      ensures Value() == old(Value()).(scripts := old(scripts)[s := Script(t, Candidate)])
    {
      scripts := scripts[s := Script(t, Candidate)];
    }

    /** After it this script alone is active for its task. What was active is invalidated, and
        nothing else is touched. */
    method ActivateScript(s: ScriptId)
      requires s in scripts
      modifies this`scripts
      ensures Value() == Activate(old(Value()), s)
      ensures forall x :: IsActive(Value(), scripts[s].task, x) <==> x == s
      ensures scripts.Keys == old(scripts).Keys
      ensures forall x :: x in scripts && scripts[x] != old(scripts)[x] ==>
                x == s || (IsActive(old(Value()), scripts[s].task, x) && scripts[x].status == Invalidated)
    {
      var task := scripts[s].task;
      scripts := map x | x in scripts ::
        if scripts[x].task == task && scripts[x].status == Active && x != s
        then scripts[x].(status := Invalidated) else scripts[x];
      scripts := scripts[s := scripts[s].(status := Active)];
      assert scripts == Activate(old(Value()), s).scripts;
    }

    method InvalidateScript(s: ScriptId)
      modifies this`scripts
      ensures Value() == Invalidate(old(Value()), s)
    {
      if s in scripts { scripts := scripts[s := scripts[s].(status := Invalidated)]; }
    }

    method PromoteTask(p: Promotion) returns (promoted: bool)
      requires OneActive(Value())
      modifies this`scripts, this`tasks
      ensures promoted == MayPromote(old(Value()), p)
      ensures Value() == Promote(old(Value()), p)
    {
      promoted := false;
      if p.task !in tasks { return; }
      var task := tasks[p.task];
      if task.contentHash != p.contentHash { return; }
      if p.definition != "" && task.definition != p.definition { return; }
      if p.job !in jobs || jobs[p.job].status != Running || jobs[p.job].attempts != p.attempts { return; }
      if ActiveScript(Value(), p.task) != p.expectedScript { return; }
      if !task.browser { return; }
      if p.script !in scripts || scripts[p.script].task != p.task || scripts[p.script].status == Invalidated { return; }
      ActivateScript(p.script);
      tasks := tasks[p.task := task.(mode := Compiled, cleanAiRuns := 0)];
      promoted := true;
    }

    method RecordCompiledRun(t: TaskId, deopted: bool, script: Option<ScriptId>)
          returns (demoted: bool, deoptsInWindow: nat)
      requires OneActive(Value())
      modifies this`scripts, this`tasks
      ensures demoted == Demotes(old(Value()), t, deopted, script)
      ensures demoted <==> deoptsInWindow >= DEMOTE_DEOPTS && Counts(old(Value()), t, script)
      ensures t in old(tasks) && !demoted ==> t in tasks && deoptsInWindow == Deopts(tasks[t].recentDeopts)
      ensures Value() == RecordRun(old(Value()), t, deopted, script)
    {
      if t !in tasks { return false, 0; }
      var current := tasks[t];
      var active := ActiveScript(Value(), t);
      if script.Some? && active != script { return false, Deopts(current.recentDeopts); }
      var window := Recent(current.recentDeopts + [deopted]);
      deoptsInWindow := Deopts(window);
      if deoptsInWindow < DEMOTE_DEOPTS {
        tasks := tasks[t := current.(recentDeopts := window)];
        return false, deoptsInWindow;
      }
      if active.Some? { InvalidateScript(active.value); }
      tasks := tasks[t := current.(mode := Ai, recentDeopts := [])];
      return true, deoptsInWindow;
    }

    method TakeBackIncompatible(t: TaskId, script: ScriptId)
      requires OneActive(Value())
      modifies this`scripts, this`tasks
      ensures Value() == RuntimeChanged(old(Value()), t, script)
    {
      var active := ActiveScript(Value(), t);
      if t in tasks && active == Some(script) {
        InvalidateScript(script);
        tasks := tasks[t := tasks[t].(mode := Ai, cleanAiRuns := 0)];
      }
    }

    method FinishCompileJob(j: JobId, job: Job, outcome: Outcome, now: int)
      modifies this`jobs
      ensures Value() == Finish(old(Value()), j, job, outcome, now)
    {
      var retry := outcome.Failure? && outcome.retryable && job.attempts < job.maxAttempts;
      if j !in jobs || jobs[j].status != Running || jobs[j].attempts != job.attempts { return; }
      if retry {
        jobs := jobs[j := jobs[j].(status := Queued, heartbeat := None, notBefore := now + RETRY_DELAY_MS)];
        return;
      }
      var status;
      match outcome {
        case Success => status := Succeeded;
        case Refusal => status := Refused;
        case Failure(_) => status := Failed;
      }
      jobs := jobs[j := jobs[j].(status := status, heartbeat := None)];
    }

    method HeartbeatCompileJob(j: JobId, attempts: nat, now: int)
      modifies this`jobs
      ensures Value() == Heartbeat(old(Value()), j, attempts, now)
    {
      if j in jobs && jobs[j].status == Running && jobs[j].attempts == attempts {
        jobs := jobs[j := jobs[j].(heartbeat := Some(now))];
      }
    }

    method ClaimCompileJob(settled: set<RunId>, j: JobId, now: int) returns (claimed: Option<Job>)
      modifies this`jobs
      ensures claimed.Some? <==> Claimable(old(Value()), settled, j, now)
      ensures Value() == if claimed.Some? then ClaimJob(old(Value()), j, now) else old(Value())
      ensures claimed.Some? ==> j in jobs && claimed.value == jobs[j]
      ensures tasks == old(tasks) && scripts == old(scripts)
    {
      if !Claimable(Value(), settled, j, now) { return None; }
      jobs := jobs[j := jobs[j].(status := Running, attempts := jobs[j].attempts + 1, heartbeat := Some(now))];
      return Some(jobs[j]);
    }
  }
}
