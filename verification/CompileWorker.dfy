/** `runOnce` of the compile worker (packages/agent/src/compile-loop.ts) as a client of the
    script tables. Between its transactions others may act, which ScriptLifecycle covers for
    every order of the steps; run alone, it does this with its claim. */
module CompileWorker {
  import opened Wrappers
  import opened ScriptStore
  import opened ScriptLifecycle

  /** What the compiler makes of the evidence: a refusal, an error, or a fresh candidate. */
  datatype Compiled = RefusedBy | Throws | Built(script: ScriptId)

  /** A transaction lands, lands although its caller sees an error, or fails. */
  datatype Write = Lands | LandsUnheard | Fails

  /** The learner's approval and definition, the compiler's answer, the time of the end, and what
      becomes of the promotion, of the result's write, and of the one in the `catch`. */
  datatype World = World(approved: bool, definition: string, compiled: Compiled, later: int,
    promotion: Write, result: Write, fallback: Write)

  datatype Report = NothingDue | Abandoned | Failed | NotPromoted | Promoted(script: ScriptId)

  function WithCandidate(db: Db, script: ScriptId, t: TaskId): Db {
    db.(scripts := db.scripts[script := Script(t, Candidate)])
  }

  predicate Wins(db: Db, j: JobId, job: Job, script: ScriptId, definition: string)
    requires OneActive(WithCandidate(db, script, job.task))
  {
    MayPromote(WithCandidate(db, script, job.task), PromotionOf(job, j, script, definition))
  }

  lemma CandidateIsNotActive(db: Db, script: ScriptId, t: TaskId)
    requires OneActive(db) && script !in db.scripts
    ensures OneActive(WithCandidate(db, script, t))
    ensures ActiveScript(WithCandidate(db, script, t), t) == ActiveScript(db, t)
  {
    var db' := WithCandidate(db, script, t);
    assert forall u, x :: IsActive(db', u, x) <==> IsActive(db, u, x);
  }

  /** Promoted exactly when the content, the definition and the expected artifact still stand. */
  lemma WinsIff(db: Db, j: JobId, job: Job, script: ScriptId, definition: string)
    requires OneActive(db) && script !in db.scripts && HoldsClaim(db, j, job.attempts) && job.task in db.tasks
    ensures OneActive(WithCandidate(db, script, job.task))
    ensures Wins(db, j, job, script, definition) <==>
              && db.tasks[job.task].contentHash == job.contentHash
              && (definition != "" ==> db.tasks[job.task].definition == definition)
              && ActiveScript(db, job.task) == job.expectedScript
              && db.tasks[job.task].browser
  {
    CandidateIsNotActive(db, script, job.task);
  }

  /** Where a pass leaves the job it claimed, having put `won` in place. The job is still
      running, to be reclaimed, only if the write in the `catch` failed too. */
  ghost predicate Left(db: Db, db': Db, j: JobId, job: Job, world: World, won: Option<ScriptId>) {
    && j in db'.jobs && SameEvidence(db'.jobs[j], job) && db'.jobs[j].attempts == job.attempts
    && (db'.jobs[j].status == Running ==> world.fallback.Fails? && db'.jobs[j] == job)
    && (db'.jobs[j].status == Queued ==> job.attempts < job.maxAttempts)
    && (db'.jobs[j].status == Succeeded <==> won.Some? && world.promotion.Lands? && !world.result.Fails?)
    && (won.Some? ==> WonBy(db', job.task, won.value))
    && (won.None? ==> db'.tasks == db.tasks && ScriptsKept(db, db'))
  }

  ghost predicate WonBy(db: Db, t: TaskId, script: ScriptId) {
    t in db.tasks && db.tasks[t].mode == Mode.Compiled && IsActive(db, t, script)
  }

  predicate ScriptsKept(db: Db, db': Db) {
    forall x :: x in db.scripts ==> x in db'.scripts && db'.scripts[x] == db.scripts[x]
  }

  /** The task still has the content it was queued with, its run is approved, and the compiler
      does not refuse it. */
  predicate Started(db: Db, job: Job, world: World) {
    && job.task in db.tasks && db.tasks[job.task].contentHash == job.contentHash
    && world.approved && !world.compiled.RefusedBy?
  }

  /** What a fresh candidate is promoted on, under a claim that is held. */
  ghost predicate StillStands(db: Db, job: Job, definition: string) {
    && job.task in db.tasks && db.tasks[job.task].browser
    && db.tasks[job.task].contentHash == job.contentHash
    && (definition == "" || db.tasks[job.task].definition == definition)
    && match job.expectedScript
       case None => forall x :: !IsActive(db, job.task, x)
       case Some(x) => IsActive(db, job.task, x)
  }

  /** What the pass reports. */
  function ReportOf(started: bool, world: World, won: Option<ScriptId>): Report {
    if started && (world.compiled.Throws? || !world.promotion.Lands?) then Report.Failed
    else if !world.result.Lands? then Report.Failed
    else if !started then Abandoned
    else if won.Some? then Promoted(won.value)
    else NotPromoted
  }

  /** The tables when the pass has given the job back: as its outcome, or, where an error kept it
      from that, as a failure that may be retried, if that can be written. */
  ghost function Ended(db: Db, j: JobId, job: Job, started: bool, world: World, won: Option<ScriptId>): Db {
    var failure := if world.fallback.Fails? then db else Finish(db, j, job, Failure(true), world.later);
    if started && (world.compiled.Throws? || !world.promotion.Lands?) then failure
    else if world.result.Fails? then failure
    else Finish(db, j, job, if won.Some? then Success else Refusal, world.later)
  }

  /** One worker's pass over the tables. The result's write may throw like any other; the
      `catch` then reports a failure, and swallows what that throws. */
  method RunOnce(tables: Tables, settled: set<RunId>, j: JobId, now: int, world: World)
      returns (report: Report, claimed: Option<Job>, won: Option<ScriptId>)
    requires OneActive(tables.Value())
    requires world.compiled.Built? ==> world.compiled.script !in tables.scripts
    modifies tables
    ensures claimed.Some? <==> Claimable(old(tables.Value()), settled, j, now)
    ensures claimed.None? ==> report.NothingDue? && tables.Value() == old(tables.Value())
    ensures claimed.Some? ==>
              && claimed.value == ClaimJob(old(tables.Value()), j, now).jobs[j]
              && Left(old(tables.Value()), tables.Value(), j, claimed.value, world, won)
    ensures won == if claimed.Some? && Started(old(tables.Value()), claimed.value, world) && world.compiled.Built?
                      && !world.promotion.Fails? && StillStands(old(tables.Value()), claimed.value, world.definition)
                   then Some(world.compiled.script) else None
    ensures claimed.Some? ==>
              && report == ReportOf(Started(old(tables.Value()), claimed.value, world), world, won)
              && tables.jobs ==
                 Ended(ClaimJob(old(tables.Value()), j, now), j, claimed.value,
                       Started(old(tables.Value()), claimed.value, world), world, won).jobs
  {
    won := None;
    claimed := tables.ClaimCompileJob(settled, j, now);
    if claimed.None? { return NothingDue, claimed, won; }
    var job := claimed.value;
    assert forall t, x :: IsActive(tables.Value(), t, x) <==> IsActive(old(tables.Value()), t, x);
    if job.task !in tables.tasks || tables.tasks[job.task].contentHash != job.contentHash
       || !world.approved || world.compiled.RefusedBy?
    {
      var threw := GiveBack(tables, j, job, Refusal, world);
      return if threw then Report.Failed else Abandoned, claimed, won;
    }
    if world.compiled.Throws? {
      FallBack(tables, j, job, world);
      return Report.Failed, claimed, won;
    }
    WinsIff(tables.Value(), j, job, world.compiled.script, world.definition);
    report, won := Offer(tables, j, job, world.compiled.script, world);
  }

  /** The candidate is stored and offered for promotion, and the job given back. */
  method Offer(tables: Tables, j: JobId, job: Job, script: ScriptId, world: World)
      returns (report: Report, won: Option<ScriptId>)
    requires OneActive(tables.Value()) && script !in tables.scripts
    requires j in tables.jobs && tables.jobs[j] == job && job.status == Running
    modifies tables
    ensures Left(old(tables.Value()), tables.Value(), j, job, world, won)
    ensures OneActive(WithCandidate(old(tables.Value()), script, job.task))
    ensures won == if !world.promotion.Fails? && Wins(old(tables.Value()), j, job, script, world.definition)
                   then Some(script) else None
    ensures report == if world.promotion.Lands? && world.result.Lands?
                      then if won.Some? then Promoted(script) else NotPromoted else Report.Failed
    ensures tables.jobs ==
              var failure := if world.fallback.Fails? then old(tables.Value())
                             else Finish(old(tables.Value()), j, job, Failure(true), world.later);
              (if !world.promotion.Lands? || world.result.Fails? then failure
               else Finish(old(tables.Value()), j, job, if won.Some? then Success else Refusal, world.later)).jobs
  {
    won := Propose(tables, j, job, script, world);
    if !world.promotion.Lands? {
      FallBack(tables, j, job, world);
      return Report.Failed, won;
    }
    var threw := GiveBack(tables, j, job, if won.Some? then Success else Refusal, world);
    report := if threw then Report.Failed else if won.Some? then Promoted(script) else NotPromoted;
  }

  method Propose(tables: Tables, j: JobId, job: Job, script: ScriptId, world: World) returns (won: Option<ScriptId>)
    requires OneActive(tables.Value()) && script !in tables.scripts
    requires j in tables.jobs && tables.jobs[j] == job && job.status == Running
    modifies tables
    ensures OneActive(WithCandidate(old(tables.Value()), script, job.task))
    ensures won == if !world.promotion.Fails? && Wins(old(tables.Value()), j, job, script, world.definition)
                   then Some(script) else None
    ensures tables.jobs == old(tables.jobs)
    ensures if won.Some? then WonBy(tables.Value(), job.task, script)
            else tables.tasks == old(tables.tasks) && ScriptsKept(old(tables.Value()), tables.Value())
  {
    won := None;
    CandidateIsNotActive(tables.Value(), script, job.task);
    tables.InsertCandidate(script, job.task);
    if !world.promotion.Fails? {
      var promoted := tables.PromoteTask(PromotionOf(job, j, script, world.definition));
      if promoted { won := Some(script); }
    }
  }

  /** The result is written. If that throws, the `catch` tries a failure in its place, which
      finds the claim gone if the result had landed after all. */
  method GiveBack(tables: Tables, j: JobId, job: Job, outcome: Outcome, world: World) returns (threw: bool)
    requires j in tables.jobs && tables.jobs[j] == job && job.status == Running && !outcome.Failure?
    modifies tables`jobs
    ensures threw <==> !world.result.Lands?
    ensures tables.Value() ==
              if !world.result.Fails? then Finish(old(tables.Value()), j, job, outcome, world.later)
              else if !world.fallback.Fails? then Finish(old(tables.Value()), j, job, Failure(true), world.later)
              else old(tables.Value())
  {
    if !world.result.Fails? { tables.FinishCompileJob(j, job, outcome, world.later); }
    threw := !world.result.Lands?;
    if threw { FallBack(tables, j, job, world); }
  }

  method FallBack(tables: Tables, j: JobId, job: Job, world: World)
    modifies tables`jobs
    ensures tables.Value() == if world.fallback.Fails? then old(tables.Value())
                              else Finish(old(tables.Value()), j, job, Failure(true), world.later)
  {
    if !world.fallback.Fails? { tables.FinishCompileJob(j, job, Failure(true), world.later); }
  }
}
