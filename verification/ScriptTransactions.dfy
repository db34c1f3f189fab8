/** What each transaction on the script tables comes to, in plain terms
    (packages/compiler/src/registry.ts, promotion.ts and jobs.ts). */
module ScriptTransactions {
  import opened Wrappers
  import opened ScriptStore
  import opened ScriptLifecycle

  /** This script, or none, is the active one. */
  ghost predicate Expected(db: Db, t: TaskId, expected: Option<ScriptId>) {
    match expected
    case None => forall x :: !IsActive(db, t, x)
    case Some(x) => IsActive(db, t, x)
  }

  /** A promotion needs the content, the definition, the claim and the artifact that its worker
      started from, and a browser task with a script of its own that was never invalidated. */
  ghost predicate Stands(db: Db, p: Promotion) {
    && p.task in db.tasks && db.tasks[p.task].browser
    && db.tasks[p.task].contentHash == p.contentHash
    && (p.definition == "" || db.tasks[p.task].definition == p.definition)
    && p.job in db.jobs && db.jobs[p.job].status == Running && db.jobs[p.job].attempts == p.attempts
    && Expected(db, p.task, p.expectedScript)
    && p.script in db.scripts && db.scripts[p.script].task == p.task
    && db.scripts[p.script].status in {Candidate, Active}
  }

  lemma PromotionIs(db: Db, p: Promotion)
    requires OneActive(db)
    ensures var db' := Promote(db, p);
            if !Stands(db, p) then db' == db
            else
              && db'.jobs == db.jobs && db'.scripts.Keys == db.scripts.Keys
              && db'.tasks == db.tasks[p.task := db.tasks[p.task].(mode := Compiled, cleanAiRuns := 0)]
              && forall x :: x in db.scripts ==>
                   db'.scripts[x] == if x == p.script then Script(p.task, Active)
                                     else if IsActive(db, p.task, x) then Script(p.task, Invalidated)
                                     else db.scripts[x]
  {
  }

  /** Three of the last ten outcomes are deopts. */
  ghost predicate WearsOut(outcomes: seq<bool>) {
    exists i, j, k :: |outcomes| - 10 <= i && ThreeDeopts(outcomes, i, j, k)
  }

  /** The task has lost its script, and its mode and window with it. */
  ghost predicate TakenBack(db: Db, db': Db, t: TaskId, recentDeopts: seq<bool>, cleanAiRuns: nat) {
    && t in db.tasks && db'.jobs == db.jobs && db'.scripts.Keys == db.scripts.Keys
    && db'.tasks ==
       db.tasks[t := db.tasks[t].(mode := Ai, recentDeopts := recentDeopts, cleanAiRuns := cleanAiRuns)]
    && forall x :: x in db.scripts ==>
         db'.scripts[x] == if IsActive(db, t, x) then Script(t, Invalidated) else db.scripts[x]
  }

  lemma RunIsRecorded(db: Db, t: TaskId, deopted: bool, script: Option<ScriptId>)
    requires OneActive(db)
    ensures var db' := RecordRun(db, t, deopted, script);
            if t !in db.tasks || (script.Some? && !IsActive(db, t, script.value)) then db' == db
            else
              var outcomes := db.tasks[t].recentDeopts + [deopted];
              if WearsOut(outcomes) then TakenBack(db, db', t, [], db.tasks[t].cleanAiRuns)
              else
                var window := if |outcomes| > 10 then outcomes[|outcomes| - 10..] else outcomes;
                db' == db.(tasks := db.tasks[t := db.tasks[t].(recentDeopts := window)])
  {
    if t in db.tasks {
      var outcomes := db.tasks[t].recentDeopts + [deopted];
      WornIsDeopts(outcomes);
      assert WearsOut(outcomes) <==> Worn(outcomes);
    }
  }

  lemma RuntimeChangeIs(db: Db, t: TaskId, script: ScriptId)
    requires OneActive(db)
    ensures var db' := RuntimeChanged(db, t, script);
            if t in db.tasks && IsActive(db, t, script) then TakenBack(db, db', t, db.tasks[t].recentDeopts, 0)
            else db' == db
  {
  }

  // ---- the queue ----

  lemma JobIsQueued(db: Db, j: JobId, job: Job)
    ensures var db' := Enqueue(db, j, job);
            if j in db.jobs
               || exists k :: k in db.jobs && db.jobs[k].task == job.task && db.jobs[k].status in {Queued, Running}
            then db' == db
            else db' == db.(jobs := db.jobs[j := job.(status := Queued, attempts := 0, maxAttempts := 2,
                                                      heartbeat := None)])
  {
  }

  /** A job is handed out when its run has settled and its time has come, if it waits or if its
      worker has been silent for five minutes. */
  lemma JobIsTaken(db: Db, settled: set<RunId>, j: JobId, now: int)
    ensures Claimable(db, settled, j, now) <==>
              && j in db.jobs && db.jobs[j].run in settled && now >= db.jobs[j].notBefore
              && (|| db.jobs[j].status == Queued
                  || (db.jobs[j].status == Running && db.jobs[j].heartbeat.Some?
                      && now - db.jobs[j].heartbeat.value >= 300000))
    ensures Claimable(db, settled, j, now) ==>
              ClaimJob(db, j, now) ==
              db.(jobs := db.jobs[j := db.jobs[j].(status := Running, attempts := db.jobs[j].attempts + 1,
                                                   heartbeat := Some(now))])
  {
  }

  /** Only under its own claim does an outcome count: a success and a refusal are final, and so
      is a failure, unless it may be retried and an attempt is left; then the job waits again. */
  lemma JobIsFinished(db: Db, j: JobId, job: Job, outcome: Outcome, now: int)
    ensures var db' := Finish(db, j, job, outcome, now);
            if j !in db.jobs || db.jobs[j].status != Running || db.jobs[j].attempts != job.attempts then db' == db
            else
              var row := db.jobs[j].(heartbeat := None);
              db' == db.(jobs := db.jobs[j :=
                match outcome
                case Success => row.(status := Succeeded)
                case Refusal => row.(status := Refused)
                case Failure(false) => row.(status := JobStatus.Failed)
                case Failure(true) =>
                  if job.attempts < job.maxAttempts then row.(status := Queued, notBefore := now + 30000)
                  else row.(status := JobStatus.Failed)])
  {
  }

  lemma BeatIs(db: Db, j: JobId, attempts: nat, now: int)
    ensures Heartbeat(db, j, attempts, now) ==
              if j in db.jobs && db.jobs[j].status == Running && db.jobs[j].attempts == attempts
              then db.(jobs := db.jobs[j := db.jobs[j].(heartbeat := Some(now))]) else db
  {
  }
}
