/** Any number of dispatchers at work on one outbox, with rollbacks after delivery
    (packages/bus/src/outbox.ts), and subscribers that guard themselves with `claim`
    (packages/bus/src/dedupe.ts).

    A batch is one transaction: its rows stay locked, and its updates and notices become
    visible together or not at all. What a subscriber did is not undone by a rollback. */
module OutboxRuns {
  import opened Wrappers
  import opened Outbox

  type DispatcherId = nat
  type TaskId = string

  datatype Verdict = Verdict(failed: bool, notice: EventId, now: int)

  /** An open batch: the rows it has locked, and the verdicts on those delivered so far. */
  datatype Batch = Batch(rows: seq<nat>, verdicts: seq<Verdict>)

  datatype Delivery = Delivery(event: EventId, answers: seq<Answer>)
  datatype Claim = Claim(task: TaskId, event: EventId, claimed: bool)

  datatype State = State(db: Db, batches: map<DispatcherId, Batch>, deliveries: seq<Delivery>,
    dedupe: set<(TaskId, EventId)>, claims: seq<Claim>)

  const Empty := State(Db([], []), map[], [], {}, [])

  datatype Step =
    | Emit(id: EventId, now: int)                              // a committed `publish`
    | Open(d: DispatcherId, now: int)                          // a batch locks its rows
    | Deliver(d: DispatcherId, answers: seq<Answer>, notice: EventId, now: int)
    | Commit(d: DispatcherId)
    | Rollback(d: DispatcherId)
    | ClaimEvent(task: TaskId, event: EventId)                 // a committed `claim`

  function Locked(s: State): set<nat> {
    set d, r | d in s.batches && r in s.batches[d].rows :: r
  }

  /** The batch's effect on the committed tables. */
  function SettleAll(c: Config, db: Db, rows: seq<nat>, verdicts: seq<Verdict>): Db
    requires CanSettleAll(c, db, rows, verdicts)
    decreases |rows|
  {
    if rows == [] then db
    else
      var v := verdicts[0];
      SettleAll(c, Settle(c, db, rows[0], v.failed, v.notice, v.now), rows[1..], verdicts[1..])
  }

  /** Every row is settled, and no generated event id is already in use: the primary key of
      the event table makes the transaction fail otherwise. */
  predicate CanSettleAll(c: Config, db: Db, rows: seq<nat>, verdicts: seq<Verdict>)
    decreases |rows|
  {
    && |rows| == |verdicts|
    && (rows != [] ==>
          && rows[0] < |db.rows| == |db.events|
          && verdicts[0].notice !in Ids(db)
          && CanSettleAll(c, Settle(c, db, rows[0], verdicts[0].failed, verdicts[0].notice, verdicts[0].now),
              rows[1..], verdicts[1..]))
  }

  /** `guarded` tasks call `claim` before they do anything else with a delivered event, so their
      claim is committed by the time they fulfil. */
  predicate Enabled(c: Config, guarded: set<TaskId>, s: State, e: Step) {
    match e
    case Emit(id, _) => id !in Ids(s.db)
    case Open(d, _) => d !in s.batches
    case Deliver(d, answers, _, _) =>
      && d in s.batches && |s.batches[d].verdicts| < |s.batches[d].rows|
      && s.batches[d].rows[|s.batches[d].verdicts|] < |s.db.rows|
      && ((forall k :: 0 <= k < |answers| ==> answers[k].Fulfilled?) ==>
            var event := s.db.rows[s.batches[d].rows[|s.batches[d].verdicts|]].event;
            forall task :: task in guarded ==> (task, event) in s.dedupe)
    case Commit(d) => d in s.batches && CanSettleAll(c, s.db, s.batches[d].rows, s.batches[d].verdicts)
    case Rollback(d) => d in s.batches
    case ClaimEvent(_, _) => true
  }

  function Apply(c: Config, guarded: set<TaskId>, s: State, e: Step): State
    requires Enabled(c, guarded, s, e)
  {
    match e
    case Emit(id, now) => s.(db := Publish(s.db, Event(id, Ordinary, None), now))
    case Open(d, now) => s.(batches := s.batches[d := Batch(DueFrom(s.db, Locked(s), now, 0, c.batchSize), [])])
    case Deliver(d, answers, notice, now) =>
      var b := s.batches[d];
      var event := s.db.rows[b.rows[|b.verdicts|]].event;
      s.(batches := s.batches[d := b.(verdicts := b.verdicts + [Verdict(Failed(answers), notice, now)])],
         deliveries := s.deliveries + [Delivery(event, answers)])
    case Commit(d) =>
      s.(db := SettleAll(c, s.db, s.batches[d].rows, s.batches[d].verdicts), batches := s.batches - {d})
    case Rollback(d) => s.(batches := s.batches - {d})
    case ClaimEvent(task, event) =>
      s.(dedupe := s.dedupe + {(task, event)}, claims := s.claims + [Claim(task, event, (task, event) !in s.dedupe)])
  }

  /** A batch may be rolled back at any time: its rows are free again, and nothing else is undone,
      least of all what was delivered. */
  lemma RollbackIs(c: Config, guarded: set<TaskId>, s: State, d: DispatcherId)
    requires d in s.batches
    ensures Enabled(c, guarded, s, Rollback(d))
    ensures var s' := Apply(c, guarded, s, Rollback(d));
            && s'.batches == s.batches - {d} && s'.db == s.db && s'.deliveries == s.deliveries
            && s'.dedupe == s.dedupe && s'.claims == s.claims
  {
  }

  ghost predicate Run(c: Config, guarded: set<TaskId>, s: State, es: seq<Step>, s': State)
    decreases |es|
  {
    if es == [] then s == s'
    else Enabled(c, guarded, s, es[0]) && Run(c, guarded, Apply(c, guarded, s, es[0]), es[1..], s')
  }

  // ---- what every step keeps ----

  /** Some delivery of the event was not counted as failed. */
  ghost predicate Succeeded(deliveries: seq<Delivery>, event: EventId) {
    exists k :: 0 <= k < |deliveries| && deliveries[k].event == event && !Failed(deliveries[k].answers)
  }

  ghost predicate DispatchedOk(db: Db, deliveries: seq<Delivery>) {
    forall r :: 0 <= r < |db.rows| && db.rows[r].status == Dispatched ==> Succeeded(deliveries, db.rows[r].event)
  }

  ghost predicate BatchOk(db: Db, deliveries: seq<Delivery>, b: Batch) {
    && |b.verdicts| <= |b.rows|
    && (forall k :: 0 <= k < |b.rows| ==> b.rows[k] < |db.rows| && db.rows[b.rows[k]].status == Pending)
    && (forall k, l :: 0 <= k < l < |b.rows| ==> b.rows[k] < b.rows[l])
    && (forall k :: 0 <= k < |b.verdicts| && !b.verdicts[k].failed ==> Succeeded(deliveries, db.rows[b.rows[k]].event))
  }

  ghost predicate BatchesOk(s: State) {
    && (forall d :: d in s.batches ==> BatchOk(s.db, s.deliveries, s.batches[d]))
    && (forall d, d', r ::
          d in s.batches && d' in s.batches && r in s.batches[d].rows && r in s.batches[d'].rows ==> d == d')
  }

  /** The first claim of a task on an event wins, and no other. */
  ghost predicate ClaimsOk(s: State) {
    && (forall k :: 0 <= k < |s.claims| ==> (s.claims[k].task, s.claims[k].event) in s.dedupe)
    && (forall t, e :: (t, e) in s.dedupe ==> exists k :: Wins(s.claims, k, t, e))
    && (forall j, k, t, e :: Wins(s.claims, j, t, e) && Wins(s.claims, k, t, e) ==> j == k)
  }

  predicate Wins(claims: seq<Claim>, k: nat, t: TaskId, e: EventId) {
    k < |claims| && claims[k] == Claim(t, e, true)
  }

  /** Guarded tasks have claimed every event that was delivered to the satisfaction of all. */
  ghost predicate GuardOk(guarded: set<TaskId>, s: State) {
    forall k, t :: 0 <= k < |s.deliveries| && t in guarded && AllFulfilled(s.deliveries[k].answers) ==>
      (t, s.deliveries[k].event) in s.dedupe
  }

  predicate AllFulfilled(answers: seq<Answer>) {
    forall k :: 0 <= k < |answers| ==> answers[k].Fulfilled?
  }

  ghost predicate Inv(c: Config, guarded: set<TaskId>, s: State) {
    && RowsOk(c, s.db) && NoticesOk(s.db) && DispatchedOk(s.db, s.deliveries)
    && BatchesOk(s) && ClaimsOk(s) && GuardOk(guarded, s)
  }

  /** Rows outside the batch keep their state; settled rows end as their verdict says. */
  lemma {:induction false} SettleAllKeeps(c: Config, db: Db, deliveries: seq<Delivery>, rows: seq<nat>,
        verdicts: seq<Verdict>)
    requires ConfigOk(c) && RowsOk(c, db) && NoticesOk(db) && DispatchedOk(db, deliveries)
    requires BatchOk(db, deliveries, Batch(rows, verdicts)) && CanSettleAll(c, db, rows, verdicts)
    ensures var db' := SettleAll(c, db, rows, verdicts);
            && RowsOk(c, db') && NoticesOk(db') && DispatchedOk(db', deliveries)
            && db.events <= db'.events && |db.rows| <= |db'.rows|
            && forall r :: 0 <= r < |db.rows| && r !in rows ==> db'.rows[r] == db.rows[r]
    decreases |rows|
  {
    if rows != [] {
      var v := verdicts[0];
      SettleKeepsRows(c, db, rows[0], v.failed, v.notice, v.now);
      SettleKeepsNotices(c, db, rows[0], v.failed, v.notice, v.now);
      var db1 := Settle(c, db, rows[0], v.failed, v.notice, v.now);
      FirstSettled(c, db, deliveries, rows, verdicts);
      SettleAllKeeps(c, db1, deliveries, rows[1..], verdicts[1..]);
      assert rows == [rows[0]] + rows[1..];
    }
  }

  lemma FirstSettled(c: Config, db: Db, deliveries: seq<Delivery>, rows: seq<nat>, verdicts: seq<Verdict>)
    requires ConfigOk(c) && RowsOk(c, db) && DispatchedOk(db, deliveries) && rows != []
    requires BatchOk(db, deliveries, Batch(rows, verdicts)) && CanSettleAll(c, db, rows, verdicts)
    ensures var db' := Settle(c, db, rows[0], verdicts[0].failed, verdicts[0].notice, verdicts[0].now);
            DispatchedOk(db', deliveries) && BatchOk(db', deliveries, Batch(rows[1..], verdicts[1..]))
  {
    var v := verdicts[0];
    var db' := Settle(c, db, rows[0], v.failed, v.notice, v.now);
    SettleKeepsRows(c, db, rows[0], v.failed, v.notice, v.now);
    SettledWasAccepted(c, db, deliveries, rows, verdicts);
    assert forall k :: 0 <= k < |rows| - 1 ==> rows[1..][k] == rows[k + 1] != rows[0];
    assert forall k :: 0 <= k < |verdicts| - 1 ==> verdicts[1..][k] == verdicts[k + 1];
  }

  lemma SettledWasAccepted(c: Config, db: Db, deliveries: seq<Delivery>, rows: seq<nat>, verdicts: seq<Verdict>)
    requires ConfigOk(c) && RowsOk(c, db) && DispatchedOk(db, deliveries) && rows != []
    requires BatchOk(db, deliveries, Batch(rows, verdicts)) && CanSettleAll(c, db, rows, verdicts)
    ensures DispatchedOk(Settle(c, db, rows[0], verdicts[0].failed, verdicts[0].notice, verdicts[0].now), deliveries)
  {
    var v := verdicts[0];
    SettleKeepsRows(c, db, rows[0], v.failed, v.notice, v.now);
  }

  /** One batch's commit leaves the rows of every other batch as they are. */
  lemma CommitKeepsBatches(c: Config, guarded: set<TaskId>, s: State, d: DispatcherId)
    requires ConfigOk(c) && Inv(c, guarded, s) && Enabled(c, guarded, s, Commit(d))
    ensures Inv(c, guarded, Apply(c, guarded, s, Commit(d)))
  {
    var b := s.batches[d];
    var db := SettleAll(c, s.db, b.rows, b.verdicts);
    SettleAllKeeps(c, s.db, s.deliveries, b.rows, b.verdicts);
    forall d' | d' in s.batches && d' != d ensures BatchOk(db, s.deliveries, s.batches[d']) {
      var b' := s.batches[d'];
      forall k | 0 <= k < |b'.rows| ensures b'.rows[k] !in b.rows {
        assert b'.rows[k] in b'.rows;
      }
    }
  }

  lemma OpenKeeps(c: Config, guarded: set<TaskId>, s: State, d: DispatcherId, now: int)
    requires ConfigOk(c) && Inv(c, guarded, s) && Enabled(c, guarded, s, Open(d, now))
    ensures Inv(c, guarded, Apply(c, guarded, s, Open(d, now)))
  {
    DueFromProperties(s.db, Locked(s), now, 0, c.batchSize);
  }

  lemma DeliverKeeps(c: Config, guarded: set<TaskId>, s: State, e: Step)
    requires ConfigOk(c) && Inv(c, guarded, s) && e.Deliver? && Enabled(c, guarded, s, e)
    ensures Inv(c, guarded, Apply(c, guarded, s, e))
  {
    var s' := Apply(c, guarded, s, e);
    var added := s'.deliveries[|s.deliveries|];
    SucceededStays(s.deliveries, added);
    var b, b' := s.batches[e.d], s'.batches[e.d];
    assert forall k :: 0 <= k < |b.verdicts| ==> b'.verdicts[k] == b.verdicts[k];
    assert BatchOk(s'.db, s'.deliveries, b');
  }

  lemma SucceededStays(deliveries: seq<Delivery>, added: Delivery)
    ensures forall event :: Succeeded(deliveries, event) ==> Succeeded(deliveries + [added], event)
    ensures !Failed(added.answers) ==> Succeeded(deliveries + [added], added.event)
  {
    var more := deliveries + [added];
    assert more[|deliveries|] == added;
    forall event | Succeeded(deliveries, event) ensures Succeeded(more, event) {
      var k :| 0 <= k < |deliveries| && deliveries[k].event == event && !Failed(deliveries[k].answers);
      assert more[k] == deliveries[k];
    }
  }

  lemma ClaimKeeps(c: Config, guarded: set<TaskId>, s: State, task: TaskId, event: EventId)
    requires Inv(c, guarded, s)
    ensures Inv(c, guarded, Apply(c, guarded, s, ClaimEvent(task, event)))
  {
    var s' := Apply(c, guarded, s, ClaimEvent(task, event));
    assert forall k, t, e :: Wins(s.claims, k, t, e) ==> Wins(s'.claims, k, t, e);
    assert Wins(s'.claims, |s.claims|, task, event) || (task, event) in s.dedupe;
    forall j: nat, k: nat, t, e | Wins(s'.claims, j, t, e) && Wins(s'.claims, k, t, e) ensures j == k {
      assert j < |s.claims| ==> Wins(s.claims, j, t, e);
      assert k < |s.claims| ==> Wins(s.claims, k, t, e);
    }
  }

  lemma EmitKeeps(c: Config, guarded: set<TaskId>, s: State, id: EventId, now: int)
    requires ConfigOk(c) && Inv(c, guarded, s) && Enabled(c, guarded, s, Emit(id, now))
    ensures Inv(c, guarded, Apply(c, guarded, s, Emit(id, now)))
  {
    var db := Publish(s.db, Event(id, Ordinary, None), now);
    assert forall i, r :: NoticeOf(s.db, i, r) <==> NoticeOf(db, i, r);
  }

  lemma ApplyKeeps(c: Config, guarded: set<TaskId>, s: State, e: Step)
    requires ConfigOk(c) && Inv(c, guarded, s) && Enabled(c, guarded, s, e)
    ensures Inv(c, guarded, Apply(c, guarded, s, e))
  {
    match e
    case Emit(id, now) => EmitKeeps(c, guarded, s, id, now);
    case Open(d, now) => OpenKeeps(c, guarded, s, d, now);
    case Deliver(_, _, _, _) => DeliverKeeps(c, guarded, s, e);
    case Commit(d) => CommitKeepsBatches(c, guarded, s, d);
    case Rollback(d) =>
    case ClaimEvent(task, event) => ClaimKeeps(c, guarded, s, task, event);
  }

  lemma {:induction false} RunKeeps(c: Config, guarded: set<TaskId>, s: State, es: seq<Step>, s': State)
    requires ConfigOk(c) && Inv(c, guarded, s) && Run(c, guarded, s, es, s')
    ensures Inv(c, guarded, s')
    ensures s.db.events <= s'.db.events && |s.db.rows| <= |s'.db.rows|
    ensures forall r :: 0 <= r < |s.db.rows| && s.db.rows[r].status != Pending ==> s'.db.rows[r] == s.db.rows[r]
    decreases |es|
  {
    if es != [] {
      var next := Apply(c, guarded, s, es[0]);
      ApplyKeeps(c, guarded, s, es[0]);
      if es[0].Commit? {
        var b := s.batches[es[0].d];
        SettleAllKeeps(c, s.db, s.deliveries, b.rows, b.verdicts);
        forall r | 0 <= r < |s.db.rows| && s.db.rows[r].status != Pending ensures next.db.rows[r] == s.db.rows[r] {
          assert r !in b.rows;
        }
      }
      RunKeeps(c, guarded, next, es[1..], s');
    }
  }

  // ---- what this means ----

  ghost predicate Reachable(c: Config, guarded: set<TaskId>, s: State) {
    exists es :: Run(c, guarded, Empty, es, s)
  }

  lemma ReachableInv(c: Config, guarded: set<TaskId>, s: State)
    requires ConfigOk(c) && Reachable(c, guarded, s)
    ensures Inv(c, guarded, s)
  {
    var es :| Run(c, guarded, Empty, es, s);
    RunKeeps(c, guarded, Empty, es, s);
  }

  /** Every committed event has one row, for ever: waiting with attempts left, delivered, or
      dead with its attempts spent. */
  lemma NoEventIsLost(c: Config, guarded: set<TaskId>, s: State, es: seq<Step>, s': State, event: EventId)
        returns (r: nat)
    requires ConfigOk(c) && Reachable(c, guarded, s) && Run(c, guarded, s, es, s') && event in Ids(s.db)
    ensures r < |s'.db.rows| && s'.db.rows[r].event == event
    ensures forall q :: 0 <= q < |s'.db.rows| && s'.db.rows[q].event == event ==> q == r
    ensures match s'.db.rows[r].status
      case Pending => s'.db.rows[r].attempts < c.maxAttempts
      case Dispatched => Succeeded(s'.deliveries, event)
      case DeadLetter => s'.db.rows[r].attempts == c.maxAttempts
  {
    ReachableInv(c, guarded, s);
    RunKeeps(c, guarded, s, es, s');
    var e :| e in s.db.events && e.id == event;
    r :| 0 <= r < |s.db.events| && s.db.events[r] == e;
    assert s'.db.events[r] == e;
  }

  /** Two open batches never deliver the same row, and both see it pending. */
  lemma RowsHaveOneDispatcher(c: Config, guarded: set<TaskId>, s: State, d: DispatcherId, d': DispatcherId, r: nat)
    requires ConfigOk(c) && Reachable(c, guarded, s)
    requires d in s.batches && d' in s.batches && r in s.batches[d].rows && r in s.batches[d'].rows
    ensures d == d' && r < |s.db.rows| && s.db.rows[r].status == Pending
  {
    ReachableInv(c, guarded, s);
    var k :| 0 <= k < |s.batches[d].rows| && s.batches[d].rows[k] == r;
  }

  lemma NoticesMatchDeadLetters(c: Config, guarded: set<TaskId>, s: State)
    requires ConfigOk(c) && Reachable(c, guarded, s)
    ensures forall r | 0 <= r < |s.db.rows| && r < |s.db.events| && s.db.rows[r].status == DeadLetter ::
              s.db.events[r].kind == Ordinary ==>
              exists i :: NoticeOf(s.db, i, r) && forall j :: NoticeOf(s.db, j, r) ==> j == i
    ensures forall i :: 0 <= i < |s.db.events| && s.db.events[i].kind == Notice ==>
              exists r: nat :: NoticeOf(s.db, i, r) && s.db.events[i].cause == Some(s.db.events[r].id)
                          && s.db.events[r].kind == Ordinary && s.db.rows[r].status == DeadLetter
  {
    ReachableInv(c, guarded, s);
  }

  ghost predicate TruthyReasons(deliveries: seq<Delivery>) {
    forall k, j :: 0 <= k < |deliveries| && 0 <= j < |deliveries[k].answers| ==>
        deliveries[k].answers[j] != Rejected(false)
  }

  /** With truthy reasons a dispatched event has had a delivery that every subscriber accepted. */
  lemma DispatchedWasAccepted(c: Config, guarded: set<TaskId>, s: State, r: nat) returns (n: nat)
    requires ConfigOk(c) && Reachable(c, guarded, s) && TruthyReasons(s.deliveries)
    requires r < |s.db.rows| && s.db.rows[r].status == Dispatched
    ensures n < |s.deliveries| && s.deliveries[n].event == s.db.rows[r].event && AllFulfilled(s.deliveries[n].answers)
  {
    ReachableInv(c, guarded, s);
    n :| 0 <= n < |s.deliveries| && s.deliveries[n].event == s.db.rows[r].event && !Failed(s.deliveries[n].answers);
    var first := FirstRejectionDecides(s.deliveries[n].answers);
  }

  /** A guarded task acts exactly once on each dispatched event, however often it was delivered. */
  lemma ClaimedExactlyOnce(c: Config, guarded: set<TaskId>, s: State, r: nat, task: TaskId) returns (k: nat)
    requires ConfigOk(c) && Reachable(c, guarded, s) && TruthyReasons(s.deliveries)
    requires r < |s.db.rows| && s.db.rows[r].status == Dispatched && task in guarded
    ensures Wins(s.claims, k, task, s.db.rows[r].event)
    ensures forall j :: Wins(s.claims, j, task, s.db.rows[r].event) ==> j == k
  {
    ReachableInv(c, guarded, s);
    var event := s.db.rows[r].event;
    var n := DispatchedWasAccepted(c, guarded, s, r);
    assert (task, event) in s.dedupe;
    k :| Wins(s.claims, k, task, event);
  }

  /** Without truthy reasons it fails: an event is dispatched although its only subscriber, a
      guarded one, rejected it before claiming anything. */
  lemma FalsyReasonDropsWork(c: Config) returns (s: State)
    requires ConfigOk(c)
    ensures Reachable(c, {"task"}, s)
    ensures |s.db.rows| == 1 && s.db.rows[0].status == Dispatched && s.claims == []
  {
    var g := {"task"};
    var s1 := Apply(c, g, Empty, Emit(0, 0));
    assert Due(s1.db, {}, 0, 0);
    assert Locked(s1) == {};
    assert DueFrom(s1.db, {}, 0, 0, c.batchSize) == [0] + DueFrom(s1.db, {}, 0, 1, c.batchSize - 1);
    var s2 := Apply(c, g, s1, Open(0, 0));
    assert s2.batches[0] == Batch([0], []);
    var answers := [Rejected(false)];
    assert !Failed(answers);
    var deliver := Deliver(0, answers, 1, 0);
    var s3 := Apply(c, g, s2, deliver);
    assert s3.batches[0] == Batch([0], [Verdict(false, 1, 0)]);
    assert CanSettleAll(c, Settle(c, s3.db, 0, false, 1, 0), [], []);
    assert [0][1..] == [] && [Verdict(false, 1, 0)][1..] == [];
    s := Apply(c, g, s3, Commit(0));
    FourSteps(c, g, Empty, Emit(0, 0), s1, Open(0, 0), s2, deliver, s3, Commit(0));
  }

  lemma FourSteps(c: Config, guarded: set<TaskId>, s: State, e: Step, s1: State, e1: Step, s2: State, e2: Step,
      s3: State, e3: Step)
    requires Enabled(c, guarded, s, e) && s1 == Apply(c, guarded, s, e)
    requires Enabled(c, guarded, s1, e1) && s2 == Apply(c, guarded, s1, e1)
    requires Enabled(c, guarded, s2, e2) && s3 == Apply(c, guarded, s2, e2)
    requires Enabled(c, guarded, s3, e3)
    ensures Run(c, guarded, s, [e, e1, e2, e3], Apply(c, guarded, s3, e3))
  {
    var es, s' := [e, e1, e2, e3], Apply(c, guarded, s3, e3);
    assert Run(c, guarded, s3, es[3..], s');
    assert Run(c, guarded, s2, es[2..], s') by { assert es[2..][1..] == es[3..]; }
    assert Run(c, guarded, s1, es[1..], s') by { assert es[1..][1..] == es[2..]; }
  }
}
