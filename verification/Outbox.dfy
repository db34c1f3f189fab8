/** The transactional outbox (packages/bus/src/outbox.ts): rows, one dispatcher's batch, and
    `drain`. A row's id is its index; the event it stands for has the same index. */
module Outbox {
  import opened Wrappers

  type EventId = nat

  datatype Kind = Ordinary | Notice
  datatype Event = Event(id: EventId, kind: Kind, cause: Option<EventId>)

  datatype Status = Pending | Dispatched | DeadLetter
  datatype Row = Row(event: EventId, status: Status, attempts: nat, nextAttempt: int)

  datatype Db = Db(events: seq<Event>, rows: seq<Row>)

  datatype Config = Config(maxAttempts: nat, batchSize: nat, backoffBase: nat, backoffMax: nat)

  /** One subscriber's answer. JavaScript lets a handler reject with a falsy reason. */
  datatype Answer = Fulfilled | Rejected(truthy: bool)

  /** `deliver`, and the test of its result: the reason of the first rejection is the error. */
  function Failed(answers: seq<Answer>): bool {
    if answers == [] then false
    else match answers[0]
      case Fulfilled => Failed(answers[1..])
      case Rejected(truthy) => truthy
  }

  /** The first rejection alone decides, by the truth value of its reason; a falsy one hides
      itself and every later rejection. */
  lemma {:induction false} FirstRejectionDecides(answers: seq<Answer>) returns (k: nat)
    ensures k <= |answers| && forall j :: 0 <= j < k ==> answers[j].Fulfilled?
    ensures k < |answers| ==> answers[k].Rejected? && (Failed(answers) <==> answers[k].truthy)
    ensures k == |answers| ==> !Failed(answers)
  {
    if answers == [] || answers[0].Rejected? {
      k := 0;
    } else {
      k := FirstRejectionDecides(answers[1..]);
      assert forall j :: 0 < j <= k ==> answers[j] == answers[1..][j - 1] || j == k;
      k := k + 1;
    }
  }

  function Power(base: nat, n: nat): nat {
    if n == 0 then 1 else base * Power(base, n - 1)
  }

  function Backoff(c: Config, attempts: nat): nat
    requires attempts >= 1
  {
    var delay := c.backoffBase * Power(2, attempts - 1);
    if delay < c.backoffMax then delay else c.backoffMax
  }

  /** The first delay is the base, each further one is twice the one before, and none is longer
      than the maximum. */
  lemma BackoffDoubles(c: Config, attempts: nat)
    requires attempts >= 1
    ensures Backoff(c, 1) == if c.backoffBase < c.backoffMax then c.backoffBase else c.backoffMax
    ensures Backoff(c, attempts + 1) ==
              if 2 * Backoff(c, attempts) < c.backoffMax then 2 * Backoff(c, attempts) else c.backoffMax
  {
    assert Power(2, 0) == 1;
    assert Power(2, attempts) == 2 * Power(2, attempts - 1);
    assert c.backoffBase * Power(2, attempts) == 2 * (c.backoffBase * Power(2, attempts - 1));
  }

  /** `publish`: the event and its row are written together. */
  function Publish(db: Db, e: Event, now: int): Db {
    Db(db.events + [e], db.rows + [Row(e.id, Pending, 0, now)])
  }

  function Ids(db: Db): set<EventId> {
    set e | e in db.events :: e.id
  }

  predicate Due(db: Db, locked: set<nat>, now: int, r: nat) {
    r < |db.rows| && db.rows[r].status == Pending && db.rows[r].nextAttempt <= now && r !in locked
  }

  /** The due rows from `r` on, in order, at most `limit` of them; rows locked by another
      dispatcher are skipped. */
  function DueFrom(db: Db, locked: set<nat>, now: int, r: nat, limit: nat): seq<nat>
    requires r <= |db.rows|
    decreases |db.rows| - r
  {
    if r == |db.rows| || limit == 0 then []
    else if Due(db, locked, now, r) then [r] + DueFrom(db, locked, now, r + 1, limit - 1)
    else DueFrom(db, locked, now, r + 1, limit)
  }

  /** The settlement of one delivered row. */
  function Settle(c: Config, db: Db, r: nat, failed: bool, notice: EventId, now: int): Db
    requires r < |db.rows| == |db.events|
  {
    var row := db.rows[r];
    if !failed then db.(rows := db.rows[r := row.(status := Dispatched)])
    else if row.attempts + 1 >= c.maxAttempts then
      var dead := db.(rows := db.rows[r := row.(status := DeadLetter, attempts := row.attempts + 1)]);
      if db.events[r].kind == Notice then dead
      else Publish(dead, Event(notice, Notice, Some(db.events[r].id)), now)
    else
      db.(rows := db.rows[r := row.(attempts := row.attempts + 1, nextAttempt := now + Backoff(c, row.attempts + 1))])
  }

  // ---- what settling keeps ----

  predicate ConfigOk(c: Config) {
    c.maxAttempts >= 1 && c.batchSize >= 1
  }

  /** Every event has exactly one row, and pending rows have attempts left. */
  ghost predicate RowsOk(c: Config, db: Db) {
    && |db.rows| == |db.events|
    && (forall i :: 0 <= i < |db.rows| ==> db.rows[i].event == db.events[i].id)
    && (forall i, j :: 0 <= i < j < |db.events| ==> db.events[i].id != db.events[j].id)
    && (forall i :: 0 <= i < |db.rows| ==>
          (db.rows[i].status == Pending ==> db.rows[i].attempts < c.maxAttempts)
          && (db.rows[i].status == DeadLetter ==> db.rows[i].attempts == c.maxAttempts))
  }

  /** Event `i` is the dead-letter notice of event `r`. */
  ghost predicate NoticeOf(db: Db, i: nat, r: nat) {
    && i < |db.events| && r < |db.events| <= |db.rows|
    && db.events[i].kind == Notice && db.events[i].cause == Some(db.events[r].id)
    && db.events[r].kind == Ordinary && db.rows[r].status == DeadLetter
  }

  /** Dead-lettered ordinary events and notices correspond one to one. */
  ghost predicate NoticesOk(db: Db) {
    && (forall i :: 0 <= i < |db.events| && db.events[i].kind == Notice ==> exists r :: NoticeOf(db, i, r))
    && (forall r | 0 <= r < |db.events| <= |db.rows| && db.events[r].kind == Ordinary ::
          db.rows[r].status == DeadLetter ==> exists i :: NoticeOf(db, i, r))
    && (forall i, j, r :: NoticeOf(db, i, r) && NoticeOf(db, j, r) ==> i == j)
  }

  lemma SettleKeepsRows(c: Config, db: Db, r: nat, failed: bool, notice: EventId, now: int)
    requires ConfigOk(c) && RowsOk(c, db) && r < |db.rows| && db.rows[r].status == Pending && notice !in Ids(db)
    ensures RowsOk(c, Settle(c, db, r, failed, notice, now))
    ensures db.events <= Settle(c, db, r, failed, notice, now).events
    ensures var rows := Settle(c, db, r, failed, notice, now).rows;
            |rows| >= |db.rows| && forall k :: 0 <= k < |db.rows| && k != r ==> rows[k] == db.rows[k]
  {
  }

  lemma SettleKeepsNotices(c: Config, db: Db, r: nat, failed: bool, notice: EventId, now: int)
    requires ConfigOk(c) && RowsOk(c, db) && NoticesOk(db)
    requires r < |db.rows| && db.rows[r].status == Pending && notice !in Ids(db)
    ensures NoticesOk(Settle(c, db, r, failed, notice, now))
  {
    var db' := Settle(c, db, r, failed, notice, now);
    forall i | 0 <= i < |db'.events| && db'.events[i].kind == Notice ensures exists q :: NoticeOf(db', i, q) {
      if i < |db.events| {
        var q :| NoticeOf(db, i, q);
        assert NoticeOf(db', i, q);
      } else {
        assert NoticeOf(db', i, r);
      }
    }
    forall q | 0 <= q < |db'.events| && db'.events[q].kind == Ordinary && db'.rows[q].status == DeadLetter
      ensures exists i :: NoticeOf(db', i, q)
    {
      if q == r {
        assert NoticeOf(db', |db.events|, r);
      } else {
        var i :| NoticeOf(db, i, q);
        assert NoticeOf(db', i, q);
      }
    }
    forall i, j, q | NoticeOf(db', i, q) && NoticeOf(db', j, q) ensures i == j {
      NoticeWasThere(c, db, r, failed, notice, now, i, q);
      NoticeWasThere(c, db, r, failed, notice, now, j, q);
    }
  }

  lemma NoticeWasThere(c: Config, db: Db, r: nat, failed: bool, notice: EventId, now: int, i: nat, q: nat)
    requires ConfigOk(c) && RowsOk(c, db) && NoticesOk(db)
    requires r < |db.rows| && db.rows[r].status == Pending && notice !in Ids(db)
    requires NoticeOf(Settle(c, db, r, failed, notice, now), i, q)
    ensures if q == r then i == |db.events| else NoticeOf(db, i, q)
  {
    var db' := Settle(c, db, r, failed, notice, now);
    if i < |db.events| {
      var was: nat :| NoticeOf(db, i, was);
      assert db'.events[was].id == db'.events[q].id;
    }
  }

  // ---- the work that remains ----

  /** The deliveries a row can still need; an ordinary event may also leave a notice behind. */
  function Weight(c: Config, db: Db, r: nat): nat
    requires r < |db.rows| == |db.events|
  {
    var row := db.rows[r];
    if row.status != Pending || row.attempts >= c.maxAttempts then 0
    else c.maxAttempts - row.attempts + (if db.events[r].kind == Ordinary then c.maxAttempts else 0)
  }

  function Work(c: Config, db: Db, n: nat): nat
    requires n <= |db.rows| == |db.events|
  {
    if n == 0 then 0 else Work(c, db, n - 1) + Weight(c, db, n - 1)
  }

  lemma {:induction false} WorkAfterUpdate(c: Config, db: Db, db': Db, r: nat, n: nat)
    requires n <= |db.rows| == |db.events| && n <= |db'.rows| == |db'.events| && r < |db.rows| && r < |db'.rows|
    requires forall k :: 0 <= k < n ==> db'.events[k] == db.events[k] && (k != r ==> db'.rows[k] == db.rows[k])
    ensures Work(c, db', n) == Work(c, db, n) + (if r < n then Weight(c, db', r) - Weight(c, db, r) else 0)
  {
    if n > 0 { WorkAfterUpdate(c, db, db', r, n - 1); }
  }

  lemma SettleReducesWork(c: Config, db: Db, r: nat, failed: bool, notice: EventId, now: int)
    requires ConfigOk(c) && RowsOk(c, db) && r < |db.rows| && db.rows[r].status == Pending && notice !in Ids(db)
    ensures var db' := Settle(c, db, r, failed, notice, now);
            |db'.rows| == |db'.events| && Work(c, db', |db'.rows|) < Work(c, db, |db.rows|)
  {
    var db' := Settle(c, db, r, failed, notice, now);
    WorkAfterUpdate(c, db, db', r, |db.rows|);
  }

  lemma {:induction false} DueFromProperties(db: Db, locked: set<nat>, now: int, r: nat, limit: nat)
    requires r <= |db.rows|
    ensures var due := DueFrom(db, locked, now, r, limit);
            && |due| <= limit
            && (forall k :: 0 <= k < |due| ==>
                  && r <= due[k] < |db.rows| && db.rows[due[k]].status == Pending
                  && db.rows[due[k]].nextAttempt <= now && due[k] !in locked)
            && (forall k, l :: 0 <= k < l < |due| ==> due[k] < due[l])
            && (forall q | r <= q < |db.rows| && db.rows[q].status == Pending && db.rows[q].nextAttempt <= now
                           && q !in locked && q !in due ::
                  |due| == limit && (limit > 0 ==> due[limit - 1] < q))
    decreases |db.rows| - r
  {
    if r < |db.rows| && limit > 0 {
      DueFromProperties(db, locked, now, r + 1, if Due(db, locked, now, r) then limit - 1 else limit);
    }
  }

  /** Smallest id above every event: stands for `randomUUID`. */
  function FreshId(events: seq<Event>): (id: EventId)
    ensures forall e :: e in events ==> e.id < id
  {
    if events == [] then 0
    else
      var before := FreshId(events[..|events| - 1]);
      var last := events[|events| - 1];
      assert events == events[..|events| - 1] + [last];
      if before <= last.id then last.id + 1 else before
  }

  /** A row's whole new state after one delivery. */
  ghost predicate Settled(c: Config, was: Row, row: Row, failed: bool, now: int) {
    && row.event == was.event
    && (!failed ==> row == was.(status := Dispatched))
    && (failed && was.attempts + 1 >= c.maxAttempts ==> row == was.(status := DeadLetter, attempts := was.attempts + 1))
    && (failed && was.attempts + 1 < c.maxAttempts ==>
          row == was.(attempts := was.attempts + 1, nextAttempt := now + Backoff(c, was.attempts + 1)))
  }

  lemma SettleSettles(c: Config, db: Db, r: nat, failed: bool, notice: EventId, now: int)
    requires r < |db.rows| == |db.events|
    ensures var rows := Settle(c, db, r, failed, notice, now).rows;
            && r < |rows| && Settled(c, db.rows[r], rows[r], failed, now)
            && forall k :: |db.rows| <= k < |rows| ==> Published(rows[k])
  {
  }

  type Deliver = (Event, nat) -> seq<Answer>

  /** The rows in `done` have been delivered once; the others, and all events, are as before. */
  ghost predicate Progress(c: Config, was: Db, db: Db, done: seq<nat>, deliver: Deliver, now: int) {
    && |was.rows| == |was.events| && |was.rows| <= |db.rows| && was.events <= db.events
    && (forall r :: 0 <= r < |was.rows| && r !in done ==> db.rows[r] == was.rows[r])
    && (forall r :: r in done ==> r < |was.rows|)
    && (forall r :: r in done ==>
          Settled(c, was.rows[r], db.rows[r], Failed(deliver(was.events[r], was.rows[r].attempts)), now))
    && (forall r :: |was.rows| <= r < |db.rows| ==> Published(db.rows[r]))
  }

  predicate Published(row: Row) {
    row.status == Pending && row.attempts == 0
  }

  lemma ProgressStep(c: Config, was: Db, mid: Db, db: Db, done: seq<nat>, r: nat, deliver: Deliver, now: int)
    requires Progress(c, was, mid, done, deliver, now) && r < |was.rows| && r !in done
    requires mid.events <= db.events && |mid.rows| <= |db.rows|
    requires forall k :: 0 <= k < |mid.rows| && k != r ==> db.rows[k] == mid.rows[k]
    requires forall k :: |mid.rows| <= k < |db.rows| ==> Published(db.rows[k])
    requires Settled(c, mid.rows[r], db.rows[r], Failed(deliver(was.events[r], was.rows[r].attempts)), now)
    ensures Progress(c, was, db, done + [r], deliver, now)
  {
  }

  // ---- what became of each row ----

  /** What a row was before anything happened to it. */
  function StartOf(was: Db, db: Db, r: nat): Row
    requires r < |db.rows| == |db.events|
  {
    if r < |was.rows| then was.rows[r] else Row(db.events[r].id, Pending, 0, db.rows[r].nextAttempt)
  }

  /** Every attempt but the last at a row's event counted as failed; the last one counted as a
      success if the row is dispatched, and the row is dead exactly when there is none left. */
  ghost predicate Fared(c: Config, e: Event, start: Row, row: Row, deliver: Deliver) {
    && row.event == start.event && start.attempts <= row.attempts
    && (start.status != Pending ==> row == start)
    && (start.status == Pending ==>
          && (forall a :: start.attempts <= a < row.attempts ==> Failed(deliver(e, a)))
          && (row.status == Dispatched ==> row.attempts < c.maxAttempts && !Failed(deliver(e, row.attempts)))
          && (row.status == DeadLetter <==> row.attempts == c.maxAttempts)
          && (row.status == Pending && row.attempts == start.attempts ==> row == start))
  }

  ghost predicate AllFared(c: Config, was: Db, db: Db, deliver: Deliver) {
    && |db.rows| == |db.events| && was.events <= db.events && |was.rows| <= |db.rows|
    && forall r :: 0 <= r < |db.rows| ==> Fared(c, db.events[r], StartOf(was, db, r), db.rows[r], deliver)
  }

  /** The deliveries that take a row from one state to another. */
  function Made(start: Row, row: Row): int {
    row.attempts - start.attempts + if start.status == Pending && row.status == Dispatched then 1 else 0
  }

  function Deliveries(was: Db, db: Db, n: nat): int
    requires n <= |db.rows| == |db.events|
  {
    if n == 0 then 0 else Deliveries(was, db, n - 1) + Made(StartOf(was, db, n - 1), db.rows[n - 1])
  }

  lemma {:induction false} NoDeliveries(db: Db, n: nat)
    requires n <= |db.rows| == |db.events|
    ensures Deliveries(db, db, n) == 0
  {
    if n > 0 { NoDeliveries(db, n - 1); }
  }

  lemma {:induction false} OneDelivery(was: Db, mid: Db, db: Db, r: nat, n: nat)
    requires |mid.rows| == |mid.events| <= |db.rows| == |db.events| && n <= |db.rows|
    requires r < |was.rows| <= |mid.rows| && Made(was.rows[r], db.rows[r]) == Made(was.rows[r], mid.rows[r]) + 1
    requires forall k :: 0 <= k < |mid.rows| && k != r ==> db.rows[k] == mid.rows[k]
    requires forall k :: |mid.rows| <= k < |db.rows| ==> Published(db.rows[k])
    ensures Deliveries(was, db, n) == Deliveries(was, mid, if n < |mid.rows| then n else |mid.rows|)
                                      + if r < n then 1 else 0
  {
    if n > 0 { OneDelivery(was, mid, db, r, n - 1); }
  }

  /** A row that a batch has delivered fares on. */
  lemma SettledFares(c: Config, e: Event, start: Row, was: Row, row: Row, deliver: Deliver, now: int)
    requires was.status == Pending && was.attempts < c.maxAttempts && Fared(c, e, start, was, deliver)
    requires Settled(c, was, row, Failed(deliver(e, was.attempts)), now)
    ensures Fared(c, e, start, row, deliver) && Made(was, row) == 1
  {
  }

  lemma BatchFares(c: Config, start: Db, was: Db, db: Db, done: seq<nat>, deliver: Deliver, now: int)
    requires ConfigOk(c) && RowsOk(c, was) && RowsOk(c, db) && AllFared(c, start, was, deliver)
    requires Progress(c, was, db, done, deliver, now)
    requires forall r :: r in done ==> r < |was.rows| && was.rows[r].status == Pending
    ensures AllFared(c, start, db, deliver)
  {
    forall r | 0 <= r < |db.rows| ensures Fared(c, db.events[r], StartOf(start, db, r), db.rows[r], deliver) {
      if r < |was.rows| {
        assert db.events[r] == was.events[r];
        assert Fared(c, was.events[r], StartOf(start, was, r), was.rows[r], deliver);
        if r in done {
          SettledFares(c, db.events[r], StartOf(start, was, r), was.rows[r], db.rows[r], deliver, now);
        }
      }
    }
  }

  /** Deliveries add up from batch to batch. */
  lemma {:induction false} DeliveriesAddUp(c: Config, start: Db, was: Db, db: Db, n: nat)
    requires |was.rows| == |was.events| <= |db.rows| == |db.events| && n <= |db.rows| && |start.rows| <= |was.rows|
    requires forall r :: 0 <= r < |was.rows| && was.rows[r].status != Pending ==> db.rows[r] == was.rows[r]
    requires forall r :: 0 <= r < |start.rows| && start.rows[r].status != Pending ==> was.rows[r] == start.rows[r]
    ensures Deliveries(start, db, n) ==
              Deliveries(start, was, if n < |was.rows| then n else |was.rows|) + Deliveries(was, db, n)
  {
    if n > 0 { DeliveriesAddUp(c, start, was, db, n - 1); }
  }

  /** Pending rows, each once. */
  ghost predicate ClaimOk(db: Db, claimed: seq<nat>) {
    && (forall k :: 0 <= k < |claimed| ==> claimed[k] < |db.rows| && db.rows[claimed[k]].status == Pending)
    && (forall k, l :: 0 <= k < l < |claimed| ==> claimed[k] < claimed[l])
  }

  lemma ClaimIsOk(db: Db, now: int, limit: nat)
    ensures ClaimOk(db, DueFrom(db, {}, now, 0, limit))
  {
    DueFromProperties(db, {}, now, 0, limit);
  }

  lemma NextClaimed(db: Db, claimed: seq<nat>, n: nat)
    requires ClaimOk(db, claimed) && n < |claimed|
    ensures claimed[n] !in claimed[..n] && claimed[n] < |db.rows| && db.rows[claimed[n]].status == Pending
    ensures claimed[..n + 1] == claimed[..n] + [claimed[n]]
  {
    assert forall k :: 0 <= k < n ==> claimed[..n][k] == claimed[k];
  }

  /** A dispatcher whose subscribers publish nothing. `deliver` gives their answers to each
      attempt at an event, and `clock` the database time of each batch. */
  class Dispatcher {
    const c: Config
    var db: Db

    constructor (c: Config, db: Db)
      requires ConfigOk(c) && RowsOk(c, db) && NoticesOk(db)
      ensures this.c == c && this.db == db && Valid()
    {
      this.c, this.db := c, db;
    }

    ghost predicate Valid()
      reads this
    {
      ConfigOk(c) && RowsOk(c, db) && NoticesOk(db)
    }

    /** Only row `r` changes; what is published is appended. */
    ghost predicate Replaces(was: Db, r: nat)
      reads this
    {
      && was.events <= db.events && |was.rows| <= |db.rows|
      && (forall k :: 0 <= k < |was.rows| && k != r ==> db.rows[k] == was.rows[k])
      && (forall k :: |was.rows| <= k < |db.rows| ==> Published(db.rows[k]))
    }

    method SettleRow(r: nat, failed: bool, now: int)
      requires Valid() && r < |db.rows| && db.rows[r].status == Pending
      modifies this`db
      ensures Valid() && Replaces(old(db), r) && Settled(c, old(db).rows[r], db.rows[r], failed, now)
      ensures Work(c, db, |db.rows|) < Work(c, old(db), |old(db).rows|)
    {
      var notice := FreshId(db.events);
      SettleKeepsRows(c, db, r, failed, notice, now);
      SettleKeepsNotices(c, db, r, failed, notice, now);
      SettleReducesWork(c, db, r, failed, notice, now);
      SettleSettles(c, db, r, failed, notice, now);
      db := Settle(c, db, r, failed, notice, now);
    }

    /** One claimed row: delivered, then settled. */
    method DeliverRow(ghost was: Db, ghost done: seq<nat>, r: nat, now: int, deliver: Deliver)
      requires Valid() && Progress(c, was, db, done, deliver, now)
      requires r < |was.rows| && r !in done && was.rows[r].status == Pending
      modifies this`db
      ensures Valid() && Progress(c, was, db, done + [r], deliver, now)
      ensures Deliveries(was, db, |db.rows|) == Deliveries(was, old(db), |old(db).rows|) + 1
      ensures Work(c, db, |db.rows|) < Work(c, old(db), |old(db).rows|)
    {
      SettleRow(r, Failed(deliver(db.events[r], db.rows[r].attempts)), now);
      ProgressStep(c, was, old(db), db, done, r, deliver, now);
      OneDelivery(was, old(db), db, r, |db.rows|);
    }

    /** Delivers every claimed row once, and nothing else. */
    method DispatchBatch(now: int, deliver: Deliver) returns (n: nat)
      requires Valid()
      modifies this`db
      ensures var due := DueFrom(old(db), {}, now, 0, c.batchSize);
              n == |due| && Progress(c, old(db), db, due, deliver, now)
      ensures Valid() && Deliveries(old(db), db, |db.rows|) == n
      ensures Work(c, db, |db.rows|) + n <= Work(c, old(db), |old(db).rows|)
      ensures n == 0 ==> db == old(db)
    {
      var claimed := DueFrom(db, {}, now, 0, c.batchSize);
      ClaimIsOk(db, now, c.batchSize);
      DeliverAll(claimed, now, deliver);
      n := |claimed|;
    }

    method DeliverAll(claimed: seq<nat>, now: int, deliver: Deliver)
      requires Valid() && ClaimOk(db, claimed)
      modifies this`db
      ensures Valid() && Progress(c, old(db), db, claimed, deliver, now)
      ensures Deliveries(old(db), db, |db.rows|) == |claimed|
      ensures Work(c, db, |db.rows|) + |claimed| <= Work(c, old(db), |old(db).rows|)
      ensures claimed == [] ==> db == old(db)
    {
      ghost var was := db;
      NoDeliveries(db, |db.rows|);
      var n := 0;
      while n < |claimed|
        invariant n <= |claimed| && Valid() && (n == 0 ==> db == was)
        invariant Progress(c, was, db, claimed[..n], deliver, now) && Deliveries(was, db, |db.rows|) == n
        invariant Work(c, db, |db.rows|) + n <= Work(c, was, |was.rows|)
      {
        NextClaimed(was, claimed, n);
        DeliverRow(was, claimed[..n], claimed[n], now, deliver);
        n := n + 1;
      }
      assert claimed[..n] == claimed;
    }

    /** Ends, whatever the subscribers answer and however the clock moves, after at most as many
        deliveries as there was work; then nothing was due. What became of each event, notices
        included, is what its subscribers answered, and `total` counts the deliveries. */
    method Drain(clock: nat -> int, deliver: Deliver) returns (total: nat, batches: nat)
      requires Valid()
      modifies this`db
      ensures Valid() && AllFared(c, old(db), db, deliver)
      ensures total == Deliveries(old(db), db, |db.rows|)
      ensures total + Work(c, db, |db.rows|) <= Work(c, old(db), |old(db).rows|)
      ensures batches <= total && (total > 0 ==> batches > 0)
      ensures forall r :: 0 <= r < |db.rows| && db.rows[r].status == Pending ==>
                db.rows[r].nextAttempt > clock(batches)
    {
      total, batches := 0, 0;
      NoDeliveries(db, |db.rows|);
      while true
        invariant Valid() && AllFared(c, old(db), db, deliver)
        invariant total == Deliveries(old(db), db, |db.rows|)
        invariant total + Work(c, db, |db.rows|) <= Work(c, old(db), |old(db).rows|)
        invariant batches <= total && (total > 0 ==> batches > 0)
        decreases Work(c, db, |db.rows|)
      {
        var n := DrainOnce(old(db), clock(batches), deliver);
        total := total + n;
        if n == 0 {
          return;
        }
        batches := batches + 1;
      }
    }

    /** One batch of a drain that began at `start`. */
    method DrainOnce(ghost start: Db, now: int, deliver: Deliver) returns (n: nat)
      requires Valid() && AllFared(c, start, db, deliver)
      modifies this`db
      ensures Valid() && AllFared(c, start, db, deliver)
      ensures Deliveries(start, db, |db.rows|) == Deliveries(start, old(db), |old(db).rows|) + n
      ensures Work(c, db, |db.rows|) + n <= Work(c, old(db), |old(db).rows|)
      ensures n == 0 ==>
                db == old(db) && forall r :: 0 <= r < |db.rows| && db.rows[r].status == Pending ==>
                  db.rows[r].nextAttempt > now
    {
      ghost var was := db;
      DueFromProperties(was, {}, now, 0, c.batchSize);
      n := DispatchBatch(now, deliver);
      BatchFares(c, start, was, db, DueFrom(was, {}, now, 0, c.batchSize), deliver, now);
      DeliveriesAddUp(c, start, was, db, |db.rows|);
    }
  }
}
