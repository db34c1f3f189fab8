/** The trace recorder (packages/browser/src/trace.ts): a counter, a buffer that flushes take
    over one at a time, and rows keyed by sequence number that a retry never writes twice.
    `entries.push(await ...)` looks its array up before it waits, so a record can hold on to an
    array that a flush has meanwhile replaced. */
module TraceRecorder {
  import opened Wrappers

  /** A record's own number; its row's key is the base of this recorder plus it. */
  type Number = nat
  type ArrayId = nat

  datatype Writer = Storing | Holding(target: ArrayId)   // its blob; the array it will push to

  datatype Flight = Flight(batch: ArrayId, artifacts: set<Number>, inserted: Option<seq<Number>>)

  /** `arrays` is every array `entries` has ever been; `earlier` are the rows that were there
      before; `pushed` and `stored` are the history of completed pushes. */
  datatype State = State(next: Number, base: Option<nat>, earlier: set<nat>, arrays: seq<seq<Number>>, current: ArrayId,
    artifacts: set<Number>, writers: map<Number, Writer>, flight: Option<Flight>, closed: bool,
    rows: map<nat, Number>, artifactRows: set<Number>, pushed: set<Number>, stored: set<Number>)

  function Opened(earlier: set<nat>): State {
    State(0, None, earlier, [[]], 0, {}, map[], None, false, map[], {}, {}, {})
  }

  datatype Step =
    | Record
    | FindBase(base: nat)                 // the select: one more than the largest key
    | Store(n: Number)                    // the blob is stored
    | LookUp(n: Number)
    | Push(n: Number)
    | Reject(n: Number)
    | Begin
    | Insert
    | Commit(heard: bool)                 // committed, and whether the caller learns of it
    | Rollback
    | Close

  predicate Enabled(s: State, e: Step) {
    match e
    case Record => !s.closed
    case FindBase(base) => s.base.None? && s.next > 0 && forall k :: k in s.earlier ==> k < base
    case Store(n) => n in s.writers && s.writers[n].Storing? && n !in s.stored
    case LookUp(n) => n in s.writers && s.writers[n].Storing?
    case Push(n) => n in s.writers && s.writers[n].Holding? && s.writers[n].target < |s.arrays| && s.base.Some?
    case Reject(n) => n in s.writers
    case Begin => s.flight.None? && s.current < |s.arrays| && (s.arrays[s.current] != [] || s.artifacts != {})
    case Insert => s.flight.Some? && s.flight.value.inserted.None? && s.flight.value.batch < |s.arrays|
    case Commit(_) =>
      && s.flight.Some? && s.flight.value.inserted.Some? && s.flight.value.batch < |s.arrays|
      && s.current < |s.arrays| && (s.flight.value.inserted.value != [] ==> s.base.Some?)
    case Rollback => s.flight.Some? && s.flight.value.batch < |s.arrays| && s.current < |s.arrays|
    case Close => true
  }

  /** `onConflictDoNothing` */
  function Inserted(rows: map<nat, Number>, base: nat, batch: seq<Number>): map<nat, Number>
    decreases |batch|
  {
    if batch == [] then rows
    else
      var key := base + batch[0];
      Inserted(if key in rows then rows else rows[key := batch[0]], base, batch[1..])
  }

  /** The transaction is committed. */
  function Written(s: State): State
    requires s.flight.Some? && s.flight.value.inserted.Some? && (s.flight.value.inserted.value != [] ==> s.base.Some?)
  {
    var f := s.flight.value;
    s.(rows := if f.inserted.value == [] then s.rows else Inserted(s.rows, s.base.value, f.inserted.value),
       artifactRows := s.artifactRows + f.artifacts)
  }

  /** The flush failed, for all it knows: the batch goes back in front. */
  function Restored(s: State): State
    requires s.flight.Some? && s.flight.value.batch < |s.arrays| && s.current < |s.arrays|
  {
    s.(arrays := s.arrays + [s.arrays[s.flight.value.batch] + s.arrays[s.current]], current := |s.arrays|,
       artifacts := s.flight.value.artifacts + s.artifacts, flight := None)
  }

  function Apply(s: State, e: Step): State
    requires Enabled(s, e)
  {
    match e
    case Record => s.(next := s.next + 1, writers := s.writers[s.next := Storing])
    case FindBase(base) => s.(base := Some(base))
    case Store(n) => s.(artifacts := s.artifacts + {n}, stored := s.stored + {n})
    case LookUp(n) => s.(writers := s.writers[n := Holding(s.current)])
    case Push(n) =>
      var a := s.writers[n].target;
      s.(arrays := s.arrays[a := s.arrays[a] + [n]], writers := s.writers - {n}, pushed := s.pushed + {n})
    case Reject(n) => s.(writers := s.writers - {n})
    case Begin =>
      s.(arrays := s.arrays + [[]], current := |s.arrays|, artifacts := {},
         flight := Some(Flight(s.current, s.artifacts, None)))
    case Insert => s.(flight := Some(s.flight.value.(inserted := Some(s.arrays[s.flight.value.batch]))))
    case Commit(heard) => if heard then Written(s).(flight := None) else Restored(Written(s))
    case Rollback => Restored(s)
    case Close => s.(closed := true)
  }

  ghost predicate Run(s: State, es: seq<Step>, s': State)
    decreases |es|
  {
    if es == [] then s == s' else Enabled(s, es[0]) && Run(Apply(s, es[0]), es[1..], s')
  }

  /** A record may fail at any of its awaits; then it pushes nothing. */
  lemma RecordMayFail(s: State, n: Number)
    requires n in s.writers
    ensures Enabled(s, Reject(n))
    ensures var s' := Apply(s, Reject(n));
            && s'.arrays == s.arrays && s'.pushed == s.pushed && s'.writers == s.writers - {n}
            && !Enabled(s', Store(n)) && !Enabled(s', LookUp(n)) && !Enabled(s', Push(n))
  {
  }

  // ---- conservation ----

  predicate Persisted(s: State, n: Number) {
    s.base.Some? && s.base.value + n in s.rows && s.rows[s.base.value + n] == n
  }

  predicate Buffered(s: State, n: Number) {
    || (s.current < |s.arrays| && n in s.arrays[s.current])
    || (s.flight.Some? && s.flight.value.batch < |s.arrays| && n in s.arrays[s.flight.value.batch])
  }

  /** Every entry pushed is in the database or still in reach of a flush. */
  ghost predicate Conserved(s: State) {
    forall n :: n in s.pushed ==> Persisted(s, n) || Buffered(s, n)
  }

  ghost predicate ArtifactsConserved(s: State) {
    forall n :: n in s.stored <==>
      n in s.artifactRows || n in s.artifacts || (s.flight.Some? && n in s.flight.value.artifacts)
  }

  /** Pushed after its batch was made out: neither in the database nor in the buffer. */
  predicate IsLate(s: State, inserted: seq<Number>, n: Number)
    requires s.current < |s.arrays|
  {
    !Persisted(s, n) && n !in inserted && n !in s.arrays[s.current]
  }

  /** Kept by every run: rows are keyed by their own numbers, above all earlier ones. */
  ghost predicate Inv(s: State) {
    && s.current < |s.arrays|
    && (s.flight.Some? ==>
          && s.flight.value.batch < |s.arrays| && s.flight.value.batch != s.current
          && (s.flight.value.inserted.Some? ==>
                && s.flight.value.inserted.value <= s.arrays[s.flight.value.batch]
                && forall i :: |s.flight.value.inserted.value| <= i < |s.arrays[s.flight.value.batch]| ==>
                     IsLate(s, s.flight.value.inserted.value, s.arrays[s.flight.value.batch][i])))
    && (forall n :: n in s.writers ==>
          && n < s.next && n !in s.pushed
          && (s.writers[n].Holding? ==> s.writers[n].target < |s.arrays|))
    && (forall n :: n in s.pushed ==> n < s.next)
    && (forall a, i :: 0 <= a < |s.arrays| && 0 <= i < |s.arrays[a]| ==> s.arrays[a][i] in s.pushed)
    && (s.base.None? ==> s.rows == map[] && s.pushed == {})
    && (s.base.Some? ==>
          && (forall k :: k in s.rows ==> s.rows[k] in s.pushed && k == s.base.value + s.rows[k])
          && (forall k :: k in s.earlier ==> k < s.base.value))
    && ArtifactsConserved(s)
  }

  lemma {:induction false} InsertedHas(rows: map<nat, Number>, base: nat, batch: seq<Number>, s: set<Number>)
    requires forall k :: k in rows ==> rows[k] in s && k == base + rows[k]
    requires forall i :: 0 <= i < |batch| ==> batch[i] in s
    ensures var r := Inserted(rows, base, batch);
            && (forall k :: k in r ==> r[k] in s && k == base + r[k])
            && (forall k :: k in rows ==> k in r)
            && (forall i :: 0 <= i < |batch| ==> base + batch[i] in r)
    decreases |batch|
  {
    if batch != [] {
      var key := base + batch[0];
      InsertedHas(if key in rows then rows else rows[key := batch[0]], base, batch[1..], s);
    }
  }

  /** Rows that are there stay, and each number of the batch whose key is free gets its row. */
  lemma {:induction false} InsertedIs(rows: map<nat, Number>, base: nat, batch: seq<Number>, k: nat)
    ensures var r := Inserted(rows, base, batch);
            && (k in r <==> k in rows || (k >= base && (k - base) in batch))
            && (k in r ==> r[k] == if k in rows then rows[k] else k - base)
    decreases |batch|
  {
    if batch != [] {
      var key := base + batch[0];
      InsertedIs(if key in rows then rows else rows[key := batch[0]], base, batch[1..], k);
    }
  }

  lemma CommitKeeps(s: State, heard: bool)
    requires Inv(s) && Enabled(s, Commit(heard))
    ensures Inv(Apply(s, Commit(heard)))
    ensures forall n :: n in s.flight.value.inserted.value ==> Persisted(Apply(s, Commit(heard)), n)
    ensures forall n :: Persisted(s, n) ==> Persisted(Apply(s, Commit(heard)), n)
  {
    var f := s.flight.value;
    forall i | 0 <= i < |f.inserted.value| ensures f.inserted.value[i] in s.pushed {
      assert f.inserted.value[i] == s.arrays[f.batch][i];
    }
    if f.inserted.value != [] { InsertedHas(s.rows, s.base.value, f.inserted.value, s.pushed); }
  }

  lemma ApplyKeeps(s: State, e: Step)
    requires Inv(s) && Enabled(s, e)
    ensures Inv(Apply(s, e))
  {
    match e
    case Commit(heard) => CommitKeeps(s, heard);
    case Push(n) => PushKeeps(s, n);
    case Begin => BeginKeeps(s);
    case Rollback => RollbackKeeps(s);
    case _ => QuietKeeps(s, e);
  }

  lemma QuietKeeps(s: State, e: Step)
    requires Inv(s) && Enabled(s, e) && !e.Commit? && !e.Push? && !e.Begin? && !e.Rollback?
    ensures Inv(Apply(s, e))
  {
  }

  lemma PushKeeps(s: State, n: Number)
    requires Inv(s) && Enabled(s, Push(n))
    ensures Inv(Apply(s, Push(n)))
  {
  }

  lemma BeginKeeps(s: State)
    requires Inv(s) && Enabled(s, Begin)
    ensures Inv(Apply(s, Begin))
  {
  }

  lemma RollbackKeeps(s: State)
    requires Inv(s) && Enabled(s, Rollback)
    ensures Inv(Apply(s, Rollback))
  {
  }

  // ---- where entries are lost ----

  /** A push goes to an array that a flush can still see. */
  predicate PushReaches(s: State, n: Number)
    requires Enabled(s, Push(n))
  {
    s.writers[n].target == s.current || (s.flight.Some? && s.writers[n].target == s.flight.value.batch)
  }

  /** Nothing was pushed to the batch after its rows were made out. */
  predicate NothingLate(s: State)
    requires Enabled(s, Commit(true))
  {
    s.flight.value.inserted.value == s.arrays[s.flight.value.batch]
  }

  predicate Safe(s: State, e: Step)
    requires Enabled(s, e)
  {
    match e
    case Push(n) => PushReaches(s, n)
    case Commit(true) => NothingLate(s)
    case _ => true
  }

  lemma PushLoses(s: State, n: Number)
    requires Inv(s) && Conserved(s) && Enabled(s, Push(n))
    ensures Conserved(Apply(s, Push(n))) <==> PushReaches(s, n)
  {
    var s' := Apply(s, Push(n));
    var a := s.writers[n].target;
    forall m | m in s.pushed ensures Persisted(s', m) || Buffered(s', m) {
      assert m in s.arrays[a] ==> m in s'.arrays[a];
    }
    assert n in s'.arrays[a];
    assert !Persisted(s', n);
    if !PushReaches(s, n) {
      assert s'.arrays[s.current] == s.arrays[s.current];
      assert n in s'.pushed && n !in s.arrays[s.current];
    }
  }

  lemma CommitLoses(s: State)
    requires Inv(s) && Conserved(s) && Enabled(s, Commit(true))
    ensures Conserved(Apply(s, Commit(true))) <==> NothingLate(s)
  {
    CommitKeeps(s, true);
    var s', f := Apply(s, Commit(true)), s.flight.value;
    var batch := s.arrays[f.batch];
    if !NothingLate(s) {
      var n := batch[|f.inserted.value|];
      assert IsLate(s, f.inserted.value, n) && n in s.pushed;
      if Persisted(s', n) { NewRows(s, n); }
    } else {
      assert forall n :: n in batch ==> Persisted(s', n);
    }
  }

  lemma NewRows(s: State, n: Number)
    requires Inv(s) && Enabled(s, Commit(true)) && Persisted(Apply(s, Commit(true)), n) && !Persisted(s, n)
    ensures n in s.flight.value.inserted.value
  {
    OnlyInserted(s.rows, s.base.value, s.flight.value.inserted.value, s.base.value + n);
  }

  lemma {:induction false} OnlyInserted(rows: map<nat, Number>, base: nat, batch: seq<Number>, k: nat)
    requires k in Inserted(rows, base, batch) && (k !in rows || rows[k] != Inserted(rows, base, batch)[k])
    ensures Inserted(rows, base, batch)[k] in batch
    decreases |batch|
  {
    if batch != [] {
      var key := base + batch[0];
      var rows' := if key in rows then rows else rows[key := batch[0]];
      if k in rows' && rows'[k] == Inserted(rows', base, batch[1..])[k] {
      } else {
        OnlyInserted(rows', base, batch[1..], k);
      }
    }
  }

  /** A step loses an entry exactly when it is not safe; only pushes and heard commits can. */
  lemma LosesIffUnsafe(s: State, e: Step)
    requires Inv(s) && Conserved(s) && Enabled(s, e)
    ensures Conserved(Apply(s, e)) <==> Safe(s, e)
  {
    match e
    case Push(n) => PushLoses(s, n);
    case Commit(heard) =>
      if heard { CommitLoses(s); } else { CommitKeeps(s, false); RestoreKeeps(s, e); }
    case Rollback => RestoreKeeps(s, e);
    case _ =>
  }

  lemma RestoreKeeps(s: State, e: Step)
    requires Inv(s) && Conserved(s) && Enabled(s, e) && (e.Rollback? || e == Commit(false))
    ensures Conserved(Apply(s, e))
  {
    var s' := Apply(s, e);
    if e.Commit? { CommitKeeps(s, false); }
    assert s'.arrays[s'.current] == s.arrays[s.flight.value.batch] + s.arrays[s.current];
  }

  lemma {:induction false} RunKeeps(s: State, es: seq<Step>, s': State)
    requires Inv(s) && Run(s, es, s')
    ensures Inv(s') && s'.earlier == s.earlier
    decreases |es|
  {
    if es != [] {
      ApplyKeeps(s, es[0]);
      RunKeeps(Apply(s, es[0]), es[1..], s');
    }
  }

  /** Over every run: a row is the one row of a number this recorder gave out and pushed, and no
      row of an earlier recorder is in its way. Artifacts are never lost. */
  lemma RowsAreDistinct(earlier: set<nat>, es: seq<Step>, s: State, k: nat, k': nat)
    requires Run(Opened(earlier), es, s) && k in s.rows && k' in s.rows
    ensures s.rows[k] == s.rows[k'] ==> k == k'
    ensures k !in earlier && s.rows[k] in s.pushed && s.rows[k] < s.next
    ensures ArtifactsConserved(s)
  {
    RunKeeps(Opened(earlier), es, s);
  }

  /** No flush takes the buffer over, and none puts a batch back, while a record holds on to an
      array. Waiting for the base, as the first record does, is calm as long as no flush falls
      into the wait. */
  ghost predicate Calm(s: State, e: Step) {
    e.Begin? || e.Rollback? || e == Commit(false) ==> forall n :: n in s.writers ==> !s.writers[n].Holding?
  }

  ghost predicate CalmRun(s: State, es: seq<Step>, s': State)
    decreases |es|
  {
    if es == [] then s == s'
    else Enabled(s, es[0]) && Calm(s, es[0]) && CalmRun(Apply(s, es[0]), es[1..], s')
  }

  /** Then a batch is complete before it is written. */
  ghost predicate Complete(s: State) {
    && Inv(s) && Conserved(s)
    && (forall n :: n in s.writers && s.writers[n].Holding? ==> s.writers[n].target == s.current)
    && (s.flight.Some? && s.flight.value.inserted.Some? ==>
          s.flight.value.inserted.value == s.arrays[s.flight.value.batch])
  }

  lemma CalmKeeps(s: State, e: Step)
    requires Complete(s) && Enabled(s, e) && Calm(s, e)
    ensures Complete(Apply(s, e))
  {
    ApplyKeeps(s, e);
    LosesIffUnsafe(s, e);
  }

  /** Whatever mix of failed flushes and lost replies: nothing pushed is ever lost. */
  lemma {:induction false} CalmRunsConserve(s: State, es: seq<Step>, s': State)
    requires Complete(s) && CalmRun(s, es, s')
    ensures Complete(s')
    decreases |es|
  {
    if es != [] {
      CalmKeeps(s, es[0]);
      CalmRunsConserve(Apply(s, es[0]), es[1..], s');
    }
  }

  /** Closed, with every record settled and the last flush through: one row each. */
  lemma ClosedHasEverything(earlier: set<nat>, es: seq<Step>, s: State, n: Number)
    requires CalmRun(Opened(earlier), es, s)
    requires s.writers == map[] && s.flight.None?
    requires s.current < |s.arrays| && s.arrays[s.current] == [] && s.artifacts == {}
    ensures n in s.pushed ==> Persisted(s, n) && forall k :: k in s.rows && s.rows[k] == n ==> k == s.base.value + n
    ensures n in s.stored ==> n in s.artifactRows
  {
    CalmRunsConserve(Opened(earlier), es, s);
  }

  /** Otherwise an entry can vanish. The first record stores a screenshot and waits for the base
      while a flush takes its array for the screenshot's sake; the push comes after the insert. */
  lemma LateFirstPushIsLost() returns (es: seq<Step>, s: State)
    ensures Run(Opened({}), es, s) && 0 in s.pushed && !Persisted(s, 0) && !Buffered(s, 0)
    ensures forall e :: e in es ==> !e.Reject? && !e.Rollback?
  {
    var s1 := Apply(Opened({}), Record);
    var s2 := Apply(s1, Store(0));
    var s3 := Apply(s2, LookUp(0));
    assert s3 == Opened({}).(next := 1, artifacts := {0}, writers := map[0 := Holding(0)], stored := {0});
    assert Apply(s3, Begin) == Taken();
    var tail;
    tail, s := TakenLoses();
    var e3 := [Begin] + tail;
    var e2 := [LookUp(0)] + e3;
    var e1 := [Store(0)] + e2;
    es := [Record] + e1;
    assert Run(s3, e3, s) by { assert e3[1..] == tail; }
    assert Run(s2, e2, s) by { assert e2[1..] == e3; }
    assert Run(s1, e1, s) by { assert e1[1..] == e2; }
    assert Run(Opened({}), es, s) by { assert es[1..] == e1; }
  }

  /** The flush has the first record's array and its screenshot, but not the record. */
  function Taken(): State {
    Opened({}).(next := 1, arrays := [[], []], current := 1, writers := map[0 := Holding(0)],
                flight := Some(Flight(0, {0}, None)), stored := {0})
  }

  lemma TakenLoses() returns (es: seq<Step>, s: State)
    ensures Run(Taken(), es, s) && 0 in s.pushed && !Persisted(s, 0) && !Buffered(s, 0)
    ensures forall e :: e in es ==> !e.Reject? && !e.Rollback?
  {
    var s5 := Apply(Taken(), Insert);
    var s6 := Apply(s5, FindBase(0));
    var s7 := Apply(s6, Push(0));
    assert s7.arrays[0] == [0] && s7.arrays[1] == [];
    s := Apply(s7, Commit(true));
    assert s.rows == map[];
    var e7 := [Commit(true)];
    var e6 := [Push(0)] + e7;
    var e5 := [FindBase(0)] + e6;
    es := [Insert] + e5;
    assert Run(s7, e7, s);
    assert Run(s6, e6, s) by { assert e6[1..] == e7; }
    assert Run(s5, e5, s) by { assert e5[1..] == e6; }
    assert Run(Taken(), es, s) by { assert es[1..] == e5; }
  }

  /** The first record without a blob: it looks the buffer up, then waits for the base. */
  lemma FirstRecordIsCalm() returns (es: seq<Step>, s: State)
    ensures es == [Record, LookUp(0), FindBase(0), Push(0)] && CalmRun(Opened({}), es, s)
    ensures 0 in s.pushed && Buffered(s, 0)
  {
    var s1 := Apply(Opened({}), Record);
    var s2 := Apply(s1, LookUp(0));
    var s3 := Apply(s2, FindBase(0));
    s := Apply(s3, Push(0));
    es := [Record, LookUp(0), FindBase(0), Push(0)];
    assert CalmRun(s3, es[3..], s);
    assert CalmRun(s2, es[2..], s) by { assert es[2..][1..] == es[3..]; }
    assert CalmRun(s1, es[1..], s) by { assert es[1..][1..] == es[2..]; }
  }

  // ---- the recorder, with the arrays as objects ----

  const BUFFER_LIMIT: nat := 64

  datatype Outcome = Committed | ReplyLost | RolledBack

  /** An array of entries. Whoever looked it up before it was replaced still pushes to it. */
  class Buffer {
    var items: seq<Number>

    constructor (items: seq<Number>)
      ensures this.items == items
    {
      this.items := items;
    }
  }

  datatype InFlight = InFlight(batch: Buffer, artifacts: set<Number>, inserted: Option<seq<Number>>)

  /** Each method runs from one await to the next and is one step of the machine. The database
      rows are fields too. */
  class Recorder {
    var count: nat                        // `seq` of the source
    var sequenceBase: Option<nat>
    var entries: Buffer
    var pendingArtifacts: set<Number>
    var closed: bool
    var inFlight: Option<InFlight>
    var rows: map<nat, Number>
    var artifactRows: set<Number>
    ghost var buffers: seq<Buffer>        // every array `entries` has been
    ghost var state: State

    ghost predicate Arrays()
      reads this, buffers
    {
      && |buffers| == |state.arrays| && state.current < |buffers| && entries == buffers[state.current]
      && (forall i :: 0 <= i < |buffers| ==> buffers[i].items == state.arrays[i])
      && (forall i, j :: 0 <= i < j < |buffers| ==> buffers[i] != buffers[j])
    }

    ghost predicate Valid()
      reads this, buffers
    {
      && Arrays()
      && count == state.next && sequenceBase == state.base && closed == state.closed
      && pendingArtifacts == state.artifacts && rows == state.rows && artifactRows == state.artifactRows
      && (inFlight.Some? <==> state.flight.Some?)
      && (inFlight.Some? ==>
            && state.flight.value.batch < |buffers| && inFlight.value.batch == buffers[state.flight.value.batch]
            && inFlight.value.artifacts == state.flight.value.artifacts
            && inFlight.value.inserted == state.flight.value.inserted)
    }

    constructor (ghost earlier: set<nat>)
      ensures Valid() && fresh(buffers) && state == Opened(earlier)
    {
      count, sequenceBase, pendingArtifacts, closed := 0, None, {}, false;
      inFlight, rows, artifactRows := None, map[], {};
      var first := new Buffer([]);
      entries := first;
      buffers := [first];
      state := Opened(earlier);
    }

    /** `record` up to its first await: the number is given out. */
    method BeginRecord() returns (n: Option<Number>)
      requires Valid()
      modifies this
      ensures Valid() && buffers == old(buffers)
      ensures if old(closed) then n.None? && state == old(state)
              else n == Some(old(count)) && state == Apply(old(state), Record)
    {
      if closed { return None; }
      n := Some(count);
      count := count + 1;
      state := Apply(state, Record);
    }

    method FoundBase(next: nat)
      requires Valid() && Enabled(state, FindBase(next))
      modifies this
      ensures Valid() && buffers == old(buffers) && state == Apply(old(state), FindBase(next))
    {
      sequenceBase := Some(next);
      state := Apply(state, FindBase(next));
    }

    /** The blob is stored, and its artifact waits for a flush. */
    method Stored(n: Number)
      requires Valid() && Enabled(state, Store(n))
      modifies this
      ensures Valid() && buffers == old(buffers) && state == Apply(old(state), Store(n))
    {
      pendingArtifacts := pendingArtifacts + {n};
      state := Apply(state, Store(n));
    }

    /** `entries.push(` is evaluated as far as its argument's await. */
    method LookUpEntries(n: Number) returns (target: Buffer)
      requires Valid() && Enabled(state, LookUp(n))
      modifies this
      ensures Valid() && buffers == old(buffers) && target == entries == old(entries)
      ensures state == Apply(old(state), LookUp(n))
    {
      target := entries;
      state := Apply(state, LookUp(n));
    }

    /** The push itself, to the array looked up then. */
    method PushEntry(n: Number, target: Buffer) returns (full: bool)
      requires Valid() && Enabled(state, Push(n)) && target == buffers[state.writers[n].target]
      modifies this, target
      ensures Valid() && buffers == old(buffers) && state == Apply(old(state), Push(n))
      ensures target.items == old(target.items) + [n] && (full <==> |entries.items| >= 64)
    {
      target.items := target.items + [n];
      state := Apply(state, Push(n));
      full := |entries.items| >= BUFFER_LIMIT;
    }

    /** The flush takes over what there is, if there is anything. */
    method TakeOver() returns (some: bool)
      requires Valid() && inFlight.None?
      modifies this
      ensures Valid() && some == Enabled(old(state), Begin)
      ensures some <==> old(entries.items) != [] || old(pendingArtifacts) != {}
      ensures some ==> inFlight == Some(InFlight(old(entries), old(pendingArtifacts), None))
      ensures some ==> entries.items == [] && pendingArtifacts == {}
      ensures if some then state == Apply(old(state), Begin) && fresh(entries) && buffers == old(buffers) + [entries]
              else state == old(state) && buffers == old(buffers)
    {
      if entries.items == [] && pendingArtifacts == {} { return false; }
      var next := new Buffer([]);
      inFlight := Some(InFlight(entries, pendingArtifacts, None));
      entries, pendingArtifacts := next, {};
      buffers := buffers + [next];
      state := Apply(state, Begin);
      return true;
    }

    /** The transaction makes out the rows of the batch as it is at this moment. */
    method WriteRows()
      requires Valid() && Enabled(state, Insert)
      modifies this
      ensures Valid() && buffers == old(buffers) && state == Apply(old(state), Insert)
      ensures inFlight == Some(old(inFlight).value.(inserted := Some(old(inFlight).value.batch.items)))
    {
      inFlight := Some(inFlight.value.(inserted := Some(inFlight.value.batch.items)));
      state := Apply(state, Insert);
    }

    method Write()
      requires Valid() && Enabled(state, Commit(true))
      modifies this
      ensures Valid() && buffers == old(buffers) && state == Written(old(state))
    {
      var f := inFlight.value;
      if f.inserted.value != [] { rows := Inserted(rows, sequenceBase.value, f.inserted.value); }
      artifactRows := artifactRows + f.artifacts;
      state := Written(state);
    }

    /** The batch goes back in front. */
    method PutBack()
      requires Valid() && Enabled(state, Rollback)
      modifies this
      ensures Valid() && fresh(entries) && buffers == old(buffers) + [entries] && state == Restored(old(state))
      ensures entries.items == old(inFlight.value.batch.items) + old(entries.items) && inFlight == None
      ensures pendingArtifacts == old(inFlight).value.artifacts + old(pendingArtifacts)
    {
      var f := inFlight.value;
      var restored := new Buffer(f.batch.items + entries.items);
      entries, pendingArtifacts, inFlight := restored, f.artifacts + pendingArtifacts, None;
      buffers := buffers + [restored];
      state := Restored(state);
    }

    /** The transaction ends. On an error, real or apparent, nothing is taken for written. */
    method EndTransaction(outcome: Outcome)
      requires Valid() && Enabled(state, Commit(true))
      modifies this
      ensures Valid() && Enabled(old(state), StepOf(outcome)) && state == Apply(old(state), StepOf(outcome))
    {
      if !outcome.RolledBack? { Write(); }
      if outcome.Committed? {
        inFlight := None;
        state := state.(flight := None);
      } else {
        PutBack();
      }
    }

    /** A flush that nothing disturbs. */
    method Flush(outcome: Outcome) returns (ok: bool)
      requires Valid() && Inv(state) && inFlight.None?
      modifies this
      ensures Valid() && (ok <==> outcome.Committed? || !Enabled(old(state), Begin))
      ensures state == Ended(old(state), outcome)
    {
      BaseIsKnown(state);
      var some := TakeOver();
      if !some { return true; }
      WriteRows();
      EndTransaction(outcome);
      ok := outcome.Committed?;
    }

    method Seal()
      requires Valid() && Inv(state)
      modifies this
      ensures Valid() && Inv(state) && closed && inFlight == old(inFlight) && state == Apply(old(state), Step.Close)
    {
      ApplyKeeps(state, Step.Close);
      closed := true;
      state := Apply(state, Step.Close);
    }

    /** The end of `close`, once every record has settled: one flush that nothing disturbs. If
        nothing was lost before and it succeeds, everything pushed has its row. */
    method Close(outcome: Outcome) returns (ok: bool, ghost es: seq<Step>)
      requires Valid() && Inv(state) && state.writers == map[] && inFlight.None?
      modifies this
      ensures Valid() && closed && CalmRun(old(state), es, state)
      ensures ok <==> outcome.Committed? || !Enabled(old(state), Begin)
      ensures ok && Conserved(old(state)) ==> AllPersisted(state)
    {
      ghost var start := state;
      es := LastSteps(start, outcome);
      LastStepsRun(start, outcome);
      Seal();
      ok := Flush(outcome);
    }
  }

  function StepOf(outcome: Outcome): Step {
    match outcome
    case Committed => Commit(true)
    case ReplyLost => Commit(false)
    case RolledBack => Rollback
  }

  /** Taken over, made out and ended with nothing in between. */
  function Flushed(s: State, outcome: Outcome): State
    requires Inv(s) && Enabled(s, Begin)
  {
    BaseIsKnown(s);
    Apply(Apply(Apply(s, Begin), Insert), StepOf(outcome))
  }

  function LastSteps(s: State, outcome: Outcome): seq<Step> {
    if Enabled(s, Begin) then [Step.Close, Begin, Insert, StepOf(outcome)] else [Step.Close]
  }

  function Ended(s: State, outcome: Outcome): State
    requires Inv(s)
  {
    if Enabled(s, Begin) then Flushed(s, outcome) else s
  }

  lemma LastStepsRun(s: State, outcome: Outcome)
    requires Inv(s) && s.writers == map[] && s.flight.None?
    ensures var sealed := Apply(s, Step.Close);
            && Inv(sealed) && CalmRun(s, LastSteps(s, outcome), Ended(sealed, outcome))
            && (Conserved(s) && (outcome.Committed? || !Enabled(s, Begin)) ==> AllPersisted(Ended(sealed, outcome)))
  {
    ApplyKeeps(s, Step.Close);
    if Enabled(s, Begin) {
      LastFlushRuns(s, outcome);
      LastFlushPersists(s, outcome);
    } else {
      NothingLeft(s, Apply(s, Step.Close));
    }
  }

  ghost predicate AllPersisted(s: State) {
    (forall n :: n in s.pushed ==> Persisted(s, n)) && s.stored <= s.artifactRows
  }

  lemma NothingLeft(start: State, s: State)
    requires Inv(start) && start.writers == map[] && start.flight.None? && s == Apply(start, Step.Close)
    requires start.arrays[start.current] == [] && start.artifacts == {}
    ensures CalmRun(start, [Step.Close], s)
    ensures Conserved(start) ==> AllPersisted(s)
  {
    assert CalmRun(s, [Step.Close][1..], s);
    if Conserved(start) {
      forall n | n in s.pushed ensures Persisted(s, n) { assert Persisted(start, n) || Buffered(start, n); }
    }
  }

  /** Nothing is buffered before the base is known. */
  lemma BaseIsKnown(s: State)
    requires Inv(s)
    ensures s.arrays[s.current] != [] ==> s.base.Some?
  {
    if s.arrays[s.current] != [] { assert s.arrays[s.current][0] in s.pushed; }
  }

  lemma LastFlushRuns(start: State, outcome: Outcome)
    requires Inv(start) && start.writers == map[] && start.flight.None? && Enabled(start, Begin)
    ensures Inv(Apply(start, Step.Close))
    ensures CalmRun(start, [Step.Close, Begin, Insert, StepOf(outcome)], Flushed(Apply(start, Step.Close), outcome))
  {
    ApplyKeeps(start, Step.Close);
    BaseIsKnown(start);
    var s1 := Apply(start, Step.Close);
    var s2 := Apply(s1, Begin);
    FourSteps(start, Step.Close, s1, Begin, s2, Insert, Apply(s2, Insert), StepOf(outcome));
  }

  lemma FourSteps(s: State, e: Step, s1: State, e1: Step, s2: State, e2: Step, s3: State, e3: Step)
    requires Enabled(s, e) && Calm(s, e) && s1 == Apply(s, e)
    requires Enabled(s1, e1) && Calm(s1, e1) && s2 == Apply(s1, e1)
    requires Enabled(s2, e2) && Calm(s2, e2) && s3 == Apply(s2, e2)
    requires Enabled(s3, e3) && Calm(s3, e3)
    ensures CalmRun(s, [e, e1, e2, e3], Apply(s3, e3))
  {
    var es := [e, e1, e2, e3];
    assert CalmRun(s3, es[3..], Apply(s3, e3));
    assert CalmRun(s2, es[2..], Apply(s3, e3)) by { assert es[2..][1..] == es[3..]; }
    assert CalmRun(s1, es[1..], Apply(s3, e3)) by { assert es[1..][1..] == es[2..]; }
  }

  lemma LastFlushPersists(start: State, outcome: Outcome)
    requires Inv(start) && start.writers == map[] && start.flight.None? && Enabled(start, Begin)
    ensures Inv(Apply(start, Step.Close))
    ensures outcome.Committed? && Conserved(start) ==> AllPersisted(Flushed(Apply(start, Step.Close), outcome))
  {
    ApplyKeeps(start, Step.Close);
    var s1 := Apply(start, Step.Close);
    if outcome.Committed? && Conserved(start) {
      assert Conserved(s1);
      FlushPersists(s1);
    }
  }

  lemma FlushPersists(s: State)
    requires Inv(s) && s.flight.None? && Enabled(s, Begin) && Conserved(s)
    ensures AllPersisted(Flushed(s, Committed))
  {
    BaseIsKnown(s);
    BeginKeeps(s);
    var taken := Apply(s, Begin);
    assert Conserved(taken);
    QuietKeeps(taken, Insert);
    MadeOutPersists(Apply(taken, Insert));
  }

  lemma MadeOutPersists(s: State)
    requires Inv(s) && Conserved(s) && Enabled(s, Commit(true)) && s.arrays[s.current] == [] && s.artifacts == {}
    requires NothingLate(s)
    ensures AllPersisted(Apply(s, Commit(true)))
  {
    CommitKeeps(s, true);
    forall n | n in s.pushed ensures Persisted(Apply(s, Commit(true)), n) {
      if !Persisted(s, n) { assert n in s.flight.value.inserted.value; }
    }
  }
}
