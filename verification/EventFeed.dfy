/** The network and dialog feed: the worker's log (apps/browser-worker/src/observations.py),
    filtered by input generation at each read, and the client that follows it with a cursor
    (packages/browser/src/camoufox-worker-driver.ts). Replies arrive in any order or not at
    all; they are consumed one at a time, and a hook that throws ends its batch. */
module EventFeed {
  import opened Wrappers

  type PageId = string
  type RequestId = nat
  type CallId = nat

  datatype Kind = Dialog | Started | Settled

  /** A log entry; its sequence number is its index. */
  datatype Entry = Entry(kind: Kind, page: PageId, request: RequestId)

  datatype Request = Request(page: PageId, generation: nat, settling: bool, settled: bool)

  datatype Worker = Worker(log: seq<Entry>, requests: seq<Request>, generation: nat)

  /** What `read` lets through: dialogs, and requests made under the current generation. */
  predicate Readable(w: Worker, i: int) {
    && 0 <= i < |w.log|
    && (w.log[i].kind == Dialog || (w.log[i].request < |w.requests|
        && w.requests[w.log[i].request].generation == w.generation))
  }

  function Read(w: Worker, from: nat): (r: seq<nat>)
    decreases |w.log| - from
  {
    if from >= |w.log| then []
    else (if Readable(w, from) then [from] else []) + Read(w, from + 1)
  }

  /** One reply: the entries read after the cursor the request carried, and the log's end. */
  datatype Reply = Reply(after: int, events: seq<nat>, cursor: int)

  /** `handled` is the history of entries taken up, `calls` of those given to a hook. */
  datatype Client = Client(cursor: int, hooks: set<PageId>, records: set<RequestId>, closed: bool,
    handled: seq<nat>, calls: seq<nat>)

  /** One turn of the loop over a batch. */
  function Handle(c: Client, log: seq<Entry>, i: nat): Client
    requires i < |log|
  {
    if c.closed || i <= c.cursor then c
    else
      var entry, c' := log[i], c.(cursor := i, handled := c.handled + [i]);
      if !Calls(c, log, i) then c'
      else c'.(calls := c.calls + [i], records := if entry.kind == Started then c.records + {entry.request}
          else c.records)
  }

  predicate Calls(c: Client, log: seq<Entry>, i: nat)
    requires i < |log|
  {
    && !c.closed && i > c.cursor && log[i].page in c.hooks
    && (log[i].kind == Settled ==> log[i].request in c.records)
  }

  /** An entry past the cursor is taken up, and a hook is called for it if its page has one; for
      the settlement of a request only if the start was handed on, which is put on record. */
  lemma HandledIs(c: Client, log: seq<Entry>, i: nat)
    requires i < |log|
    ensures var c' := Handle(c, log, i);
            if c.closed || i <= c.cursor then c' == c
            else
              && c'.cursor == i && c'.handled == c.handled + [i] && c'.hooks == c.hooks && !c'.closed
              && var called := log[i].page in c.hooks && (log[i].kind != Settled || log[i].request in c.records);
                 && c'.calls == (if called then c.calls + [i] else c.calls)
                 && c'.records == if called && log[i].kind == Started then c.records + {log[i].request} else c.records
  {
  }

  function Finish(c: Client, cursor: int): Client {
    c.(cursor := if cursor > c.cursor then cursor else c.cursor)
  }

  datatype State = State(worker: Worker, client: Client, sent: map<CallId, int>, replies: map<CallId, Reply>,
    queue: seq<Reply>, batch: Option<Reply>)

  const Fresh := State(Worker([], [], 0), Client(-1, {}, {}, false, [], []), map[], map[], [], None)

  datatype Step =
    | ShowDialog(page: PageId)
    | MakeRequest(page: PageId)           // entry and request together
    | BeginSettle(request: RequestId)     // the checks, before the response is awaited
    | EndSettle(request: RequestId)       // the entry, perhaps a generation later
    | NewGeneration
    | Hook(page: PageId)
    | Unhook(page: PageId)
    | Close
    | Send(n: CallId)
    | Answer(n: CallId)
    | Arrive(n: CallId)
    | Open                                // the chain reaches the next batch
    | Take(throws: bool)                  // the next entry of the batch
    | Done

  predicate Enabled(s: State, e: Step) {
    match e
    case BeginSettle(r) =>
      r < |s.worker.requests| && !s.worker.requests[r].settling
          && s.worker.requests[r].generation == s.worker.generation
    case EndSettle(r) => r < |s.worker.requests| && s.worker.requests[r].settling && !s.worker.requests[r].settled
    case Send(n) => !s.client.closed && n !in s.sent
    case Answer(n) => n in s.sent && n !in s.replies
    case Arrive(n) => n in s.replies
    case Open => s.batch.None? && s.queue != []
    case Take(throws) =>
      && s.batch.Some? && s.batch.value.events != [] && s.batch.value.events[0] < |s.worker.log|
      && (throws ==> Calls(s.client, s.worker.log, s.batch.value.events[0]))
    case Done => s.batch.Some? && s.batch.value.events == []
    case _ => true
  }

  function Append(w: Worker, entry: Entry): Worker {
    w.(log := w.log + [entry])
  }

  function Apply(s: State, e: Step): State
    requires Enabled(s, e)
  {
    var w, c := s.worker, s.client;
    match e
    case ShowDialog(page) => s.(worker := Append(w, Entry(Dialog, page, 0)))
    case MakeRequest(page) =>
      s.(worker := Append(w, Entry(Started, page, |w.requests|)).(
           requests := w.requests + [Request(page, w.generation, false, false)]))
    case BeginSettle(r) => s.(worker := w.(requests := w.requests[r := w.requests[r].(settling := true)]))
    case EndSettle(r) =>
      s.(worker := Append(w, Entry(Settled, w.requests[r].page, r)).(
           requests := w.requests[r := w.requests[r].(settled := true)]))
    case NewGeneration => s.(worker := w.(generation := w.generation + 1))
    case Hook(page) => s.(client := c.(hooks := c.hooks + {page}))
    case Unhook(page) => s.(client := c.(hooks := c.hooks - {page}))
    case Close => s.(client := c.(closed := true))
    case Send(n) => s.(sent := s.sent[n := c.cursor])
    case Answer(n) => s.(replies := s.replies[n := ReplyTo(w, s.sent[n])])
    case Arrive(n) => s.(queue := s.queue + [s.replies[n]])
    case Open => s.(batch := Some(s.queue[0]), queue := s.queue[1..])
    case Take(throws) =>
      var b := s.batch.value;
      s.(client := Handle(c, w.log, b.events[0]), batch := if throws then None else Some(b.(events := b.events[1..])))
    case Done => s.(client := Finish(c, s.batch.value.cursor), batch := None)
  }

  function ReplyTo(w: Worker, after: int): Reply {
    Reply(after, Read(w, if after + 1 >= 0 then after + 1 else 0), |w.log| - 1)
  }

  ghost predicate Run(s: State, es: seq<Step>, s': State)
    decreases |es|
  {
    if es == [] then s == s' else Enabled(s, es[0]) && Run(Apply(s, es[0]), es[1..], s')
  }

  ghost predicate Reachable(s: State) {
    exists es :: Run(Fresh, es, s)
  }

  // ---- the log ----

  /** Each request starts once, before it settles, and settles at most once. */
  ghost predicate LogOk(w: Worker) {
    && (forall i :: 0 <= i < |w.log| && w.log[i].kind != Dialog ==>
          w.log[i].request < |w.requests| && w.log[i].page == w.requests[w.log[i].request].page)
    && (forall i, j | 0 <= i < j < |w.log| && w.log[i].kind != Dialog && w.log[j].kind != Dialog ::
          w.log[i].request == w.log[j].request ==> w.log[i].kind == Started && w.log[j].kind == Settled)
    && (forall i :: 0 <= i < |w.log| && w.log[i].kind == Settled ==> w.requests[w.log[i].request].settled)
    && (forall r :: 0 <= r < |w.requests| ==> w.requests[r].generation <= w.generation && (w.requests[r].settled ==>
        w.requests[r].settling))
  }

  ghost predicate Ascending(events: seq<nat>, from: int, to: int) {
    && (forall k :: 0 <= k < |events| ==> from < events[k] <= to)
    && (forall k, l :: 0 <= k < l < |events| ==> events[k] < events[l])
  }

  /** Everything still readable past the cursor and up to the reply's end is yet to come in it. */
  ghost predicate ReplyOk(w: Worker, c: Client, r: Reply) {
    && -1 <= r.after <= c.cursor && r.cursor < |w.log|
    && Ascending(r.events, r.after, r.cursor)
    && (!c.closed ==> forall i :: c.cursor < i <= r.cursor && Readable(w, i) ==> i in r.events)
  }

  ghost predicate RepliesOk(s: State) {
    && (forall n :: n in s.sent ==> -1 <= s.sent[n] <= s.client.cursor)
    && (forall n :: n in s.replies ==> ReplyOk(s.worker, s.client, s.replies[n]))
    && (forall k :: 0 <= k < |s.queue| ==> ReplyOk(s.worker, s.client, s.queue[k]))
    && (s.batch.Some? ==> ReplyOk(s.worker, s.client, s.batch.value))
  }

  ghost predicate ClientOk(w: Worker, c: Client) {
    && -1 <= c.cursor < |w.log|
    && Ascending(c.handled, -1, c.cursor)
    && Ascending(c.calls, -1, c.cursor)
    && (forall i :: i in c.calls ==> i in c.handled)
    && (!c.closed ==> forall i :: 0 <= i <= c.cursor && Readable(w, i) ==> i in c.handled)
  }

  /** A request is on record, and a settlement handed on, only after its start was handed on. */
  ghost predicate RecordsOk(w: Worker, c: Client) {
    && (forall r :: r in c.records ==> StartCalled(w, c, r))
    && (forall i :: i in c.calls && i < |w.log| && w.log[i].kind == Settled ==> StartCalled(w, c, w.log[i].request))
  }

  ghost predicate StartCalled(w: Worker, c: Client, r: RequestId) {
    exists i :: i in c.calls && i < |w.log| && w.log[i].kind == Started && w.log[i].request == r
  }

  ghost predicate Inv(s: State) {
    LogOk(s.worker) && RepliesOk(s) && ClientOk(s.worker, s.client) && RecordsOk(s.worker, s.client)
  }

  /** The log only grows, and what is unreadable stays so. */
  ghost predicate Grows(w: Worker, w': Worker) {
    && w.log <= w'.log
    && (forall i :: 0 <= i < |w.log| && Readable(w', i) ==> Readable(w, i))
  }

  lemma {:induction false} ReadAscends(w: Worker, from: nat, before: int, to: int)
    requires from <= |w.log| && before == from - 1 && to == |w.log| - 1
    ensures Ascending(Read(w, from), before, to)
    decreases |w.log| - from
  {
    if from < |w.log| {
      var rest := Read(w, from + 1);
      ReadAscends(w, from + 1, from, to);
      if Readable(w, from) { PrependAscending(from, rest, to); }
    }
  }

  lemma {:induction false} ReadHas(w: Worker, from: nat, i: nat)
    requires from <= |w.log|
    ensures i in Read(w, from) <==> from <= i && Readable(w, i)
    decreases |w.log| - from
  {
    if from < |w.log| { ReadHas(w, from + 1, i); }
  }

  lemma PrependAscending(i: nat, rest: seq<nat>, to: int)
    requires Ascending(rest, i, to) && i <= to
    ensures Ascending([i] + rest, i - 1, to)
    ensures forall j :: j in [i] + rest <==> j == i || j in rest
  {
  }

  lemma AppendAscending(events: seq<nat>, from: int, to: int, i: nat)
    requires Ascending(events, from, to) && from <= to < i
    ensures Ascending(events + [i], from, i)
  {
  }

  lemma AnswerIsOk(w: Worker, c: Client, after: int)
    requires -1 <= after <= c.cursor < |w.log|
    ensures ReplyOk(w, c, ReplyTo(w, after))
  {
    ReadAscends(w, after + 1, after, |w.log| - 1);
    forall i: nat | after < i && Readable(w, i) ensures i in Read(w, after + 1) { ReadHas(w, after + 1, i); }
  }

  // ---- the worker's steps ----

  lemma AppendKeepsLog(w: Worker, entry: Entry, requests: seq<Request>)
    requires LogOk(w) && |w.requests| <= |requests|
    requires forall r :: 0 <= r < |w.requests| ==>
               requests[r].page == w.requests[r].page && (w.requests[r].settled ==> requests[r].settled)
    requires forall r :: 0 <= r < |requests| ==>
               requests[r].generation <= w.generation && (requests[r].settled ==> requests[r].settling)
    requires entry.kind != Dialog ==> entry.request < |requests| && requests[entry.request].page == entry.page
    requires entry.kind == Started ==> entry.request == |w.requests|
    requires entry.kind == Settled ==>
               entry.request < |w.requests| && !w.requests[entry.request].settled && requests[entry.request].settled
    ensures LogOk(Append(w, entry).(requests := requests))
  {
  }

  lemma WorkerKeeps(s: State, e: Step)
    requires LogOk(s.worker) && Enabled(s, e)
    ensures LogOk(Apply(s, e).worker) && Grows(s.worker, Apply(s, e).worker)
  {
    var w, w' := s.worker, Apply(s, e).worker;
    match e
    case ShowDialog(page) => AppendKeepsLog(w, Entry(Dialog, page, 0), w.requests);
    case MakeRequest(page) => AppendKeepsLog(w, Entry(Started, page, |w.requests|), w'.requests);
    case EndSettle(r) => AppendKeepsLog(w, Entry(Settled, w.requests[r].page, r), w'.requests);
    case _ => assert w.log == w'.log;
  }

  lemma GrownReplyKeeps(w: Worker, w': Worker, c: Client, c': Client, r: Reply)
    requires ReplyOk(w, c, r) && Grows(w, w') && c.cursor <= c'.cursor && (c.closed ==> c'.closed)
    ensures ReplyOk(w', c', r)
  {
  }

  lemma GrownClientKeeps(w: Worker, w': Worker, c: Client)
    requires ClientOk(w, c) && RecordsOk(w, c) && Grows(w, w')
    ensures ClientOk(w', c) && RecordsOk(w', c)
  {
    assert forall i :: 0 <= i < |w.log| ==> w'.log[i] == w.log[i];
  }

  // ---- the client's steps ----

  /** A turn leaves no readable entry behind, because the batch is in order and complete. */
  lemma HandleKeeps(w: Worker, c: Client, r: Reply)
    requires ClientOk(w, c) && ReplyOk(w, c, r) && r.events != []
    ensures var c' := Handle(c, w.log, r.events[0]);
            && ClientOk(w, c') && c.cursor <= c'.cursor
            && ReplyOk(w, c', r.(events := r.events[1..]))
  {
    var i := r.events[0];
    var c' := Handle(c, w.log, i);
    if c' != c {
      AppendAscending(c.handled, -1, c.cursor, i);
      AppendAscending(c.calls, -1, c.cursor, i);
    }
    if !c.closed { HandleMisses(w, c, r); }
  }

  lemma HandleMisses(w: Worker, c: Client, r: Reply)
    requires ReplyOk(w, c, r) && r.events != [] && !c.closed
    ensures forall j :: c.cursor < j <= r.events[0] && Readable(w, j) ==> j == r.events[0]
    ensures forall j :: j in r.events && j > r.events[0] ==> j in r.events[1..]
  {
  }

  lemma HandleKeepsRecords(w: Worker, c: Client, i: nat)
    requires i < |w.log| && RecordsOk(w, c)
    ensures RecordsOk(w, Handle(c, w.log, i))
  {
    var c' := Handle(c, w.log, i);
    assert forall j :: j in c.calls ==> j in c'.calls;
    assert forall q :: StartCalled(w, c, q) ==> StartCalled(w, c', q);
  }

  // ---- every run ----

  lemma RepliesKeep(s: State, s': State)
    requires RepliesOk(s) && Grows(s.worker, s'.worker)
    requires s.client.cursor <= s'.client.cursor && (s.client.closed ==> s'.client.closed)
    requires s'.sent == s.sent && s'.replies == s.replies && s'.queue == s.queue && s'.batch.None?
    ensures RepliesOk(s')
  {
    forall n | n in s.replies ensures ReplyOk(s'.worker, s'.client, s'.replies[n]) {
      GrownReplyKeeps(s.worker, s'.worker, s.client, s'.client, s.replies[n]);
    }
    forall k | 0 <= k < |s.queue| ensures ReplyOk(s'.worker, s'.client, s'.queue[k]) {
      GrownReplyKeeps(s.worker, s'.worker, s.client, s'.client, s.queue[k]);
    }
  }

  predicate WorkerStep(e: Step) {
    e.ShowDialog? || e.MakeRequest? || e.BeginSettle? || e.EndSettle? || e.NewGeneration?
  }

  lemma WorkerStepKeeps(s: State, e: Step)
    requires Inv(s) && Enabled(s, e) && WorkerStep(e)
    ensures Inv(Apply(s, e))
  {
    var s' := Apply(s, e);
    WorkerKeeps(s, e);
    GrownClientKeeps(s.worker, s'.worker, s.client);
    RepliesKeep(s.(batch := None), s'.(batch := None));
    if s.batch.Some? { GrownReplyKeeps(s.worker, s'.worker, s.client, s'.client, s.batch.value); }
  }

  lemma TurnKeeps(s: State, throws: bool)
    requires Inv(s) && Enabled(s, Take(throws))
    ensures Inv(Apply(s, Take(throws)))
  {
    var s' := Apply(s, Take(throws));
    HandleKeeps(s.worker, s.client, s.batch.value);
    HandleKeepsRecords(s.worker, s.client, s.batch.value.events[0]);
    RepliesKeep(s.(batch := None), s'.(batch := None));
  }

  lemma DoneKeeps(s: State)
    requires Inv(s) && Enabled(s, Done)
    ensures Inv(Apply(s, Done))
  {
    RepliesKeep(s, Apply(s, Done));
  }

  predicate PassingStep(e: Step) {
    e.Hook? || e.Unhook? || e.Close? || e.Send? || e.Answer? || e.Arrive? || e.Open?
  }

  lemma PassingStepKeeps(s: State, e: Step)
    requires Inv(s) && Enabled(s, e) && PassingStep(e)
    ensures Inv(Apply(s, e))
  {
    match e
    case Answer(n) => AnswerIsOk(s.worker, s.client, s.sent[n]);
    case _ =>
  }

  lemma ApplyKeeps(s: State, e: Step)
    requires Inv(s) && Enabled(s, e)
    ensures Inv(Apply(s, e))
  {
    match e
    case Take(throws) => TurnKeeps(s, throws);
    case Done => DoneKeeps(s);
    case _ => if WorkerStep(e) { WorkerStepKeeps(s, e); } else { PassingStepKeeps(s, e); }
  }

  lemma {:induction false} RunKeeps(s: State, es: seq<Step>, s': State)
    requires Inv(s) && Run(s, es, s')
    ensures Inv(s')
    decreases |es|
  {
    if es != [] {
      ApplyKeeps(s, es[0]);
      RunKeeps(Apply(s, es[0]), es[1..], s');
    }
  }

  lemma ReachableInv(s: State)
    requires Reachable(s)
    ensures Inv(s)
  {
    var es :| Run(Fresh, es, s);
    RunKeeps(Fresh, es, s);
  }

  /** A read gives the entries after the cursor that are dialogs or belong to requests made under
      the present generation, in order, and its end is the end of the log. */
  lemma ReadIsExact(w: Worker, after: int, i: nat)
    ensures var r := ReplyTo(w, after);
            && (i in r.events <==>
                  && after < i < |w.log|
                  && (w.log[i].kind == Dialog
                      || (w.log[i].request < |w.requests|
                          && w.requests[w.log[i].request].generation == w.generation)))
            && (forall k, l :: 0 <= k < l < |r.events| ==> r.events[k] < r.events[l])
            && r.after == after && r.cursor == |w.log| - 1
  {
    var from := if after + 1 >= 0 then after + 1 else 0;
    if from <= |w.log| {
      ReadHas(w, from, i);
      ReadAscends(w, from, from - 1, |w.log| - 1);
    }
  }

  /** A request of the present generation settles once: its settlement is begun, perhaps long
      before it is entered, and cannot be begun or entered again. */
  lemma SettlementIs(s: State, r: RequestId)
    requires r < |s.worker.requests| && !s.worker.requests[r].settling && !s.worker.requests[r].settled
    ensures Enabled(s, BeginSettle(r)) <==> s.worker.requests[r].generation == s.worker.generation
    ensures Enabled(s, BeginSettle(r)) ==>
              var begun := Apply(s, BeginSettle(r));
              && begun.worker.log == s.worker.log && !Enabled(begun, BeginSettle(r)) && Enabled(begun, EndSettle(r))
              && var ended := Apply(begun, EndSettle(r));
                 && ended.worker.log == s.worker.log + [Entry(Settled, s.worker.requests[r].page, r)]
                 && !Enabled(ended, BeginSettle(r)) && !Enabled(ended, EndSettle(r))
  {
  }

  /** Requests keep the generation they were made under, and generations only rise. */
  ghost predicate Ages(w: Worker, w': Worker) {
    && w.generation <= w'.generation && |w.requests| <= |w'.requests|
    && (forall r :: 0 <= r < |w.requests| ==> w'.requests[r].generation == w.requests[r].generation)
  }

  lemma {:induction false} RunAges(s: State, es: seq<Step>, s': State)
    requires Run(s, es, s')
    ensures Ages(s.worker, s'.worker)
    decreases |es|
  {
    if es != [] {
      assert Ages(s.worker, Apply(s, es[0]).worker);
      RunAges(Apply(s, es[0]), es[1..], s');
    }
  }

  /** After a change of generation no reply holds an entry of a request made before it. */
  lemma OldRequestsStayHidden(s: State, es: seq<Step>, s': State, after: int, i: nat)
    requires Reachable(s) && Run(Apply(s, NewGeneration), es, s') && i in ReplyTo(s'.worker, after).events
    ensures i < |s'.worker.log|
    ensures s'.worker.log[i].kind == Dialog || s'.worker.log[i].request >= |s.worker.requests|
  {
    ReachableInv(s);
    RunAges(Apply(s, NewGeneration), es, s');
    ReadIsExact(s'.worker, after, i);
  }

  /** Entries are taken up, and handed to hooks, at most once each and in the log's order. */
  lemma AtMostOnceInOrder(s: State, k: nat, l: nat)
    requires Reachable(s) && k < l
    ensures l < |s.client.handled| ==> s.client.handled[k] < s.client.handled[l] <= s.client.cursor < |s.worker.log|
    ensures l < |s.client.calls| ==> s.client.calls[k] < s.client.calls[l] && s.client.calls[l] in s.client.handled
  {
    ReachableInv(s);
  }

  /** Nothing at or below the cursor was missed, save what a change of generation has hidden. */
  lemma NoGapBelowCursor(s: State, i: nat)
    requires Reachable(s) && !s.client.closed && i <= s.client.cursor
    ensures i < |s.worker.log|
    ensures s.worker.log[i].kind == Dialog ==> i in s.client.handled
    ensures s.worker.log[i].kind != Dialog ==>
              && s.worker.log[i].request < |s.worker.requests|
              && (s.worker.requests[s.worker.log[i].request].generation == s.worker.generation ==>
                    i in s.client.handled)
  {
    ReachableInv(s);
  }

  predicate SameRequest(log: seq<Entry>, i: nat, j: nat) {
    i < |log| && j < |log| && log[i].kind != Dialog && log[j].kind != Dialog && log[i].request == log[j].request
  }

  /** A settlement reaches a hook once at most, and after the one start of its request did. */
  lemma SettlesOnceAfterStart(s: State, k: nat) returns (j: nat)
    requires Reachable(s) && k < |s.client.calls| && s.client.calls[k] < |s.worker.log|
              && s.worker.log[s.client.calls[k]].kind == Settled
    ensures j < k && s.client.calls[j] < |s.worker.log|
    ensures s.worker.log[s.client.calls[j]] == s.worker.log[s.client.calls[k]].(kind := Started)
    ensures forall l | 0 <= l < |s.client.calls| ::
              SameRequest(s.worker.log, s.client.calls[l], s.client.calls[k]) ==> l == j || l == k
  {
    ReachableInv(s);
    var c, log := s.client, s.worker.log;
    assert StartCalled(s.worker, c, log[c.calls[k]].request);
    var i :| i in c.calls && i < |log| && log[i].kind == Started && log[i].request == log[c.calls[k]].request;
    j :| 0 <= j < |c.calls| && c.calls[j] == i;
    assert c.calls[j] < c.calls[k];
    AscendingIndices(c.calls, c.cursor, j, k);
    forall l | 0 <= l < |c.calls| && SameRequest(log, c.calls[l], c.calls[k])
      ensures l == j || l == k
    {
      OnlyTwo(s.worker, c.calls[j], c.calls[k], c.calls[l]);
    }
  }

  lemma AscendingIndices(events: seq<nat>, to: int, k: nat, l: nat)
    requires Ascending(events, -1, to) && k < |events| && l < |events|
    ensures events[k] < events[l] <==> k < l
  {
    if l < k { assert events[l] < events[k]; }
  }

  lemma OnlyTwo(w: Worker, i: nat, j: nat, k: nat)
    requires LogOk(w) && i < |w.log| && j < |w.log| && k < |w.log|
    requires w.log[i].kind == Started && w.log[j].kind == Settled && w.log[k].kind != Dialog
    requires w.log[i].request == w.log[j].request == w.log[k].request
    ensures i < j && (k == i || k == j)
  {
  }

  // ---- the loop over a batch ----

  ghost predicate Within(r: Reply, log: seq<Entry>) {
    forall k :: 0 <= k < |r.events| ==> r.events[k] < |log|
  }

  /** The batch consumed: hooks that throw end it there, and then the reply's end is not used. */
  ghost function Consumed(c: Client, log: seq<Entry>, r: Reply, throws: set<nat>): Client
    requires Within(r, log)
    decreases |r.events|
  {
    if r.events == [] then Finish(c, r.cursor)
    else
      var i := r.events[0];
      var next := Handle(c, log, i);
      if i in throws && Calls(c, log, i) then next else Consumed(next, log, r.(events := r.events[1..]), throws)
  }

  /** Some hook that is called for the batch throws. */
  ghost predicate Throws(c: Client, log: seq<Entry>, r: Reply, throws: set<nat>)
    requires Within(r, log)
    decreases |r.events|
  {
    r.events != []
    && ((r.events[0] in throws && Calls(c, log, r.events[0]))
        || Throws(Handle(c, log, r.events[0]), log, r.(events := r.events[1..]), throws))
  }

  /** Consuming a batch is a run of the machine that ends with the chain free. */
  lemma {:induction false} ConsumedIsRun(s: State, throws: set<nat>) returns (es: seq<Step>)
    requires s.batch.Some? && Within(s.batch.value, s.worker.log)
    ensures Run(s, es, s.(client := Consumed(s.client, s.worker.log, s.batch.value, throws), batch := None))
    decreases |s.batch.value.events|
  {
    var r := s.batch.value;
    if r.events == [] {
      es := [Done];
    } else {
      var i := r.events[0];
      var thrown := i in throws && Calls(s.client, s.worker.log, i);
      var next := Apply(s, Take(thrown));
      if thrown {
        es := [Take(true)];
      } else {
        var rest := ConsumedIsRun(next, throws);
        es := [Take(false)] + rest;
        assert es[1..] == rest;
      }
    }
  }

  // ---- the client can always catch up ----

  lemma {:induction false} ConsumedReaches(c: Client, log: seq<Entry>, r: Reply)
    requires Within(r, log)
    ensures var c' := Consumed(c, log, r, {});
            c'.cursor >= r.cursor && c'.cursor >= c.cursor && c'.hooks == c.hooks && c'.closed == c.closed
    decreases |r.events|
  {
    if r.events != [] { ConsumedReaches(Handle(c, log, r.events[0]), log, r.(events := r.events[1..])); }
  }

  lemma {:induction false} RunJoin(s: State, es: seq<Step>, m: State, more: seq<Step>, s': State)
    requires Run(s, es, m) && Run(m, more, s')
    ensures Run(s, es + more, s')
    decreases |es|
  {
    if es == [] {
      assert es + more == more;
    } else {
      RunJoin(Apply(s, es[0]), es[1..], m, more, s');
      assert (es + more)[1..] == es[1..] + more;
    }
  }

  /** The worker and the client's subscriptions are as they were, and the cursor has not moved
      back. */
  predicate MovedOn(s: State, s': State) {
    && s'.worker == s.worker && s'.client.hooks == s.client.hooks && s'.client.closed == s.client.closed
    && s'.client.cursor >= s.client.cursor
  }

  lemma BatchEnds(s: State) returns (es: seq<Step>, s': State)
    requires Inv(s) && s.batch.Some?
    ensures Run(s, es, s') && Inv(s') && MovedOn(s, s') && s'.client.cursor >= s.batch.value.cursor
    ensures s'.batch.None? && s'.queue == s.queue && s'.sent == s.sent && s'.replies == s.replies
  {
    var r := s.batch.value;
    es := ConsumedIsRun(s, {});
    s' := s.(client := Consumed(s.client, s.worker.log, r, {}), batch := None);
    ConsumedReaches(s.client, s.worker.log, r);
    RunKeeps(s, es, s');
  }

  lemma NextBatchEnds(s: State) returns (es: seq<Step>, s': State)
    requires Inv(s) && s.batch.None? && s.queue != []
    ensures Run(s, es, s') && Inv(s') && MovedOn(s, s') && s'.client.cursor >= s.queue[0].cursor
    ensures s'.batch.None? && s'.queue == s.queue[1..] && s'.sent == s.sent && s'.replies == s.replies
  {
    ApplyKeeps(s, Open);
    var rest;
    rest, s' := BatchEnds(Apply(s, Open));
    es := [Open] + rest;
    assert es[1..] == rest;
  }

  lemma {:induction false} QueueEnds(s: State) returns (es: seq<Step>, s': State)
    requires Inv(s) && s.batch.None?
    ensures Run(s, es, s') && MovedOn(s, s') && Inv(s')
    ensures forall k :: 0 <= k < |s.queue| ==> s'.client.cursor >= s.queue[k].cursor
    decreases |s.queue|
  {
    if s.queue == [] {
      es, s' := [], s;
    } else {
      var first, m := NextBatchEnds(s);
      var rest;
      rest, s' := QueueEnds(m);
      RunJoin(s, first, m, rest, s');
      es := first + rest;
      assert forall k :: 1 <= k < |s.queue| ==> s.queue[k] == m.queue[k - 1];
    }
  }

  lemma {:induction false} Unused(used: set<CallId>) returns (n: CallId)
    ensures forall m :: m in used ==> m < n
  {
    if used == {} {
      n := 0;
    } else {
      var m :| m in used;
      n := Unused(used - {m});
      if n <= m { n := m + 1; }
      assert forall k :: k in used ==> k == m || k in used - {m};
    }
  }

  /** Only the transport moves. */
  predicate MovesTransport(s: State, s': State) {
    s'.client == s.client && s'.worker == s.worker && s'.batch == s.batch
  }

  lemma OneStep(s: State, e: Step)
    requires Inv(s) && Enabled(s, e)
    ensures Run(s, [e], Apply(s, e)) && Inv(Apply(s, e))
  {
    ApplyKeeps(s, e);
    assert [e][1..] == [];
  }

  lemma Asks(s: State) returns (n: CallId, s': State)
    requires Inv(s) && !s.client.closed
    ensures Run(s, [Send(n)], s') && Inv(s') && MovesTransport(s, s') && n in s'.sent && n !in s'.replies
  {
    n := Unused(s.sent.Keys + s.replies.Keys);
    assert n !in s.sent.Keys + s.replies.Keys;
    OneStep(s, Send(n));
    s' := Apply(s, Send(n));
  }

  lemma IsAnswered(s: State, n: CallId) returns (s': State)
    requires Inv(s) && n in s.sent && n !in s.replies
    ensures Run(s, [Answer(n)], s') && Inv(s') && MovesTransport(s, s')
    ensures n in s'.replies && s'.replies[n].cursor == |s.worker.log| - 1
  {
    OneStep(s, Answer(n));
    s' := Apply(s, Answer(n));
  }

  lemma GetsAnswer(s: State, n: CallId) returns (s': State)
    requires Inv(s) && n in s.replies
    ensures Run(s, [Arrive(n)], s') && Inv(s') && MovesTransport(s, s') && s'.queue == s.queue + [s.replies[n]]
  {
    OneStep(s, Arrive(n));
    s' := Apply(s, Arrive(n));
  }

  /** The client asks once more, and the answer comes. */
  lemma AsksAgain(s: State) returns (es: seq<Step>, s': State)
    requires Inv(s) && !s.client.closed
    ensures Run(s, es, s') && Inv(s') && MovesTransport(s, s')
    ensures s'.queue != [] && s'.queue[|s'.queue| - 1].cursor == |s.worker.log| - 1
  {
    var n, sent := Asks(s);
    var answered := IsAnswered(sent, n);
    s' := GetsAnswer(answered, n);
    RunJoin(s, [Send(n)], sent, [Answer(n)], answered);
    RunJoin(s, [Send(n)] + [Answer(n)], answered, [Arrive(n)], s');
    es := [Send(n)] + [Answer(n)] + [Arrive(n)];
  }

  /** From any state a client that is open can take up everything there is to see: nothing that
      was lost, late or thrown keeps it from that. */
  lemma CatchesUp(s: State) returns (es: seq<Step>, s': State)
    requires Reachable(s) && !s.client.closed
    ensures Run(s, es, s') && MovedOn(s, s') && s'.client.cursor == |s.worker.log| - 1
    ensures forall i :: i in ReplyTo(s.worker, -1).events ==> i in s'.client.handled
  {
    ReachableInv(s);
    var first, m := [], s;
    if s.batch.Some? { first, m := BatchEnds(s); }
    var asked, arrived := AsksAgain(m);
    var rest;
    rest, s' := QueueEnds(arrived);
    RunJoin(s, first, m, asked, arrived);
    RunJoin(s, first + asked, arrived, rest, s');
    es := first + asked + rest;
    SeenIsHandled(s');
  }

  lemma SeenIsHandled(s: State)
    requires Inv(s) && !s.client.closed && s.client.cursor >= |s.worker.log| - 1
    ensures s.client.cursor == |s.worker.log| - 1
    ensures forall i :: i in ReplyTo(s.worker, -1).events ==> i in s.client.handled
  {
    forall i | i in ReplyTo(s.worker, -1).events ensures i in s.client.handled { ReadIsExact(s.worker, -1, i); }
  }

  class Driver {
    var eventCursor: int
    var pageHooks: set<PageId>
    var records: set<RequestId>
    var closed: bool
    ghost var handled: seq<nat>
    ghost var calls: seq<nat>

    ghost function Value(): Client
      reads this
    {
      Client(eventCursor, pageHooks, records, closed, handled, calls)
    }

    method Consume(log: seq<Entry>, r: Reply, throws: set<nat>) returns (ok: bool)
      requires Within(r, log)
      modifies this`eventCursor, this`records, this`handled, this`calls
      ensures Value() == Consumed(old(Value()), log, r, throws)
      ensures ok <==> !Throws(old(Value()), log, r, throws)
      ensures ok ==> eventCursor >= r.cursor
    {
      var k := 0;
      while k < |r.events|
        invariant k <= |r.events| && closed == old(closed) && pageHooks == old(pageHooks)
        invariant Consumed(Value(), log, r.(events := r.events[k..]), throws) == Consumed(old(Value()), log, r, throws)
        invariant Throws(Value(), log, r.(events := r.events[k..]), throws) == Throws(old(Value()), log, r, throws)
      {
        var i := r.events[k];
        assert r.events[k..][1..] == r.events[k + 1..];
        k := k + 1;
        if closed || i <= eventCursor { continue; }
        ghost var before := Value();
        eventCursor := i;
        handled := handled + [i];
        var entry := log[i];
        if entry.page !in pageHooks { continue; }
        if entry.kind == Dialog {
          calls := calls + [i];
        } else if entry.kind == Started {
          records := records + {entry.request};
          calls := calls + [i];
        } else {
          if entry.request !in records { continue; }
          calls := calls + [i];
        }
        assert Value() == Handle(before, log, i);
        if i in throws { return false; }
      }
      eventCursor := if r.cursor > eventCursor then r.cursor else eventCursor;
      return true;
    }
  }
}
