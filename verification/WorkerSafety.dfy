/** What every event of the worker protocol keeps, and what that means for its callers. */
module WorkerSafety {
  import opened Wrappers
  import opened WorkerControl

  // ---- what every event keeps ----

  ghost predicate NoUnfinished(s: State) {
    forall o :: o in s.ops ==> s.ops[o].finished
  }

  ghost predicate LockInv(tasks: map<TaskId, Point>, lock: Option<TaskId>) {
    && (lock.Some? ==> lock.value in tasks && HoldsCommandLock(tasks[lock.value]))
    && (forall t :: t in tasks && HoldsCommandLock(tasks[t]) ==> lock == Some(t))
  }

  ghost predicate PageInv(tasks: map<TaskId, Point>, pageLocks: map<string, TaskId>, ops: map<OpId, Operation>) {
    && (forall t :: t in tasks && HoldsPage(tasks[t]) ==>
          tasks[t].c.page in pageLocks && pageLocks[tasks[t].c.page] == t)
    && (forall o :: o in ops && !ops[o].finished && !ops[o].automation ==>
          ops[o].caller in tasks && tasks[ops[o].caller].Awaiting?
          && tasks[ops[o].caller].op == o && tasks[ops[o].caller].c.page == ops[o].page)
  }

  /** Every unfinished operation is tracked, and belongs to the AI at the current input generation. */
  ghost predicate OpsInv(session: Option<Session>, ops: map<OpId, Operation>) {
    forall o :: o in ops && !ops[o].finished ==>
      && session.Some? && o in session.value.inflight
      && session.value.owner == Ai && ops[o].inputGeneration == session.value.inputGeneration
  }

  ghost predicate CommandsInv(session: Option<Session>, ops: map<OpId, Operation>) {
    && (forall o :: o in ops && session.Some? ==> ops[o].commandId in session.value.commands)
    && (forall o, o' :: o in ops && o' in ops && o != o' ==> ops[o].commandId != ops[o'].commandId)
    && (session.Some? ==> |session.value.commands| <= COMMAND_BUDGET)
  }

  ghost predicate LifeInv(session: Option<Session>, ops: map<OpId, Operation>, sessions: nat, used: bool) {
    && sessions <= 1
    && (sessions == 1 ==> used)
    && (session.Some? ==> sessions == 1)
    && (sessions == 0 ==> ops == map[])
  }

  /** A stop took input generation `g` from an owner, after acknowledgement `i` and among the
      first `n`. */
  ghost predicate StoppedBetween(pauses: seq<Pause>, g: nat, i: nat, n: nat) {
    exists k :: 0 <= k < |pauses| && Stops(pauses[k], g) && i < pauses[k].acks <= n
  }

  predicate Stops(p: Pause, g: nat) {
    p.inputGeneration == g && p.found != Paused
  }

  ghost predicate AckInv(session: Option<Session>, acks: seq<Ack>, pauses: seq<Pause>, sessions: nat) {
    && (forall i, j :: 0 <= i < j < |acks| ==> acks[i].inputGeneration <= acks[j].inputGeneration)
    && (forall i, j :: 0 <= i < j < |acks| && acks[i].inputGeneration == acks[j].inputGeneration ==>
          (acks[i].owner != acks[j].owner <==> StoppedBetween(pauses, acks[i].inputGeneration, i, j)))
    && (forall k :: 0 <= k < |pauses| ==> pauses[k].acks <= |acks|)
    && (|acks| > 0 || |pauses| > 0 ==> sessions == 1)
    && (session.Some? ==> AcksFit(session.value.inputGeneration, session.value.owner, acks, pauses))
  }

  /** The session's present generation and owner, as the next acknowledgement would have them. */
  ghost predicate AcksFit(g: nat, owner: Owner, acks: seq<Ack>, pauses: seq<Pause>) {
    && (forall k :: 0 <= k < |pauses| ==> pauses[k].inputGeneration <= g)
    && (forall k :: 0 <= k < |pauses| && Stops(pauses[k], g) ==> owner == Paused)
    && (forall i :: 0 <= i < |acks| ==> acks[i].inputGeneration <= g)
    && (forall i :: 0 <= i < |acks| && acks[i].inputGeneration == g ==>
          (acks[i].owner != owner <==> StoppedBetween(pauses, g, i, |acks|)))
  }

  ghost predicate ViewInv(tasks: map<TaskId, Point>, viewActive: bool) {
    && (forall t :: t in tasks && ControlView(tasks[t]) ==> viewActive)
    && (forall t, t' :: t in tasks && t' in tasks && ControlView(tasks[t]) && ControlView(tasks[t']) ==> t == t')
  }

  /** What the holder of the command lock has established at its suspension point. */
  ghost predicate HolderInv(s: State, p: Point) {
    match p
    case Admitting(c) => AdmissionHolds(s, c)
    case Starting(c) => AdmissionHolds(s, c)
    case Repeating(g, owner) => s.session.Some? && s.session.value.inputGeneration == g
        && s.session.value.owner == owner
    case ClosingScopes(p) => s.session.Some? && (p.Takeover? ==> s.session.value.inputGeneration < p.inputGeneration)
    case Draining(p, waiting) =>
      && s.session.Some? && (p.Takeover? ==> s.session.value.inputGeneration < p.inputGeneration)
      && (forall o :: o in s.ops && !s.ops[o].finished ==> o in waiting)
    case Switching(g, _) => s.session.Some? && s.session.value.inputGeneration < g && NoUnfinished(s)
    case Stopping => s.session.Some? && s.session.value.owner == Paused && NoUnfinished(s)
    case Launching(_, _) => s.session.None? && s.used && s.sessions == 0
    case Settling => s.session.Some?
    case Acting(h) =>
      && s.session.Some? && s.session.value.owner == Human && s.session.value.inputGeneration == h.inputGeneration
      && s.session.value.id == h.sessionId && s.session.value.generation == h.generation
    case Writing(v) => ViewAllowed(s.session, v)
    case _ => true
  }

  ghost predicate AdmissionHolds(s: State, c: Command) {
    && s.session.Some? && s.session.value.owner == Ai && s.session.value.inputGeneration == c.inputGeneration
    && s.session.value.id == c.sessionId && c.commandId in s.session.value.commands
    && (forall o :: o in s.ops ==> s.ops[o].commandId != c.commandId)
  }

  ghost predicate HoldersInv(s: State) {
    s.lock.Some? && s.lock.value in s.tasks ==> HolderInv(s, s.tasks[s.lock.value])
  }

  ghost predicate Inv(s: State) {
    && LockInv(s.tasks, s.lock) && PageInv(s.tasks, s.pageLocks, s.ops)
    && ViewInv(s.tasks, s.viewActive) && HoldersInv(s)
    && OpsInv(s.session, s.ops) && CommandsInv(s.session, s.ops)
    && LifeInv(s.session, s.ops, s.sessions, s.used) && AckInv(s.session, s.acks, s.pauses, s.sessions)
  }

  lemma LeaveKeeps(s: State, t: TaskId)
    requires Inv(s) && t in s.tasks
    requires s.tasks[t].Awaiting? ==> s.tasks[t].op in s.ops && s.ops[s.tasks[t].op].finished
    ensures Inv(Leave(s, t))
  {
  }

  lemma MoveKeeps(s: State, t: TaskId, next: Point)
    requires Inv(s) && t in s.tasks && !s.tasks[t].Awaiting? && !next.Awaiting?
    requires HoldsCommandLock(next) == HoldsCommandLock(s.tasks[t])
    requires HoldsPage(next) == HoldsPage(s.tasks[t])
    requires HoldsPage(next) ==> next.c.page == s.tasks[t].c.page
    requires ControlView(next) ==> ControlView(s.tasks[t])
    requires HoldsCommandLock(next) ==> HolderInv(s, next)
    ensures Inv(s.(tasks := s.tasks[t := next]))
  {
  }

  lemma LockKeeps(s: State, t: TaskId, next: Point)
    requires Inv(s) && t in s.tasks && s.lock.None? && !s.tasks[t].Awaiting?
    requires HoldsCommandLock(next) && HolderInv(s, next)
    requires HoldsPage(next) == HoldsPage(s.tasks[t])
    requires HoldsPage(next) ==> next.c.page == s.tasks[t].c.page
    requires ControlView(next) ==> ControlView(s.tasks[t])
    ensures Inv(Lock(s, t, next))
  {
  }

  lemma SpendKeeps(s: State, c: Command)
    requires Inv(s) && s.lock.None? && s.session.Some?
    requires Admit(s.session.value, c).Some?
    ensures Inv(s.(session := Admit(s.session.value, c)))
    ensures AdmissionHolds(s.(session := Admit(s.session.value, c)), c)
  {
  }

  lemma ArriveKeeps(s: State, t: TaskId, at: Point)
    requires Inv(s) && t !in s.tasks && FirstPoint(at)
    ensures Inv(s.(tasks := s.tasks[t := at]))
  {
  }

  lemma TakePageKeepsPages(s: State, t: TaskId)
    requires LockInv(s.tasks, s.lock) && PageInv(s.tasks, s.pageLocks, s.ops) && ViewInv(s.tasks, s.viewActive)
    requires Enabled(s, TakePage(t))
    ensures var s' := Apply(s, TakePage(t));
            && LockInv(s'.tasks, s'.lock) && PageInv(s'.tasks, s'.pageLocks, s'.ops)
            && ViewInv(s'.tasks, s'.viewActive)
  {
  }

  lemma TakePageKeeps(s: State, t: TaskId)
    requires Inv(s) && Enabled(s, TakePage(t))
    ensures Inv(Apply(s, TakePage(t)))
  {
    TakePageKeepsPages(s, t);
  }

  lemma FinishKeeps(s: State, op: OpId)
    requires Inv(s) && Enabled(s, Finish(op))
    ensures Inv(Apply(s, Finish(op)))
  {
  }

  lemma ForgetKeeps(s: State, op: OpId)
    requires Inv(s) && op in s.ops && s.ops[op].finished
    ensures Inv(Forget(s, op))
  {
  }

  lemma BeginKeepsData(s: State, c: Command, op: OpId, operation: Operation)
    requires AdmissionHolds(s, c) && op !in s.ops && !operation.finished
    requires operation.commandId == c.commandId && operation.inputGeneration == c.inputGeneration
    requires OpsInv(s.session, s.ops) && CommandsInv(s.session, s.ops)
    requires LifeInv(s.session, s.ops, s.sessions, s.used) && AckInv(s.session, s.acks, s.pauses, s.sessions)
    ensures var s' := Begin(s, op, operation);
            && OpsInv(s'.session, s'.ops) && CommandsInv(s'.session, s'.ops)
            && LifeInv(s'.session, s'.ops, s'.sessions, s'.used) && AckInv(s'.session, s'.acks, s'.pauses, s'.sessions)
  {
  }

  lemma BeginKeeps(s: State, t: TaskId, op: OpId)
    requires Inv(s) && t in s.tasks && s.tasks[t].Admitting? && op !in s.ops
    ensures Inv(Proceeded(s, t, op))
  {
    var c := s.tasks[t].c;
    BeginKeepsData(s, c, op, Operation(c.commandId, c.inputGeneration, c.page, t, false, false));
  }

  lemma BeginAutomationKeeps(s: State, t: TaskId, op: OpId)
    requires Inv(s) && t in s.tasks && s.tasks[t].Starting? && op !in s.ops
    ensures Inv(Proceeded(s, t, op))
  {
    var c := s.tasks[t].c;
    BeginKeepsData(s, c, op, Operation(c.commandId, c.inputGeneration, c.page, t, true, false));
  }

  lemma AckOnceMore(session: Session, acks: seq<Ack>, pauses: seq<Pause>, sessions: nat)
    requires AckInv(Some(session), acks, pauses, sessions) && sessions == 1
    ensures AckInv(Some(session), acks + [Ack(session.inputGeneration, session.owner)], pauses, sessions)
  {
    var more := acks + [Ack(session.inputGeneration, session.owner)];
    assert forall i :: 0 <= i < |acks| ==> more[i] == acks[i];
    forall i: nat | i < |acks|
      ensures StoppedBetween(pauses, session.inputGeneration, i, |more|)
              <==> StoppedBetween(pauses, session.inputGeneration, i, |acks|)
    {
    }
  }

  lemma AckNewGeneration(session: Session, g: nat, owner: Owner, acks: seq<Ack>, pauses: seq<Pause>, sessions: nat)
    requires AckInv(Some(session), acks, pauses, sessions) && sessions == 1 && session.inputGeneration < g
    ensures AckInv(Some(session.(inputGeneration := g, owner := owner)), acks + [Ack(g, owner)], pauses, sessions)
  {
    var more := acks + [Ack(g, owner)];
    assert forall i :: 0 <= i < |acks| ==> more[i] == acks[i];
  }

  lemma AckPaused(session: Session, acks: seq<Ack>, pauses: seq<Pause>, sessions: nat)
    requires AckInv(Some(session), acks, pauses, sessions) && sessions == 1
    ensures AckInv(Some(session.(owner := Paused)), acks,
                   pauses + [Pause(session.inputGeneration, session.owner, |acks|)], sessions)
  {
    var g, pause := session.inputGeneration, Pause(session.inputGeneration, session.owner, |acks|);
    var more := pauses + [pause];
    assert forall k :: 0 <= k < |pauses| ==> more[k] == pauses[k];
    assert more[|pauses|] == pause;
    forall h: nat, i: nat, n: nat | i < n < |acks|
      ensures StoppedBetween(more, h, i, n) <==> StoppedBetween(pauses, h, i, n)
    {
      if StoppedBetween(pauses, h, i, n) {
        var k :| 0 <= k < |pauses| && Stops(pauses[k], h) && i < pauses[k].acks <= n;
        assert Stops(more[k], h);
      }
    }
    forall i: nat | i < |acks| && acks[i].inputGeneration == g
      ensures acks[i].owner != Paused <==> StoppedBetween(more, g, i, |acks|)
    {
      if session.owner == Paused {
        assert StoppedBetween(pauses, g, i, |acks|) ==> StoppedBetween(more, g, i, |acks|) by {
          if StoppedBetween(pauses, g, i, |acks|) {
            var k :| 0 <= k < |pauses| && Stops(pauses[k], g) && i < pauses[k].acks <= |acks|;
            assert Stops(more[k], g);
          }
        }
      } else {
        assert Stops(more[|pauses|], g);
      }
    }
  }

  lemma AcknowledgeKeeps(s: State, t: TaskId, op: OpId)
    requires Inv(s) && t in s.tasks && s.tasks[t].Repeating?
    ensures Inv(Proceeded(s, t, op))
  {
    LeaveKeeps(s, t);
    AckOnceMore(s.session.value, s.acks, s.pauses, s.sessions);
  }

  lemma SwitchKeeps(s: State, t: TaskId, op: OpId)
    requires Inv(s) && t in s.tasks && s.tasks[t].Switching?
    ensures Inv(Proceeded(s, t, op))
  {
    var Switching(g, owner) := s.tasks[t];
    AckNewGeneration(s.session.value, g, owner, s.acks, s.pauses, s.sessions);
  }

  lemma DrainedKeeps(s: State, t: TaskId, g: nat, owner: Owner, waiting: set<OpId>)
    requires Inv(s) && t in s.tasks && s.tasks[t] == Draining(Takeover(g, owner), waiting)
    requires CanProceed(s, s.tasks[t], 0)
    ensures Inv(s.(tasks := s.tasks[t := Switching(g, owner)]))
  {
    assert forall o :: o in s.ops && !s.ops[o].finished ==> o in waiting && Unfinished(s, o);
    MoveKeeps(s, t, Switching(g, owner));
  }

  lemma PauseKeeps(s: State, t: TaskId, waiting: set<OpId>)
    requires Inv(s) && t in s.tasks && s.tasks[t] == Draining(Shutdown, waiting)
    requires CanProceed(s, s.tasks[t], 0)
    ensures Inv(Proceeded(s, t, 0))
  {
    assert forall o :: o in s.ops && !s.ops[o].finished ==> o in waiting && Unfinished(s, o);
    assert NoUnfinished(s);
    PauseIdleKeeps(s, t);
  }

  lemma PauseIdleKeeps(s: State, t: TaskId)
    requires Inv(s) && t in s.tasks && s.tasks[t].Draining? && NoUnfinished(s)
    ensures s.session.Some?
    ensures Inv(s.(tasks := s.tasks[t := Stopping], session := Some(s.session.value.(owner := Paused)),
                   pauses := s.pauses + [Pause(s.session.value.inputGeneration, s.session.value.owner, |s.acks|)]))
  {
    AckPaused(s.session.value, s.acks, s.pauses, s.sessions);
  }

  lemma StopKeeps(s: State, t: TaskId, op: OpId)
    requires Inv(s) && t in s.tasks && s.tasks[t].Stopping?
    ensures Inv(Proceeded(s, t, op))
  {
  }

  lemma LaunchKeeps(s: State, t: TaskId, op: OpId)
    requires Inv(s) && t in s.tasks && s.tasks[t].Launching?
    ensures Inv(Proceeded(s, t, op))
  {
  }

  lemma ConnectKeeps(s: State, t: TaskId, v: Viewer)
    requires Inv(s) && t in s.tasks && s.tasks[t] == WantView(v)
    requires v.control ==> !s.viewActive
    ensures Inv(s.(tasks := s.tasks[t := Connecting(v)], viewActive := s.viewActive || v.control))
  {
  }

  lemma UnlockKeeps(s: State, t: TaskId, v: Viewer, next: Point)
    requires Inv(s) && t in s.tasks && s.tasks[t] == Writing(v) && next in {Viewing(v), Closing(v)}
    ensures Inv(s.(tasks := s.tasks[t := next], lock := None))
  {
  }

  lemma EndViewKeeps(s: State, t: TaskId)
    requires Inv(s) && t in s.tasks && !s.tasks[t].Awaiting?
    ensures Inv(EndView(s, t))
  {
    LeaveKeeps(s, t);
  }

  lemma StopViewingKeeps(s: State, t: TaskId, v: Viewer)
    requires Inv(s) && t in s.tasks && s.tasks[t] in {Viewing(v), WantWrite(v), Writing(v)}
    ensures Inv(StopViewing(s, t, v))
  {
    if s.tasks[t].Writing? { UnlockKeeps(s, t, v, Closing(v)); } else { MoveKeeps(s, t, Closing(v)); }
  }

  lemma BreakKeeps(s: State, t: TaskId, cancelled: bool)
    requires Inv(s) && Enabled(s, Break(t, cancelled))
    ensures Inv(Broken(s, t, cancelled))
  {
    var p := s.tasks[t];
    if p.Viewing? || p.WantWrite? || p.Writing? { BreakStopsViewing(s, t, cancelled); }
    else if p.Connecting? && !cancelled { EndViewKeeps(s, t); }
    else { BreakLeaves(s, t, cancelled); }
  }

  lemma BreakStopsViewing(s: State, t: TaskId, cancelled: bool)
    requires Inv(s) && t in s.tasks && (s.tasks[t].Viewing? || s.tasks[t].WantWrite? || s.tasks[t].Writing?)
    ensures Inv(Broken(s, t, cancelled))
  {
    StopViewingKeeps(s, t, s.tasks[t].v);
    assert Broken(s, t, cancelled) == StopViewing(s, t, s.tasks[t].v);
  }

  lemma BreakLeaves(s: State, t: TaskId, cancelled: bool)
    requires Inv(s) && Enabled(s, Break(t, cancelled)) && (s.tasks[t].Connecting? ==> cancelled)
    requires !s.tasks[t].Viewing? && !s.tasks[t].WantWrite? && !s.tasks[t].Writing?
    ensures Inv(Broken(s, t, cancelled))
  {
    LeaveKeeps(s, t);
    assert Broken(s, t, cancelled) == Leave(s, t);
  }

  // ---- the events ----

  lemma AcquireControlKeeps(s: State, t: TaskId, r: ControlRequest)
    requires Inv(s) && t in s.tasks && s.tasks[t] == WantControl(r) && s.lock.None?
    ensures Inv(Acquired(s, t))
  {
    LeaveKeeps(s, t);
    if s.session.Some? {
      match DecideControl(s.session.value, r)
      case Repeat => LockKeeps(s, t, Repeating(s.session.value.inputGeneration, s.session.value.owner));
      case Drain(g, owner) => LockKeeps(s, t, ClosingScopes(Takeover(g, owner)));
      case _ =>
    }
  }

  lemma AcquireLifeKeeps(s: State, t: TaskId)
    requires Inv(s) && t in s.tasks && (s.tasks[t].WantStop? || s.tasks[t].WantSession?) && s.lock.None?
    ensures Inv(Acquired(s, t))
  {
    LeaveKeeps(s, t);
    match s.tasks[t]
    case WantStop(_, _) =>
      if s.session.Some? { LockKeeps(s, t, ClosingScopes(Shutdown)); }
    case WantSession(id, generation) =>
      if s.session.None? && !s.used { LockKeeps(s.(used := true), t, Launching(id, generation)); }
  }

  lemma AcquireHumanKeeps(s: State, t: TaskId)
    requires Inv(s) && t in s.tasks && s.lock.None?
    requires s.tasks[t].WantHuman? || s.tasks[t].WantView? || s.tasks[t].WantWrite?
    ensures Inv(Acquired(s, t))
  {
    match s.tasks[t]
    case WantHuman(h) =>
      LeaveKeeps(s, t);
      if s.session.Some? && HumanAllowed(s.session.value, h, s.viewActive) { LockKeeps(s, t, Acting(h)); }
    case WantView(v) =>
      LeaveKeeps(s, t);
      if v.control ==> !s.viewActive { ConnectKeeps(s, t, v); }
    case WantWrite(v) => AcquireWriteKeeps(s, t, v);
  }

  lemma AcquireWriteKeeps(s: State, t: TaskId, v: Viewer)
    requires Inv(s) && t in s.tasks && s.tasks[t] == WantWrite(v) && s.lock.None?
    ensures Inv(Acquired(s, t))
  {
    if ViewAllowed(s.session, v) { LockKeeps(s, t, Writing(v)); } else { StopViewingKeeps(s, t, v); }
  }

  lemma AcquireKeeps(s: State, t: TaskId)
    requires Inv(s) && Enabled(s, Acquire(t))
    ensures Inv(Acquired(s, t))
  {
    match s.tasks[t]
    case WantAdmission(c) => AdmittedKeeps(s, t, c, Admitting(c));
    case WantStart(c) => AdmittedKeeps(s, t, c, Starting(c));
    case WantControl(r) => AcquireControlKeeps(s, t, r);
    case WantStop(_, _) => AcquireLifeKeeps(s, t);
    case WantSession(_, _) => AcquireLifeKeeps(s, t);
    case WantHuman(_) => AcquireHumanKeeps(s, t);
    case WantView(_) => AcquireHumanKeeps(s, t);
    case WantWrite(_) => AcquireHumanKeeps(s, t);
  }

  lemma AdmittedKeeps(s: State, t: TaskId, c: Command, next: Point)
    requires Inv(s) && t in s.tasks && s.lock.None?
    requires || (s.tasks[t] == WantAdmission(c) && next == Admitting(c))
             || (s.tasks[t] == WantStart(c) && next == Starting(c))
    ensures Inv(Admitted(s, t, c, next))
  {
    LeaveKeeps(s, t);
    if s.session.Some? && Admit(s.session.value, c).Some? {
      SpendKeeps(s, c);
      LockKeeps(s.(session := Admit(s.session.value, c)), t, next);
    }
  }

  lemma ClearPathKeeps(s: State, t: TaskId)
    requires Inv(s) && Enabled(s, Proceed(t, 0)) && (s.tasks[t].ClosingScopes? || s.tasks[t].Draining?)
    ensures Inv(Proceeded(s, t, 0))
  {
    match s.tasks[t]
    case ClosingScopes(p) =>
      MoveKeeps(s, t, Draining(p, if s.session.Some? then s.session.value.inflight else {}));
    case Draining(p, waiting) =>
      match p {
        case Takeover(g, owner) => DrainedKeeps(s, t, g, owner, waiting);
        case Shutdown => PauseKeeps(s, t, waiting);
      }
  }

  predicate LetsGo(p: Point) {
    p.Settling? || p.Acting? || p.Connecting? || p.Accepting? || p.Viewing? || p.Writing? || p.Closing?
  }

  lemma LetGoKeeps(s: State, t: TaskId)
    requires Inv(s) && Enabled(s, Proceed(t, 0)) && LetsGo(s.tasks[t])
    ensures Inv(Proceeded(s, t, 0))
  {
    var p := s.tasks[t];
    if p.Settling? || p.Acting? { EndKeeps(s, t); }
    else if p.Closing? { EndViewKeeps(s, t); }
    else if p.Writing? { UnlockKeeps(s, t, p.v, Viewing(p.v)); }
    else { NextViewKeeps(s, t); }
  }

  lemma EndKeeps(s: State, t: TaskId)
    requires Inv(s) && t in s.tasks && (s.tasks[t].Settling? || s.tasks[t].Acting?)
    ensures Inv(Proceeded(s, t, 0))
  {
    LeaveKeeps(s, t);
    assert Proceeded(s, t, 0) == Leave(s, t);
  }

  lemma NextViewKeeps(s: State, t: TaskId)
    requires Inv(s) && t in s.tasks && (s.tasks[t].Connecting? || s.tasks[t].Accepting? || s.tasks[t].Viewing?)
    ensures Inv(Proceeded(s, t, 0))
  {
    var v := s.tasks[t].v;
    var next := if s.tasks[t].Connecting? then Accepting(v) else if s.tasks[t].Accepting? then Viewing(v)
                else WantWrite(v);
    MoveKeeps(s, t, next);
    assert Proceeded(s, t, 0) == s.(tasks := s.tasks[t := next]);
  }

  predicate StartsWork(p: Point) {
    p.Admitting? || p.Starting? || p.Launching?
  }

  lemma StartKeeps(s: State, t: TaskId, op: OpId)
    requires Inv(s) && Enabled(s, Proceed(t, op)) && StartsWork(s.tasks[t])
    ensures Inv(Proceeded(s, t, op))
  {
    match s.tasks[t]
    case Admitting(_) => BeginKeeps(s, t, op);
    case Starting(_) => BeginAutomationKeeps(s, t, op);
    case Launching(_, _) => LaunchKeeps(s, t, op);
  }

  lemma ProceedKeeps(s: State, t: TaskId, op: OpId)
    requires Inv(s) && Enabled(s, Proceed(t, op))
    ensures Inv(Proceeded(s, t, op))
  {
    var p := s.tasks[t];
    if StartsWork(p) { StartKeeps(s, t, op); }
    else if LetsGo(p) { LetGoKeeps(s, t); }
    else if p.ClosingScopes? || p.Draining? { ClearPathKeeps(s, t); }
    else if p.Repeating? { AcknowledgeKeeps(s, t, op); }
    else if p.Switching? { SwitchKeeps(s, t, op); }
    else { StopKeeps(s, t, op); }
  }

  lemma ApplyKeeps(s: State, e: Event)
    requires Inv(s) && Enabled(s, e)
    ensures Inv(Apply(s, e))
  {
    match e
    case Arrive(t, at) => ArriveKeeps(s, t, at);
    case TakePage(t) => TakePageKeeps(s, t);
    case Acquire(t) => AcquireKeeps(s, t);
    case Proceed(t, op) => ProceedKeeps(s, t, op);
    case Break(t, cancelled) => BreakKeeps(s, t, cancelled);
    case Finish(op) => FinishKeeps(s, op);
    case Return(t) =>
      LeaveKeeps(s, t);
      ForgetKeeps(Leave(s, t), s.tasks[t].op);
    case Discard(op) => ForgetKeeps(s, op);
    case CloseContext => CloseContextKeeps(s);
  }

  lemma CloseContextKeeps(s: State)
    requires Inv(s) && s.session.Some?
    ensures Inv(s.(session := Some(s.session.value.(contextClosed := true))))
  {
  }

  lemma {:induction false} RunKeeps(s: State, es: seq<Event>, s': State)
    requires Inv(s) && Run(s, es, s')
    ensures Inv(s')
    decreases |es|
  {
    if es != [] {
      ApplyKeeps(s, es[0]);
      RunKeeps(Apply(s, es[0]), es[1..], s');
    }
  }

  lemma ReachableInv(s: State)
    requires Reachable(s)
    ensures Inv(s)
  {
    var es :| Run(Idle, es, s);
    RunKeeps(Idle, es, s);
  }

  lemma {:induction false} RunThen(s: State, es: seq<Event>, m: State, e: Event)
    requires Run(s, es, m) && Enabled(m, e)
    ensures Run(s, es + [e], Apply(m, e))
    decreases |es|
  {
    if es != [] {
      assert (es + [e])[1..] == es[1..] + [e];
      RunThen(Apply(s, es[0]), es[1..], m, e);
    }
  }

  lemma ReachableThen(s: State, e: Event)
    requires Reachable(s) && Enabled(s, e)
    ensures Reachable(Apply(s, e))
  {
    var es :| Run(Idle, es, s);
    RunThen(Idle, es, s, e);
  }

  // ---- what this means for the callers ----

  /** A human keystroke, paste or navigation is under way. */
  ghost predicate HumanInput(s: State) {
    exists t :: t in s.tasks && HumanPoint(s.tasks[t])
  }

  predicate HumanPoint(p: Point) {
    p.Acting? || (p.Writing? && p.v.control)
  }

  lemma InputFollowsOwner(s: State)
    requires LockInv(s.tasks, s.lock) && OpsInv(s.session, s.ops) && HoldersInv(s)
    ensures HumanInput(s) ==> NoUnfinished(s)
    ensures forall t :: t in s.tasks && HumanPoint(s.tasks[t]) ==>
              && s.session.Some? && s.session.value.owner == Human
              && s.session.value.inputGeneration ==
                 (if s.tasks[t].Acting? then s.tasks[t].h.inputGeneration else s.tasks[t].v.inputGeneration)
  {
  }

  lemma AiAndHumanNeverOverlap(s: State)
    requires Reachable(s)
    ensures HumanInput(s) ==> NoUnfinished(s)
    ensures forall o :: Unfinished(s, o) ==>
              && s.session.Some? && s.session.value.owner == Ai
              && s.ops[o].inputGeneration == s.session.value.inputGeneration
    ensures forall t :: t in s.tasks && HumanPoint(s.tasks[t]) ==>
              && s.session.Some? && s.session.value.owner == Human
              && s.session.value.inputGeneration ==
                 (if s.tasks[t].Acting? then s.tasks[t].h.inputGeneration else s.tasks[t].v.inputGeneration)
  {
    ReachableInv(s);
    InputFollowsOwner(s);
  }

  lemma OneOperationPerCommand(s: State, o: OpId, o': OpId)
    requires Reachable(s) && o in s.ops && o' in s.ops && s.ops[o].commandId == s.ops[o'].commandId
    ensures o == o'
  {
    ReachableInv(s);
  }

  /** Commands for one page run one at a time, even when their callers have gone away. */
  lemma PagesAreSerial(s: State, o: OpId, o': OpId)
    requires Reachable(s) && Unfinished(s, o) && Unfinished(s, o')
    requires !s.ops[o].automation && !s.ops[o'].automation && s.ops[o].page == s.ops[o'].page
    ensures o == o'
  {
    ReachableInv(s);
  }

  /** A worker serves one session in its life, and none after it. */
  lemma OneSessionPerWorker(s: State, e: Event)
    requires Reachable(s) && Enabled(s, e)
    ensures s.sessions <= 1
    ensures s.sessions == 1 && s.session.None? ==> Apply(s, e).session.None? && Apply(s, e).sessions == 1
  {
    ReachableInv(s);
    if s.sessions == 1 && s.session.None? { EndedStaysEnded(s, e); }
  }

  lemma EndedStaysEnded(s: State, e: Event)
    requires s.sessions == 1 && s.session.None? && s.used && Enabled(s, e)
    requires LockInv(s.tasks, s.lock) && HoldersInv(s)
    ensures Apply(s, e).session.None? && Apply(s, e).sessions == 1
  {
    if e.Proceed? { EndedProceeds(s, e.t, e.op); }
  }

  lemma EndedProceeds(s: State, t: TaskId, op: OpId)
    requires s.sessions == 1 && s.session.None? && LockInv(s.tasks, s.lock) && HoldersInv(s)
    requires Enabled(s, Proceed(t, op))
    ensures Proceeded(s, t, op).session.None? && Proceeded(s, t, op).sessions == 1
  {
    assert HoldsCommandLock(s.tasks[t]) ==> HolderInv(s, s.tasks[t]);
  }

  /** Acknowledged input generations never decrease, and one of them is acknowledged for two
      owners exactly when a stop took it from its owner in between. */
  lemma AcknowledgementsOnlyAdvance(s: State, i: nat, j: nat)
    requires Reachable(s) && i < j < |s.acks|
    ensures s.acks[i].inputGeneration <= s.acks[j].inputGeneration
    ensures s.acks[i].inputGeneration == s.acks[j].inputGeneration ==>
              (s.acks[i].owner != s.acks[j].owner <==> StoppedBetween(s.pauses, s.acks[i].inputGeneration, i, j))
  {
    ReachableInv(s);
  }

  // ---- a takeover is never stuck behind the operations it waits for ----

  ghost predicate IsDraining(s: State, t: TaskId) {
    s.lock == Some(t) && t in s.tasks && s.tasks[t].Draining?
  }

  /** The draining handler is neither resumed nor broken. */
  predicate LeavesAlone(e: Event, t: TaskId) {
    (e.Break? || e.Proceed?) ==> e.t != t
  }

  /** At most this handler moves. */
  predicate MovesOne(s: State, s': State, t: TaskId) {
    s'.tasks == s.tasks - {t} || (t in s'.tasks && s'.tasks == s.tasks[t := s'.tasks[t]])
  }

  lemma AdmissionMovesOne(s: State, t: TaskId, c: Command, next: Point)
    requires t in s.tasks && s.lock.None?
    ensures MovesOne(s, Admitted(s, t, c, next), t)
  {
    var s' := Admitted(s, t, c, next);
    if s.session.Some? && Admit(s.session.value, c).Some? {
      assert s' == Lock(s.(session := Admit(s.session.value, c)), t, next);
    } else {
      assert s' == Leave(s, t);
    }
  }

  lemma ControlMovesOne(s: State, t: TaskId, r: ControlRequest)
    requires Enabled(s, Acquire(t)) && s.tasks[t] == WantControl(r)
    ensures MovesOne(s, Acquired(s, t), t)
  {
  }

  lemma OtherAcquireMovesOne(s: State, t: TaskId)
    requires Enabled(s, Acquire(t)) && !s.tasks[t].WantAdmission? && !s.tasks[t].WantStart? && !s.tasks[t].WantControl?
    ensures MovesOne(s, Acquired(s, t), t)
  {
    match s.tasks[t]
    case WantView(_) => ViewMovesOne(s, t);
    case WantWrite(_) => ViewMovesOne(s, t);
    case _ => LifeOrHumanMovesOne(s, t);
  }

  lemma ViewMovesOne(s: State, t: TaskId)
    requires Enabled(s, Acquire(t)) && (s.tasks[t].WantView? || s.tasks[t].WantWrite?)
    ensures MovesOne(s, Acquired(s, t), t)
  {
  }

  lemma LifeOrHumanMovesOne(s: State, t: TaskId)
    requires Enabled(s, Acquire(t)) && (s.tasks[t].WantStop? || s.tasks[t].WantSession? || s.tasks[t].WantHuman?)
    ensures MovesOne(s, Acquired(s, t), t)
  {
  }

  lemma AcquireMovesOne(s: State, t: TaskId)
    requires Enabled(s, Acquire(t))
    ensures MovesOne(s, Acquired(s, t), t)
  {
    match s.tasks[t]
    case WantAdmission(c) => AdmissionMovesOne(s, t, c, Admitting(c));
    case WantStart(c) => AdmissionMovesOne(s, t, c, Starting(c));
    case WantControl(r) => ControlMovesOne(s, t, r);
    case _ => OtherAcquireMovesOne(s, t);
  }

  lemma StartMovesOne(s: State, t: TaskId, op: OpId)
    requires Enabled(s, Proceed(t, op)) && StartsWork(s.tasks[t])
    ensures MovesOne(s, Proceeded(s, t, op), t)
  {
  }

  lemma LetGoMovesOne(s: State, t: TaskId, op: OpId)
    requires Enabled(s, Proceed(t, op)) && LetsGo(s.tasks[t])
    ensures MovesOne(s, Proceeded(s, t, op), t)
  {
  }

  lemma HandoverMovesOne(s: State, t: TaskId, op: OpId)
    requires Enabled(s, Proceed(t, op)) && !StartsWork(s.tasks[t]) && !LetsGo(s.tasks[t])
    ensures MovesOne(s, Proceeded(s, t, op), t)
  {
  }

  lemma ProceedMovesOne(s: State, t: TaskId, op: OpId)
    requires Enabled(s, Proceed(t, op))
    ensures MovesOne(s, Proceeded(s, t, op), t)
  {
    if StartsWork(s.tasks[t]) { StartMovesOne(s, t, op); }
    else if LetsGo(s.tasks[t]) { LetGoMovesOne(s, t, op); }
    else { HandoverMovesOne(s, t, op); }
  }

  lemma BreakMovesOne(s: State, t: TaskId, cancelled: bool)
    requires Enabled(s, Break(t, cancelled))
    ensures MovesOne(s, Broken(s, t, cancelled), t)
  {
  }

  /** While a handler drains, nothing starts, and nothing else can move that handler. */
  lemma DrainAdmitsNothing(s: State, t: TaskId, e: Event)
    requires LockInv(s.tasks, s.lock) && IsDraining(s, t) && Enabled(s, e) && LeavesAlone(e, t)
    ensures IsDraining(Apply(s, e), t) && Apply(s, e).tasks[t] == s.tasks[t]
    ensures forall o :: Unfinished(Apply(s, e), o) <==> Unfinished(s, o) && e != Finish(o)
  {
    match e
    case Proceed(u, op) => DrainStandsProceed(s, t, u, op);
    case Break(u, cancelled) => DrainStandsBreak(s, t, u, cancelled);
    case _ => DrainStandsRest(s, t, e);
  }

  lemma DrainStandsProceed(s: State, t: TaskId, u: TaskId, op: OpId)
    requires LockInv(s.tasks, s.lock) && IsDraining(s, t) && Enabled(s, Proceed(u, op)) && u != t
    ensures IsDraining(Proceeded(s, u, op), t) && Proceeded(s, u, op).tasks[t] == s.tasks[t]
    ensures Proceeded(s, u, op).ops == s.ops
  {
    assert !HoldsCommandLock(s.tasks[u]);
    ProceedMovesOne(s, u, op);
    UnlockedProceed(s, u, op);
  }

  lemma DrainStandsBreak(s: State, t: TaskId, u: TaskId, cancelled: bool)
    requires LockInv(s.tasks, s.lock) && IsDraining(s, t) && Enabled(s, Break(u, cancelled)) && u != t
    ensures IsDraining(Broken(s, u, cancelled), t) && Broken(s, u, cancelled).tasks[t] == s.tasks[t]
    ensures Broken(s, u, cancelled).ops == s.ops
  {
    assert !HoldsCommandLock(s.tasks[u]);
    BreakMovesOne(s, u, cancelled);
  }

  lemma DrainStandsRest(s: State, t: TaskId, e: Event)
    requires IsDraining(s, t) && Enabled(s, e) && !e.Proceed? && !e.Break?
    ensures IsDraining(Apply(s, e), t) && Apply(s, e).tasks[t] == s.tasks[t]
    ensures forall o :: Unfinished(Apply(s, e), o) <==> Unfinished(s, o) && e != Finish(o)
  {
  }

  /** Without the command lock a resumed handler starts nothing and frees nobody's lock. */
  lemma UnlockedProceed(s: State, u: TaskId, op: OpId)
    requires Enabled(s, Proceed(u, op)) && !HoldsCommandLock(s.tasks[u])
    ensures Proceeded(s, u, op).ops == s.ops && Proceeded(s, u, op).lock == s.lock
  {
  }

  lemma {:induction false} DrainStays(s: State, t: TaskId, es: seq<Event>, s': State)
    requires Inv(s) && IsDraining(s, t) && Run(s, es, s') && forall e :: e in es ==> LeavesAlone(e, t)
    ensures IsDraining(s', t) && s'.tasks[t] == s.tasks[t]
    ensures forall o :: Unfinished(s', o) <==> Unfinished(s, o) && Finish(o) !in es
    decreases |es|
  {
    if es != [] {
      DrainAdmitsNothing(s, t, es[0]);
      ApplyKeeps(s, es[0]);
      assert es == [es[0]] + es[1..];
      DrainStays(Apply(s, es[0]), t, es[1..], s');
    }
  }

  /** Whatever else happens, the drain can end exactly when each operation that was open when
      it began to wait has ended: it waits for nothing that comes later. */
  lemma DrainEndsWithItsOperations(s: State, t: TaskId, es: seq<Event>, s': State)
    requires Reachable(s) && IsDraining(s, t) && Run(s, es, s') && forall e :: e in es ==> LeavesAlone(e, t)
    ensures IsDraining(s', t)
    ensures Enabled(s', Proceed(t, 0)) <==> forall o :: Unfinished(s, o) ==> Finish(o) in es
  {
    ReachableInv(s);
    DrainStays(s, t, es, s');
    assert forall o :: Unfinished(s, o) ==> o in s.tasks[t].waiting;
  }

  lemma OneControlViewer(s: State, t: TaskId, t': TaskId)
    requires Reachable(s) && t in s.tasks && t' in s.tasks
    requires ControlView(s.tasks[t]) && ControlView(s.tasks[t'])
    ensures t == t' && s.viewActive
  {
    ReachableInv(s);
  }
}
