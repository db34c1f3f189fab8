/** Two promises the worker does not keep, each with a run that shows it. */
module WorkerLapses {
  import opened Wrappers
  import opened WorkerControl
  import opened WorkerSafety

  ghost predicate ViewerLost(s: State) {
    s.viewActive && forall t :: t in s.tasks ==> !ControlView(s.tasks[t])
  }

  /** Once a control viewer ends without its cleanup, no human is ever admitted again. */
  lemma {:induction false} LostViewerIsForever(s: State, es: seq<Event>, s': State)
    requires ViewerLost(s) && Run(s, es, s')
    ensures ViewerLost(s')
    decreases |es|
  {
    if es != [] {
      LostViewerStep(s, es[0]);
      LostViewerIsForever(Apply(s, es[0]), es[1..], s');
    }
  }

  lemma LostViewerStep(s: State, e: Event)
    requires ViewerLost(s) && Enabled(s, e)
    ensures ViewerLost(Apply(s, e))
  {
    match e
    case Acquire(t) => LostViewerAcquire(s, t);
    case Proceed(t, op) => LostViewerProceed(s, t, op);
    case Break(t, cancelled) => LostViewerBreak(s, t, cancelled);
    case _ =>
  }

  lemma LostViewerAcquire(s: State, t: TaskId)
    requires ViewerLost(s) && Enabled(s, Acquire(t))
    ensures ViewerLost(Acquired(s, t))
  {
    AcquireMovesOne(s, t);
    AcquireKeepsFlag(s, t);
  }

  lemma AcquireKeepsFlag(s: State, t: TaskId)
    requires s.viewActive && Enabled(s, Acquire(t)) && !ControlView(s.tasks[t])
    ensures var s' := Acquired(s, t); s'.viewActive && (t in s'.tasks ==> !ControlView(s'.tasks[t]))
  {
    match s.tasks[t]
    case WantAdmission(c) => AdmissionKeepsFlag(s, t, c, Admitting(c));
    case WantStart(c) => AdmissionKeepsFlag(s, t, c, Starting(c));
    case _ =>
  }

  lemma AdmissionKeepsFlag(s: State, t: TaskId, c: Command, next: Point)
    requires s.viewActive && t in s.tasks && s.lock.None? && next in {Admitting(c), Starting(c)}
    ensures var s' := Admitted(s, t, c, next); s'.viewActive && (t in s'.tasks ==> !ControlView(s'.tasks[t]))
  {
  }

  lemma LostViewerBreak(s: State, t: TaskId, cancelled: bool)
    requires ViewerLost(s) && Enabled(s, Break(t, cancelled))
    ensures ViewerLost(Broken(s, t, cancelled))
  {
  }

  lemma LostViewerProceed(s: State, t: TaskId, op: OpId)
    requires ViewerLost(s) && Enabled(s, Proceed(t, op))
    ensures ViewerLost(Proceeded(s, t, op))
  {
    ProceedMovesOne(s, t, op);
    LostStaysSet(s, t, op);
  }

  lemma LostStaysSet(s: State, t: TaskId, op: OpId)
    requires s.viewActive && Enabled(s, Proceed(t, op)) && !ControlView(s.tasks[t])
    ensures var s' := Proceeded(s, t, op); s'.viewActive && (t in s'.tasks ==> !ControlView(s'.tasks[t]))
  {
    if StartsWork(s.tasks[t]) { StartKeepsFlag(s, t, op); }
    else if LetsGo(s.tasks[t]) { LetGoKeepsFlag(s, t, op); }
    else { HandoverKeepsFlag(s, t, op); }
  }

  lemma StartKeepsFlag(s: State, t: TaskId, op: OpId)
    requires s.viewActive && Enabled(s, Proceed(t, op)) && StartsWork(s.tasks[t])
    ensures var s' := Proceeded(s, t, op); s'.viewActive && (t in s'.tasks ==> !ControlView(s'.tasks[t]))
  {
  }

  lemma LetGoKeepsFlag(s: State, t: TaskId, op: OpId)
    requires s.viewActive && Enabled(s, Proceed(t, op)) && LetsGo(s.tasks[t]) && !ControlView(s.tasks[t])
    ensures var s' := Proceeded(s, t, op); s'.viewActive && (t in s'.tasks ==> !ControlView(s'.tasks[t]))
  {
  }

  lemma HandoverKeepsFlag(s: State, t: TaskId, op: OpId)
    requires s.viewActive && Enabled(s, Proceed(t, op)) && !StartsWork(s.tasks[t]) && !LetsGo(s.tasks[t])
    ensures var s' := Proceeded(s, t, op); s'.viewActive && (t in s'.tasks ==> !ControlView(s'.tasks[t]))
  {
  }

  function Fresh(owner: Owner, inputGeneration: nat): Session {
    Session("s", 1, inputGeneration, owner, {}, {}, false)
  }

  function Quiet(session: Session, acks: seq<Ack>, pauses: seq<Pause>): State {
    State(Some(session), true, false, None, map[], map[], map[], acks, pauses, 1)
  }

  /** One handler, numbered 0, in an otherwise idle worker without operations. */
  function At(session: Session, p: Point, acks: seq<Ack>, pauses: seq<Pause>): State {
    Quiet(session, acks, pauses).(tasks := map[0 := p], lock := if HoldsCommandLock(p) then Some(0) else None)
  }

  lemma Step(s: State, e: Event) returns (s': State)
    requires Reachable(s) && Enabled(s, e)
    ensures Reachable(s') && s' == Apply(s, e)
  {
    ReachableThen(s, e);
    s' := Apply(s, e);
  }

  lemma Arrived(session: Session, p: Point, acks: seq<Ack>, pauses: seq<Pause>) returns (s: State)
    requires Reachable(Quiet(session, acks, pauses)) && FirstPoint(p)
    ensures Reachable(s) && s == At(session, p, acks, pauses)
  {
    s := Step(Quiet(session, acks, pauses), Arrive(0, p));
  }

  /** A worker that has just started its only session. */
  lemma Started() returns (s: State)
    ensures Reachable(s) && s == Quiet(Fresh(Ai, 1), [], [])
  {
    assert Run(Idle, [], Idle);
    s := Step(Idle, Arrive(0, WantSession("s", 1)));
    s := Step(s, Acquire(0));
    assert s.tasks == map[0 := Launching("s", 1)];
    s := Step(s, Proceed(0, 0));
    assert s == At(Fresh(Ai, 1), Settling, [], []);
    s := Step(s, Proceed(0, 0));
    assert s.tasks == map[];
  }

  /** A control request for the current generation and owner is acknowledged again. */
  lemma Repeated(s: State, owner: string) returns (s': State)
    requires Reachable(s) && s.session.Some? && s == Quiet(s.session.value, s.acks, s.pauses)
    requires !s.session.value.contextClosed && ParseOwner(owner) == Some(s.session.value.owner)
    ensures Reachable(s')
    ensures s' == Quiet(s.session.value, s.acks + [Ack(s.session.value.inputGeneration, s.session.value.owner)],
              s.pauses)
  {
    var session := s.session.value;
    var r := ControlRequest(session.id, session.generation, session.inputGeneration, owner);
    s' := Arrived(session, WantControl(r), s.acks, s.pauses);
    assert DecideControl(session, r) == Repeat;
    s' := Step(s', Acquire(0));
    assert s' == At(session, Repeating(session.inputGeneration, session.owner), s.acks, s.pauses);
    s' := Step(s', Proceed(0, 0));
    assert s'.tasks == map[];
  }

  lemma StopDrained(acks: seq<Ack>) returns (s: State)
    requires Reachable(Quiet(Fresh(Ai, 1), acks, []))
    ensures Reachable(s) && s == At(Fresh(Ai, 1), Draining(Shutdown, {}), acks, [])
  {
    s := Arrived(Fresh(Ai, 1), WantStop("s", 1), acks, []);
    s := Step(s, Acquire(0));
    assert s == At(Fresh(Ai, 1), ClosingScopes(Shutdown), acks, []);
    s := Step(s, Proceed(0, 0));
  }

  lemma StopPaused(acks: seq<Ack>) returns (s: State)
    requires Reachable(Quiet(Fresh(Ai, 1), acks, []))
    ensures Reachable(s) && s == At(Fresh(Paused, 1), Stopping, acks, [Pause(1, Ai, |acks|)])
  {
    s := StopDrained(acks);
    s := Step(s, Proceed(0, 0));
  }

  /** A stop that fails after its pause leaves the session, now paused, at the same generation. */
  lemma FailedStop(acks: seq<Ack>) returns (s: State)
    requires Reachable(Quiet(Fresh(Ai, 1), acks, []))
    ensures Reachable(s) && s == Quiet(Fresh(Paused, 1), acks, [Pause(1, Ai, |acks|)])
  {
    s := StopPaused(acks);
    s := Step(s, Break(0, false));
    assert s.tasks == map[];
  }

  /** So one input generation can be acknowledged for two owners. */
  lemma OneGenerationTwoOwners() returns (s: State)
    ensures Reachable(s) && s.acks == [Ack(1, Ai), Ack(1, Paused)]
  {
    s := Started();
    s := Repeated(s, "ai");
    assert [] + [Ack(1, Ai)] == [Ack(1, Ai)];
    s := FailedStop([Ack(1, Ai)]);
    assert [Ack(1, Ai)] + [Ack(1, Paused)] == [Ack(1, Ai), Ack(1, Paused)];
    s := Repeated(s, "paused");
  }

  lemma Drained() returns (s: State)
    ensures Reachable(s) && s == At(Fresh(Ai, 1), Draining(Takeover(2, Human), {}), [], [])
  {
    s := Requested();
    s := Step(s, Proceed(0, 0));
  }

  lemma Requested() returns (s: State)
    ensures Reachable(s) && s == At(Fresh(Ai, 1), ClosingScopes(Takeover(2, Human)), [], [])
  {
    s := Started();
    var r := ControlRequest("s", 1, 2, "human");
    s := Arrived(Fresh(Ai, 1), WantControl(r), [], []);
    assert DecideControl(Fresh(Ai, 1), r) == Drain(2, Human);
    s := Step(s, Acquire(0));
  }

  lemma TakenOver() returns (s: State)
    ensures Reachable(s) && s == Quiet(Fresh(Human, 2), [Ack(2, Human)], [])
  {
    s := Drained();
    s := Step(s, Proceed(0, 0));
    assert s == At(Fresh(Ai, 1), Switching(2, Human), [], []);
    s := Step(s, Proceed(0, 0));
    assert s.tasks == map[];
  }

  /** A control viewer leaves past the line that clears the flag: cancelled while it opens the
      VNC port, which `except Exception` does not catch; by whatever ends it while it accepts
      the socket, before the `try`; or by whatever ends it inside the `finally`. */
  predicate SkipsCleanup(s: State, e: Event) {
    && e.Break? && e.t in s.tasks && ControlView(s.tasks[e.t])
    && ((s.tasks[e.t].Connecting? && e.cancelled) || s.tasks[e.t].Accepting? || s.tasks[e.t].Closing?)
  }

  /** The flag is lost by such an exit, and by nothing else. */
  lemma ViewerIsLostExactlyBy(s: State, e: Event)
    requires Reachable(s) && Enabled(s, e) && !ViewerLost(s)
    ensures ViewerLost(Apply(s, e)) <==> SkipsCleanup(s, e)
  {
    ReachableInv(s);
    ReachableThen(s, e);
    ReachableInv(Apply(s, e));
    if e.Break? && ControlView(s.tasks[e.t]) { ViewerBreaks(s, e.t, e.cancelled); }
    else { OthersKeepViewers(s, e); }
  }

  lemma ViewerBreaks(s: State, t: TaskId, cancelled: bool)
    requires ViewInv(s.tasks, s.viewActive) && Enabled(s, Break(t, cancelled)) && ControlView(s.tasks[t])
    ensures ViewerLost(Broken(s, t, cancelled)) <==> SkipsCleanup(s, Break(t, cancelled))
  {
    var s' := Broken(s, t, cancelled);
    if SkipsCleanup(s, Break(t, cancelled)) {
      assert s' == Leave(s, t);
    } else if s.tasks[t].Connecting? {
      assert !s'.viewActive;
    } else {
      assert t in s'.tasks && ControlView(s'.tasks[t]);
    }
  }

  /** Any other event leaves a control viewer where there was one, or clears the flag. */
  lemma OthersKeepViewers(s: State, e: Event)
    requires ViewInv(s.tasks, s.viewActive) && Enabled(s, e) && !ViewerLost(s)
    requires e.Break? ==> !ControlView(s.tasks[e.t])
    ensures !ViewerLost(Apply(s, e))
  {
    if s.viewActive {
      var u :| u in s.tasks && ControlView(s.tasks[u]);
      match e
      case Acquire(t) => AcquireKeepsViewer(s, t, u);
      case Proceed(t, op) => ProceedKeepsViewer(s, t, op, u);
      case _ => OtherTasksStay(s, e, u);
    } else {
      InactiveIsNotLost(s, e);
    }
  }

  lemma AcquireKeepsViewer(s: State, t: TaskId, u: TaskId)
    requires Enabled(s, Acquire(t)) && u in s.tasks && ControlView(s.tasks[u])
    ensures var s' := Acquired(s, t); u in s'.tasks && ControlView(s'.tasks[u])
  {
    if u == t { assert s.tasks[t].WantWrite?; } else { AcquireMovesOne(s, t); }
  }

  lemma ProceedKeepsViewer(s: State, t: TaskId, op: OpId, u: TaskId)
    requires Enabled(s, Proceed(t, op)) && u in s.tasks && ControlView(s.tasks[u])
    ensures var s' := Proceeded(s, t, op); !s'.viewActive || (u in s'.tasks && ControlView(s'.tasks[u]))
  {
    if u == t { ViewerProceeds(s, t, op); } else { ProceedMovesOne(s, t, op); }
  }

  lemma ViewerProceeds(s: State, t: TaskId, op: OpId)
    requires Enabled(s, Proceed(t, op)) && ControlView(s.tasks[t])
    ensures var s' := Proceeded(s, t, op); !s'.viewActive || (t in s'.tasks && ControlView(s'.tasks[t]))
  {
    if s.tasks[t].Closing? { assert !Proceeded(s, t, op).viewActive; }
  }

  lemma OtherTasksStay(s: State, e: Event, u: TaskId)
    requires Enabled(s, e) && u in s.tasks && ControlView(s.tasks[u]) && !e.Acquire? && !e.Proceed?
    requires e.Break? ==> !ControlView(s.tasks[e.t])
    ensures var s' := Apply(s, e); u in s'.tasks && ControlView(s'.tasks[u])
  {
    match e
    case Break(t, cancelled) => BreakMovesOne(s, t, cancelled);
    case Return(t) => assert Apply(s, e).tasks == s.tasks - {t};
    case Arrive(t, at) => assert Apply(s, e).tasks == s.tasks[t := at];
    case TakePage(t) => assert MovesOne(s, Apply(s, e), t);
    case Finish(_) => assert Apply(s, e).tasks == s.tasks;
    case Discard(_) => assert Apply(s, e).tasks == s.tasks;
    case CloseContext => assert Apply(s, e).tasks == s.tasks;
  }

  /** Only the admission of a control viewer sets the flag, together with the viewer itself. */
  lemma InactiveIsNotLost(s: State, e: Event)
    requires Enabled(s, e) && !s.viewActive
    ensures !ViewerLost(Apply(s, e))
  {
    if e.Acquire? && Apply(s, e).viewActive { assert ControlView(Apply(s, e).tasks[e.t]); }
  }

  lemma Accepted() returns (s: State)
    ensures Reachable(s) && s.tasks == map[0 := Accepting(Viewer(2, true))] && s.viewActive
  {
    s := TakenOver();
    s := Arrived(Fresh(Human, 2), WantView(Viewer(2, true)), [Ack(2, Human)], []);
    s := Step(s, Acquire(0));
    assert s.tasks == map[0 := Connecting(Viewer(2, true))];
    s := Step(s, Proceed(0, 0));
  }

  /** A client that goes away while its viewer accepts the socket leaves the flag set. */
  lemma ViewerCanBeLost() returns (s: State)
    ensures Reachable(s) && ViewerLost(s)
  {
    s := Accepted();
    s := Step(s, Break(0, false));
  }
}
