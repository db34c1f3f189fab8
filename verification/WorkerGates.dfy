/** Who gets through the worker's gates, in the terms of the requests, and to whom a control
    request hands the input (apps/browser-worker/src/main.py). */
module WorkerGates {
  import opened Wrappers
  import opened WorkerControl
  import opened WorkerSafety

  // ---- control requests ----

  /** The owner a request's text names. */
  predicate Names(text: string, owner: Owner) {
    match owner
    case Ai => text == "ai"
    case Human => text == "human"
    case Paused => text == "paused"
  }

  lemma ControlIsAnswered(s: Session, r: ControlRequest)
    ensures var d, ours := DecideControl(s, r), s.generation == r.generation && s.id == r.sessionId;
            && (d.ContextGone? <==> ours && s.contextClosed)
            && (d.Repeat? <==>
                  ours && !s.contextClosed && r.inputGeneration == s.inputGeneration && Names(r.owner, s.owner))
            && (d.Drain? <==>
                  ours && !s.contextClosed && r.inputGeneration > s.inputGeneration
                  && r.owner in {"ai", "human", "paused"})
            && (d.Drain? ==> d.inputGeneration == r.inputGeneration && Names(r.owner, d.owner))
  {
  }

  /** The handler of control request `r`, after its decision. */
  predicate Carries(p: Point, r: ControlRequest) {
    match p
    case WantControl(q) => q == r
    case Repeating(g, owner) => g == r.inputGeneration && Names(r.owner, owner)
    case ClosingScopes(Takeover(g, owner)) => g == r.inputGeneration && Names(r.owner, owner)
    case Draining(Takeover(g, owner), _) => g == r.inputGeneration && Names(r.owner, owner)
    case Switching(g, owner) => g == r.inputGeneration && Names(r.owner, owner)
    case _ => false
  }

  /** The handler, if it is still there, is the one that carries the request. */
  predicate CarriedBy(s: State, t: TaskId, r: ControlRequest) {
    t in s.tasks ==> Carries(s.tasks[t], r)
  }

  lemma StepCarries(s: State, e: Event, t: TaskId, r: ControlRequest)
    requires Enabled(s, e) && CarriedBy(s, t, r) && (e.Arrive? ==> e.t != t)
    ensures CarriedBy(Apply(s, e), t, r)
  {
    match e
    case Acquire(u) => if u != t { AcquireMovesOne(s, u); } else { DecisionCarries(s, t, r); }
    case Proceed(u, op) => if u != t { ProceedMovesOne(s, u, op); } else { HandoverCarries(s, t, op, r); }
    case Break(u, cancelled) => if u != t { BreakMovesOne(s, u, cancelled); }
    case _ =>
  }

  lemma DecisionCarries(s: State, t: TaskId, r: ControlRequest)
    requires Enabled(s, Acquire(t)) && CarriedBy(s, t, r)
    ensures CarriedBy(Acquired(s, t), t, r)
  {
    if s.session.Some? { ControlIsAnswered(s.session.value, r); }
  }

  lemma HandoverCarries(s: State, t: TaskId, op: OpId, r: ControlRequest)
    requires Enabled(s, Proceed(t, op)) && CarriedBy(s, t, r)
    ensures CarriedBy(Proceeded(s, t, op), t, r)
  {
  }

  lemma {:induction false} RunCarries(s: State, es: seq<Event>, s': State, t: TaskId, r: ControlRequest)
    requires Run(s, es, s') && CarriedBy(s, t, r) && forall e :: e in es && e.Arrive? ==> e.t != t
    ensures CarriedBy(s', t, r)
    decreases |es|
  {
    if es != [] {
      StepCarries(s, es[0], t, r);
      RunCarries(Apply(s, es[0]), es[1..], s', t, r);
    }
  }

  /** Whatever happens while it waits and drains: when the handler of a control request hands the
      input over, session and acknowledgement have the owner the request's text names, at the
      request's generation; and a repeated acknowledgement names that owner too. */
  lemma TakeoverGivesWhatWasAsked(s: State, es: seq<Event>, s': State, t: TaskId, r: ControlRequest)
    requires Reachable(s) && t in s.tasks && s.tasks[t] == WantControl(r)
    requires Run(s, es, s') && forall e :: e in es && e.Arrive? ==> e.t != t
    requires t in s'.tasks
    ensures s'.tasks[t].Switching? ==>
              && s'.session.Some? && r.owner in {"ai", "human", "paused"}
              && var done := Apply(s', Proceed(t, 0));
                 && done.session.Some? && Names(r.owner, done.session.value.owner)
                 && done.session.value.inputGeneration == r.inputGeneration > s'.session.value.inputGeneration
                 && done.acks == s'.acks + [Ack(r.inputGeneration, done.session.value.owner)]
    ensures s'.tasks[t].Repeating? ==>
              && s'.session.Some? && Names(r.owner, s'.session.value.owner)
              && Apply(s', Proceed(t, 0)).acks == s'.acks + [Ack(r.inputGeneration, s'.session.value.owner)]
  {
    RunCarries(s, es, s', t, r);
    ReachableInv(s);
    RunKeeps(s, es, s');
    if s'.tasks[t].Switching? { SwitchNames(s', t, r); }
    if s'.tasks[t].Repeating? { RepeatNames(s', t, r); }
  }

  lemma SwitchNames(s: State, t: TaskId, r: ControlRequest)
    requires LockInv(s.tasks, s.lock) && HoldersInv(s) && t in s.tasks && s.tasks[t].Switching?
    requires Carries(s.tasks[t], r)
    ensures s.session.Some? && r.owner in {"ai", "human", "paused"}
    ensures var done := Apply(s, Proceed(t, 0));
            && done.session.Some? && Names(r.owner, done.session.value.owner)
            && done.session.value.inputGeneration == r.inputGeneration > s.session.value.inputGeneration
            && done.acks == s.acks + [Ack(r.inputGeneration, done.session.value.owner)]
  {
  }

  lemma RepeatNames(s: State, t: TaskId, r: ControlRequest)
    requires LockInv(s.tasks, s.lock) && HoldersInv(s) && t in s.tasks && s.tasks[t].Repeating?
    requires Carries(s.tasks[t], r)
    ensures s.session.Some? && Names(r.owner, s.session.value.owner)
    ensures Apply(s, Proceed(t, 0)).acks == s.acks + [Ack(r.inputGeneration, s.session.value.owner)]
  {
  }

  // ---- the other gates: what is next for a handler that gets the command lock ----

  /** The command may start: it names this session and the AI's current input generation, is new,
      and within the budget of the session. */
  predicate MayStart(s: State, c: Command) {
    && s.session.Some? && s.session.value.id == c.sessionId
    && s.session.value.owner == Ai && s.session.value.inputGeneration == c.inputGeneration
    && c.commandId !in s.session.value.commands && |s.session.value.commands| < 10000
  }

  lemma CommandGate(s: State, t: TaskId, c: Command)
    requires Enabled(s, Acquire(t)) && s.tasks[t] in {WantAdmission(c), WantStart(c)}
    ensures var s' := Apply(s, Acquire(t));
            if MayStart(s, c)
            then && s'.tasks == s.tasks[t := if s.tasks[t].WantStart? then Starting(c) else Admitting(c)]
                 && s'.lock == Some(t) && s'.session.Some?
                 && s'.session.value.commands == s.session.value.commands + {c.commandId}
                 && s'.session.value.(commands := s.session.value.commands) == s.session.value
            else s' == Leave(s, t)
  {
  }

  lemma HumanGate(s: State, t: TaskId, h: HumanRequest)
    requires Enabled(s, Acquire(t)) && s.tasks[t] == WantHuman(h)
    ensures Apply(s, Acquire(t)) ==
              if && s.session.Some? && s.session.value.generation == h.generation
                 && s.session.value.id == h.sessionId && s.session.value.owner == Human
                 && s.session.value.inputGeneration == h.inputGeneration
                 && (!h.paste || (s.viewActive && !s.session.value.contextClosed))
              then s.(tasks := s.tasks[t := Acting(h)], lock := Some(t)) else Leave(s, t)
  {
  }

  lemma ViewGate(s: State, t: TaskId, v: Viewer)
    requires Enabled(s, Acquire(t)) && s.tasks[t] == WantView(v)
    ensures Apply(s, Acquire(t)) ==
              if !v.control then s.(tasks := s.tasks[t := Connecting(v)])
              else if && !s.viewActive && s.session.Some? && s.session.value.owner == Human
                      && s.session.value.inputGeneration == v.inputGeneration
              then s.(tasks := s.tasks[t := Connecting(v)], viewActive := true) else Leave(s, t)
  {
  }

  /** What a viewer sends reaches the browser only while its control still stands. */
  lemma WriteGate(s: State, t: TaskId, v: Viewer)
    requires Enabled(s, Acquire(t)) && s.tasks[t] == WantWrite(v)
    ensures Apply(s, Acquire(t)) ==
              if s.session.Some? && (!v.control || (s.session.value.owner == Human
                 && s.session.value.inputGeneration == v.inputGeneration))
              then s.(tasks := s.tasks[t := Writing(v)], lock := Some(t))
              else s.(tasks := s.tasks[t := Closing(v)])
  {
  }

  lemma StopGate(s: State, t: TaskId, id: string, generation: nat)
    requires Enabled(s, Acquire(t)) && s.tasks[t] == WantStop(id, generation)
    ensures Apply(s, Acquire(t)) ==
              if s.session.Some? && s.session.value.generation == generation && s.session.value.id == id
              then s.(tasks := s.tasks[t := ClosingScopes(Shutdown)], lock := Some(t)) else Leave(s, t)
  {
  }

  /** A worker is allocated once, and its session starts in the hands of the AI. */
  lemma SessionGate(s: State, t: TaskId, id: string, generation: nat)
    requires Enabled(s, Acquire(t)) && s.tasks[t] == WantSession(id, generation)
    ensures var s' := Apply(s, Acquire(t));
            if s.session.None? && !s.used
            then && s' == s.(used := true, tasks := s.tasks[t := Launching(id, generation)], lock := Some(t))
                 && Apply(s', Proceed(t, 0)).session == Some(Session(id, generation, 1, Ai, {}, {}, false))
            else s' == Leave(s, t)
  {
  }

  // ---- what gets through does its work and leaves nothing behind ----

  lemma {:induction false} RunMore(s: State, es: seq<Event>, m: State, e: Event, s': State)
    requires Run(s, es, m) && Enabled(m, e) && s' == Apply(m, e)
    ensures Run(s, es + [e], s')
  {
    RunThen(s, es, m, e);
  }

  /** A command gets the lock of its page. */
  lemma CommandTakesPage(s: State, t: TaskId, c: Command) returns (es: seq<Event>, s': State)
    requires s.session.Some? && c.page !in s.pageLocks && t !in s.tasks
    ensures Run(s, es, s')
    ensures s' == s.(tasks := s.tasks[t := WantAdmission(c)], pageLocks := s.pageLocks[c.page := t])
  {
    var arrived := Apply(s, Arrive(t, WantPage(c)));
    assert Run(s, [], s);
    RunMore(s, [], s, Arrive(t, WantPage(c)), arrived);
    s' := Apply(arrived, TakePage(t));
    es := [] + [Arrive(t, WantPage(c))] + [TakePage(t)];
    RunMore(s, [] + [Arrive(t, WantPage(c))], arrived, TakePage(t), s');
  }

  lemma OperationBegins(s: State, t: TaskId, c: Command, op: OpId)
    requires t in s.tasks && s.tasks[t] == Admitting(c) && op !in s.ops && s.session.Some?
    ensures Enabled(s, Proceed(t, op))
    ensures Apply(s, Proceed(t, op)) ==
              s.(tasks := s.tasks[t := Awaiting(c, op)], lock := None,
                 ops := s.ops[op := Operation(c.commandId, c.inputGeneration, c.page, t, false, false)],
                 session := Some(s.session.value.(inflight := s.session.value.inflight + {op})))
  {
  }

  /** A command that may start runs its operation. */
  lemma CommandStarts(s: State, t: TaskId, c: Command, op: OpId) returns (es: seq<Event>, s': State)
    requires s.lock.None? && MayStart(s, c) && c.page !in s.pageLocks && t !in s.tasks && op !in s.ops
    ensures Run(s, es, s') && s'.lock.None?
    ensures s'.tasks == s.tasks[t := Awaiting(c, op)] && s'.pageLocks == s.pageLocks[c.page := t]
    ensures s'.ops == s.ops[op := Operation(c.commandId, c.inputGeneration, c.page, t, false, false)]
    ensures s'.session == Some(s.session.value.(commands := s.session.value.commands + {c.commandId},
                                                inflight := s.session.value.inflight + {op}))
  {
    var admitted;
    es, admitted := CommandIsAdmitted(s, t, c);
    OperationBegins(admitted, t, c, op);
    s' := Apply(admitted, Proceed(t, op));
    RunMore(s, es, admitted, Proceed(t, op), s');
    es := es + [Proceed(t, op)];
  }

  lemma CommandIsAdmitted(s: State, t: TaskId, c: Command) returns (es: seq<Event>, s': State)
    requires s.lock.None? && MayStart(s, c) && c.page !in s.pageLocks && t !in s.tasks
    ensures Run(s, es, s')
    ensures s'.tasks == s.tasks[t := Admitting(c)] && s'.lock == Some(t) && s'.ops == s.ops
    ensures s'.pageLocks == s.pageLocks[c.page := t]
    ensures s'.session == Some(s.session.value.(commands := s.session.value.commands + {c.commandId}))
  {
    var waits;
    es, waits := CommandTakesPage(s, t, c);
    CommandGate(waits, t, c);
    s' := Apply(waits, Acquire(t));
    RunMore(s, es, waits, Acquire(t), s');
    es := es + [Acquire(t)];
  }

  /** Automation starts its operation without a page, and leaves it to itself. */
  lemma AutomationBegins(s: State, t: TaskId, c: Command, op: OpId)
    requires t in s.tasks && s.tasks[t] == Starting(c) && op !in s.ops && s.session.Some?
    ensures Enabled(s, Proceed(t, op))
    ensures Apply(s, Proceed(t, op)) ==
              s.(tasks := s.tasks - {t}, lock := None,
                 ops := s.ops[op := Operation(c.commandId, c.inputGeneration, c.page, t, true, false)],
                 session := Some(s.session.value.(inflight := s.session.value.inflight + {op})))
  {
  }

  /** An operation that nobody waits for is dropped when it has ended. */
  lemma AutomationEnds(s: State, op: OpId)
    requires s.session.Some? && op in s.ops
    ensures Enabled(s, Discard(op)) <==> s.ops[op].automation && s.ops[op].finished
    ensures Enabled(s, Discard(op)) ==>
              Apply(s, Discard(op)) ==
              s.(session := Some(s.session.value.(inflight := s.session.value.inflight - {op})))
  {
  }

  /** Any request may come at any time; those that fetch the session first need one. */
  lemma AnyoneMayAsk(s: State, t: TaskId)
    requires t !in s.tasks
    ensures forall r :: Enabled(s, Arrive(t, WantControl(r)))
    ensures forall h :: Enabled(s, Arrive(t, WantHuman(h)))
    ensures forall id, generation :: Enabled(s, Arrive(t, WantStop(id, generation)))
    ensures forall id, generation :: Enabled(s, Arrive(t, WantSession(id, generation)))
    ensures s.session.Some? ==>
              && (forall c :: Enabled(s, Arrive(t, WantPage(c))) && Enabled(s, Arrive(t, WantStart(c))))
              && (forall v :: Enabled(s, Arrive(t, WantView(v))))
  {
  }

  /** When the human has closed the browser window, control requests are told so, and nothing can
      be pasted. */
  lemma ClosedWindow(s: State, r: ControlRequest, h: HumanRequest, viewActive: bool)
    requires s.session.Some?
    ensures Enabled(s, CloseContext)
    ensures var s' := Apply(s, CloseContext);
            && s'.session == Some(s.session.value.(contextClosed := true))
            && (r.generation == s.session.value.generation && r.sessionId == s.session.value.id ==>
                  DecideControl(s'.session.value, r) == ContextGone)
            && (h.paste ==> !HumanAllowed(s'.session.value, h, viewActive))
  {
  }

  /** And when the operation has ended, only the spent id and the finished operation remain. */
  lemma CommandEnds(s: State, t: TaskId, c: Command, op: OpId)
    requires s.session.Some? && t in s.tasks && s.tasks[t] == Awaiting(c, op) && Unfinished(s, op)
    ensures Enabled(s, Finish(op)) && !Enabled(s, Return(t))
    ensures var s1 := Apply(s, Finish(op));
            && Enabled(s1, Return(t))
            && Apply(s1, Return(t)) ==
               s.(ops := s.ops[op := s.ops[op].(finished := true)], tasks := s.tasks - {t},
                  pageLocks := s.pageLocks - {c.page},
                  session := Some(s.session.value.(inflight := s.session.value.inflight - {op})))
  {
  }

  lemma TakeoverIsDecided(s: State, t: TaskId, r: ControlRequest, owner: Owner)
    requires s.lock.None? && t in s.tasks && s.tasks[t] == WantControl(r) && s.session.Some?
    requires s.session.value.generation == r.generation && s.session.value.id == r.sessionId
    requires !s.session.value.contextClosed && r.inputGeneration > s.session.value.inputGeneration
    requires Names(r.owner, owner)
    ensures Enabled(s, Acquire(t))
    ensures Apply(s, Acquire(t)) ==
              s.(tasks := s.tasks[t := ClosingScopes(Takeover(r.inputGeneration, owner))], lock := Some(t))
  {
    ControlIsAnswered(s.session.value, r);
  }

  lemma ScopesClose(s: State, t: TaskId, p: Purpose)
    requires t in s.tasks && s.tasks[t] == ClosingScopes(p) && s.session.Some?
    ensures Enabled(s, Proceed(t, 0))
    ensures Apply(s, Proceed(t, 0)) == s.(tasks := s.tasks[t := Draining(p, s.session.value.inflight)])
  {
  }

  lemma DrainEnds(s: State, t: TaskId, g: nat, owner: Owner, waiting: set<OpId>)
    requires t in s.tasks && s.tasks[t] == Draining(Takeover(g, owner), waiting)
    ensures Enabled(s, Proceed(t, 0)) <==> forall o :: o in waiting && o in s.ops ==> s.ops[o].finished
    ensures Enabled(s, Proceed(t, 0)) ==> Apply(s, Proceed(t, 0)) == s.(tasks := s.tasks[t := Switching(g, owner)])
  {
    assert Enabled(s, Proceed(t, 0)) <==> forall o :: o in waiting ==> !Unfinished(s, o);
  }

  lemma SwitchHandsOver(s: State, t: TaskId, g: nat, owner: Owner)
    requires t in s.tasks && s.tasks[t] == Switching(g, owner) && s.session.Some?
    ensures Enabled(s, Proceed(t, 0))
    ensures Apply(s, Proceed(t, 0)) ==
              s.(tasks := s.tasks - {t}, lock := None, acks := s.acks + [Ack(g, owner)],
                 session := Some(s.session.value.(inputGeneration := g, owner := owner)))
  {
  }

  /** A takeover that nothing holds up: it is decided, it drains, and it hands over. */
  lemma TakeoverRuns(s: State, t: TaskId, r: ControlRequest, owner: Owner) returns (es: seq<Event>, s': State)
    requires s.lock.None? && t in s.tasks && s.tasks[t] == WantControl(r) && s.session.Some?
    requires s.session.value.generation == r.generation && s.session.value.id == r.sessionId
    requires !s.session.value.contextClosed && r.inputGeneration > s.session.value.inputGeneration
    requires Names(r.owner, owner) && forall o :: o in s.session.value.inflight && o in s.ops ==> s.ops[o].finished
    ensures Run(s, es, s')
    ensures s' == s.(tasks := s.tasks - {t}, acks := s.acks + [Ack(r.inputGeneration, owner)],
                     session := Some(s.session.value.(inputGeneration := r.inputGeneration, owner := owner)))
  {
    TakeoverIsDecided(s, t, r, owner);
    var decided := Apply(s, Acquire(t));
    assert Run(s, [], s);
    RunMore(s, [], s, Acquire(t), decided);
    var more;
    more, s' := TakeoverDrains(decided, t, r.inputGeneration, owner);
    es := [Acquire(t)] + more;
    assert es[1..] == more;
    assert s'.tasks == s.tasks - {t};
  }

  lemma TakeoverDrains(s: State, t: TaskId, g: nat, owner: Owner) returns (es: seq<Event>, s': State)
    requires t in s.tasks && s.tasks[t] == ClosingScopes(Takeover(g, owner)) && s.session.Some?
    requires forall o :: o in s.session.value.inflight && o in s.ops ==> s.ops[o].finished
    ensures Run(s, es, s')
    ensures s' == s.(tasks := s.tasks - {t}, lock := None, acks := s.acks + [Ack(g, owner)],
                     session := Some(s.session.value.(inputGeneration := g, owner := owner)))
  {
    ScopesClose(s, t, Takeover(g, owner));
    var draining := Apply(s, Proceed(t, 0));
    assert Run(s, [], s);
    RunMore(s, [], s, Proceed(t, 0), draining);
    DrainEnds(draining, t, g, owner, s.session.value.inflight);
    var switching := Apply(draining, Proceed(t, 0));
    RunMore(s, [] + [Proceed(t, 0)], draining, Proceed(t, 0), switching);
    SwitchHandsOver(switching, t, g, owner);
    s' := Apply(switching, Proceed(t, 0));
    es := [] + [Proceed(t, 0)] + [Proceed(t, 0)] + [Proceed(t, 0)];
    RunMore(s, [] + [Proceed(t, 0)] + [Proceed(t, 0)], switching, Proceed(t, 0), s');
    assert s'.tasks == s.tasks - {t};
  }

  /** A human's request that is let in acts under the command lock, and then frees it. */
  lemma HumanActs(s: State, t: TaskId, h: HumanRequest)
    requires t in s.tasks && s.tasks[t] == Acting(h) && s.lock == Some(t)
    ensures Enabled(s, Proceed(t, 0)) && Apply(s, Proceed(t, 0)) == s.(tasks := s.tasks - {t}, lock := None)
  {
  }

  /** A control viewer that ends the ordinary way gives the control back. */
  lemma ViewerEnds(s: State, t: TaskId, v: Viewer)
    requires t in s.tasks && s.tasks[t] in {Viewing(v), WantWrite(v), Writing(v)}
    ensures Enabled(s, Break(t, false))
    ensures var s1 := Apply(s, Break(t, false));
            && s1 == s.(tasks := s.tasks[t := Closing(v)], lock := if s.tasks[t].Writing? then None else s.lock)
            && Enabled(s1, Proceed(t, 0))
            && Apply(s1, Proceed(t, 0)) ==
               s1.(tasks := s.tasks - {t}, viewActive := s.viewActive && !v.control)
  {
  }
}
