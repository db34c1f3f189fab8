/** The control protocol of the browser worker (apps/browser-worker/src/main.py).

    One process serves one session. Every handler is an asyncio coroutine, so it runs
    undisturbed between two awaits and anything may happen at an await. A handler is
    modelled by the point it is suspended at (`Point`), and one `Event` is what happens
    from one suspension to the next. Exceptions and cancellations are events too.
 */
module WorkerControl {
  import opened Wrappers

  type TaskId = nat
  type OpId = nat

  const COMMAND_BUDGET: nat := 10000

  datatype Owner = Ai | Human | Paused

  /** The owner named by a control request; any other text is refused. */
  function ParseOwner(text: string): Option<Owner> {
    if text == "ai" then Some(Ai)
    else if text == "human" then Some(Human)
    else if text == "paused" then Some(Paused)
    else None
  }

  /** The mutable fields of the Python `Session`. */
  datatype Session = Session(
    id: string, generation: nat, inputGeneration: nat, owner: Owner,
    commands: set<string>, inflight: set<OpId>, contextClosed: bool)

  datatype Command = Command(sessionId: string, commandId: string, page: string, inputGeneration: nat)
  datatype ControlRequest = ControlRequest(sessionId: string, generation: nat, inputGeneration: nat, owner: string)
  datatype HumanRequest = HumanRequest(sessionId: string, generation: nat, inputGeneration: nat, paste: bool)
  datatype Viewer = Viewer(inputGeneration: nat, control: bool)

  /** Why a handler drains: to hand input to a new owner, or to stop. */
  datatype Purpose = Takeover(inputGeneration: nat, owner: Owner) | Shutdown

  /** Where a handler is suspended. */
  datatype Point =
    | WantPage(c: Command)                 // waits for the lock of its page
    | WantAdmission(c: Command)            // holds its page lock, waits for the command lock
    | Admitting(c: Command)                // holds both; the command id is spent
    | Awaiting(c: Command, op: OpId)       // holds its page lock until the operation ends
    | WantStart(c: Command)                // automation start, waits for the command lock
    | Starting(c: Command)                 // holds the command lock; the command id is spent
    | WantControl(r: ControlRequest)
    | Repeating(generation: nat, owner: Owner) // re-acknowledges the current generation
    | ClosingScopes(p: Purpose)
    | Draining(p: Purpose, waiting: set<OpId>)
    | Switching(inputGeneration: nat, owner: Owner)
    | WantStop(sessionId: string, generation: nat)
    | Stopping
    | WantSession(sessionId: string, generation: nat)
    | Launching(sessionId: string, generation: nat)
    | Settling
    | WantHuman(h: HumanRequest)
    | Acting(h: HumanRequest)              // navigates or pastes under the command lock
    | WantView(v: Viewer)
    | Connecting(v: Viewer)                // opens the VNC port; only `except Exception` clears the flag
    | Accepting(v: Viewer)                 // accepts the socket, outside any `try`
    | Viewing(v: Viewer)                   // inside the `try`, waiting for its three tasks
    | WantWrite(v: Viewer)
    | Writing(v: Viewer)                   // forwards received bytes under the command lock
    | Closing(v: Viewer)                   // in the `finally`, before the flag is cleared

  /** A started browser operation. `caller` is the handler that waits for it. */
  datatype Operation = Operation(commandId: string, inputGeneration: nat, page: string,
    caller: TaskId, automation: bool, finished: bool)

  datatype Ack = Ack(inputGeneration: nat, owner: Owner)

  /** A stop set the owner to paused: at which input generation, which owner it found, and how
      many acknowledgements had been given by then. */
  datatype Pause = Pause(inputGeneration: nat, found: Owner, acks: nat)

  datatype State = State(
    session: Option<Session>, used: bool, viewActive: bool,
    lock: Option<TaskId>, pageLocks: map<string, TaskId>,
    tasks: map<TaskId, Point>, ops: map<OpId, Operation>,
    // What callers have been told so far, and what happened to the process.
    acks: seq<Ack>, pauses: seq<Pause>, sessions: nat)

  const Idle := State(None, false, false, None, map[], map[], map[], [], [], 0)

  datatype Event =
    | Arrive(t: TaskId, at: Point)  // a request reaches its first await
    | TakePage(t: TaskId)           // a command gets its page lock
    | Acquire(t: TaskId)            // a waiter gets the command lock and runs its checks
    | Proceed(t: TaskId, op: OpId)  // a suspended handler resumes normally
    | Break(t: TaskId, cancelled: bool) // it resumes with a cancellation or another exception
    | Finish(op: OpId)              // a browser operation ends, whatever its result
    | Return(t: TaskId)             // a command sees its operation done and leaves
    | Discard(op: OpId)             // the done-callback of an automation operation
    | CloseContext                  // the human closes the browser window

  // ---- the critical sections, on the session alone ----

  /** Runs under the command lock before any AI operation starts. */
  function Admit(s: Session, c: Command): (r: Option<Session>) {
    if s.id != c.sessionId || s.owner != Ai || s.inputGeneration != c.inputGeneration then None
    else if c.commandId in s.commands then None
    else if |s.commands| >= COMMAND_BUDGET then None
    else Some(s.(commands := s.commands + {c.commandId}))
  }

  datatype ControlDecision = Refused | ContextGone | Repeat | Drain(inputGeneration: nat, owner: Owner)

  function DecideControl(s: Session, r: ControlRequest): ControlDecision {
    if s.generation != r.generation || s.id != r.sessionId then Refused
    else if s.contextClosed then ContextGone
    else match ParseOwner(r.owner)
      case None => Refused
      case Some(owner) =>
        if r.inputGeneration < s.inputGeneration then Refused
        else if r.inputGeneration == s.inputGeneration && owner != s.owner then Refused
        else if r.inputGeneration == s.inputGeneration then Repeat
        else Drain(r.inputGeneration, owner)
  }

  predicate HumanAllowed(s: Session, h: HumanRequest, viewActive: bool) {
    && s.generation == h.generation && s.id == h.sessionId
    && s.owner == Human && s.inputGeneration == h.inputGeneration
    && (h.paste ==> !s.contextClosed && viewActive)
  }

  predicate ViewAllowed(session: Option<Session>, v: Viewer) {
    session.Some? && (v.control ==> session.value.owner == Human && session.value.inputGeneration == v.inputGeneration)
  }

  // ---- the protocol ----

  predicate HoldsCommandLock(p: Point) {
    match p
    case Admitting(_) | Starting(_) | Repeating(_, _) | ClosingScopes(_) | Draining(_, _) | Switching(_, _)
       | Stopping | Launching(_, _) | Settling | Acting(_) | Writing(_) => true
    case _ => false
  }

  predicate WantsCommandLock(p: Point) {
    match p
    case WantAdmission(_) | WantStart(_) | WantControl(_) | WantStop(_, _) | WantSession(_, _)
       | WantHuman(_) | WantView(_) | WantWrite(_) => true
    case _ => false
  }

  predicate HoldsPage(p: Point) {
    p.WantAdmission? || p.Admitting? || p.Awaiting?
  }

  predicate ControlView(p: Point) {
    match p
    case Connecting(v) => v.control
    case Accepting(v) => v.control
    case Viewing(v) => v.control
    case WantWrite(v) => v.control
    case Writing(v) => v.control
    case Closing(v) => v.control
    case _ => false
  }

  predicate FirstPoint(p: Point) {
    p.WantPage? || p.WantStart? || p.WantControl? || p.WantStop? || p.WantSession? || p.WantHuman? || p.WantView?
  }

  predicate Unfinished(s: State, o: OpId) {
    o in s.ops && !s.ops[o].finished
  }

  /** The handler ends: whatever locks it holds are released. */
  function Leave(s: State, t: TaskId): State
    requires t in s.tasks
  {
    var p := s.tasks[t];
    s.(tasks := s.tasks - {t},
       lock := if HoldsCommandLock(p) then None else s.lock,
       pageLocks := if HoldsPage(p) then s.pageLocks - {p.c.page} else s.pageLocks)
  }

  predicate Enabled(s: State, e: Event) {
    match e
    case Arrive(t, at) =>
      t !in s.tasks && FirstPoint(at)
      // The handlers below fetch the session before their first await.
      && (at.WantPage? || at.WantStart? || at.WantView? ==> s.session.Some?)
    case TakePage(t) => t in s.tasks && s.tasks[t].WantPage? && s.tasks[t].c.page !in s.pageLocks
    case Acquire(t) => t in s.tasks && WantsCommandLock(s.tasks[t]) && s.lock.None?
    case Proceed(t, op) => t in s.tasks && CanProceed(s, s.tasks[t], op)
    case Break(t, _) => t in s.tasks && !s.tasks[t].Awaiting?
    case Finish(op) => Unfinished(s, op)
    case Return(t) => t in s.tasks && s.tasks[t].Awaiting? && s.tasks[t].op in s.ops && s.ops[s.tasks[t].op].finished
    case Discard(op) => op in s.ops && s.ops[op].finished && s.ops[op].automation
    case CloseContext => s.session.Some?
  }

  predicate CanProceed(s: State, p: Point, op: OpId) {
    match p
    case Admitting(_) | Starting(_) => op !in s.ops
    case Draining(_, waiting) => forall o | o in waiting :: !Unfinished(s, o)
    case Repeating(_, _) | ClosingScopes(_) | Switching(_, _) | Stopping | Launching(_, _) | Settling
       | Acting(_) | Connecting(_) | Accepting(_) | Viewing(_) | Writing(_) | Closing(_) => true
    case _ => false
  }

  function Apply(s: State, e: Event): State
    requires Enabled(s, e)
  {
    match e
    case Arrive(t, at) => s.(tasks := s.tasks[t := at])
    case TakePage(t) =>
      var c := s.tasks[t].c;
      s.(tasks := s.tasks[t := WantAdmission(c)], pageLocks := s.pageLocks[c.page := t])
    case Acquire(t) => Acquired(s, t)
    case Proceed(t, op) => Proceeded(s, t, op)
    case Break(t, cancelled) => Broken(s, t, cancelled)
    case Finish(op) => s.(ops := s.ops[op := s.ops[op].(finished := true)])
    case Return(t) => Forget(Leave(s, t), s.tasks[t].op)
    case Discard(op) => Forget(s, op)
    case CloseContext => s.(session := Some(s.session.value.(contextClosed := true)))
  }

  function Forget(s: State, op: OpId): State {
    if s.session.None? then s
    else s.(session := Some(s.session.value.(inflight := s.session.value.inflight - {op})))
  }

  /** A waiter has the command lock: its checks up to the next await, or its refusal. */
  function Acquired(s: State, t: TaskId): State
    requires t in s.tasks && WantsCommandLock(s.tasks[t]) && s.lock.None?
  {
    match s.tasks[t]
    case WantAdmission(c) => Admitted(s, t, c, Admitting(c))
    case WantStart(c) => Admitted(s, t, c, Starting(c))
    case WantControl(r) =>
      if s.session.None? then Leave(s, t)
      else (match DecideControl(s.session.value, r)
        case Repeat => Lock(s, t, Repeating(s.session.value.inputGeneration, s.session.value.owner))
        case Drain(g, owner) => Lock(s, t, ClosingScopes(Takeover(g, owner)))
        case _ => Leave(s, t))
    case WantStop(id, generation) =>
      if s.session.None? || s.session.value.generation != generation || s.session.value.id != id then Leave(s, t)
      else Lock(s, t, ClosingScopes(Shutdown))
    case WantSession(id, generation) =>
      if s.session.Some? || s.used then Leave(s, t)
      else Lock(s.(used := true), t, Launching(id, generation))
    case WantHuman(h) =>
      if s.session.None? || !HumanAllowed(s.session.value, h, s.viewActive) then Leave(s, t)
      else Lock(s, t, Acting(h))
    case WantView(v) =>
      // The flag is tested and set without an await, so the lock is free again at once.
      if v.control && (s.viewActive || !ViewAllowed(s.session, v)) then Leave(s, t)
      else s.(tasks := s.tasks[t := Connecting(v)], viewActive := s.viewActive || v.control)
    case WantWrite(v) =>
      if !ViewAllowed(s.session, v) then StopViewing(s, t, v)
      else Lock(s, t, Writing(v))
  }

  function Admitted(s: State, t: TaskId, c: Command, next: Point): State
    requires t in s.tasks && s.lock.None?
  {
    if s.session.None? then Leave(s, t)
    else match Admit(s.session.value, c)
      case None => Leave(s, t)
      case Some(session) => Lock(s.(session := Some(session)), t, next)
  }

  function Lock(s: State, t: TaskId, next: Point): State {
    s.(tasks := s.tasks[t := next], lock := Some(t))
  }

  /** One of the viewer's tasks is over, or the viewer is cancelled: the `finally` cancels the
      tasks, so the writer gives up the command lock, and closes the connection. */
  function StopViewing(s: State, t: TaskId, v: Viewer): State
    requires t in s.tasks
  {
    s.(tasks := s.tasks[t := Closing(v)], lock := if HoldsCommandLock(s.tasks[t]) then None else s.lock)
  }

  /** A control viewer clears the shared flag. */
  function EndView(s: State, t: TaskId): State
    requires t in s.tasks
  {
    Leave(s, t).(viewActive := s.viewActive && !ControlView(s.tasks[t]))
  }

  function Proceeded(s: State, t: TaskId, op: OpId): State
    requires t in s.tasks && CanProceed(s, s.tasks[t], op)
  {
    match s.tasks[t]
    case Admitting(c) =>
      var started := Begin(s, op, Operation(c.commandId, c.inputGeneration, c.page, t, false, false));
      started.(tasks := s.tasks[t := Awaiting(c, op)], lock := None)
    case Starting(c) =>
      Leave(Begin(s, op, Operation(c.commandId, c.inputGeneration, c.page, t, true, false)), t)
    case Repeating(g, owner) => Leave(s, t).(acks := s.acks + [Ack(g, owner)])
    case ClosingScopes(p) =>
      s.(tasks := s.tasks[t := Draining(p, if s.session.Some? then s.session.value.inflight else {})])
    case Draining(Takeover(g, owner), _) => s.(tasks := s.tasks[t := Switching(g, owner)])
    case Draining(Shutdown, _) =>
      if s.session.None? then Leave(s, t)
      else s.(tasks := s.tasks[t := Stopping], session := Some(s.session.value.(owner := Paused)),
              pauses := s.pauses + [Pause(s.session.value.inputGeneration, s.session.value.owner, |s.acks|)])
    case Switching(g, owner) =>
      if s.session.None? then Leave(s, t)
      else Leave(s, t).(session := Some(s.session.value.(inputGeneration := g, owner := owner)),
                        acks := s.acks + [Ack(g, owner)])
    case Stopping => Leave(s, t).(session := None)
    case Launching(id, generation) =>
      s.(tasks := s.tasks[t := Settling], sessions := s.sessions + 1,
         session := Some(Session(id, generation, 1, Ai, {}, {}, false)))
    case Settling | Acting(_) => Leave(s, t)
    case Connecting(v) => s.(tasks := s.tasks[t := Accepting(v)])
    case Accepting(v) => s.(tasks := s.tasks[t := Viewing(v)])
    case Viewing(v) => s.(tasks := s.tasks[t := WantWrite(v)])
    case Writing(v) => s.(tasks := s.tasks[t := Viewing(v)], lock := None)
    case Closing(v) => EndView(s, t)
  }

  function Begin(s: State, op: OpId, operation: Operation): State {
    var started := s.(ops := s.ops[op := operation]);
    if s.session.None? then started
    else started.(session := Some(s.session.value.(inflight := s.session.value.inflight + {op})))
  }

  /** An exception or cancellation leaves through the `async with` blocks, and a viewer through
      whatever `except` or `finally` it is inside of. */
  function Broken(s: State, t: TaskId, cancelled: bool): State
    requires t in s.tasks && !s.tasks[t].Awaiting?
  {
    match s.tasks[t]
    case Connecting(_) => if cancelled then Leave(s, t) else EndView(s, t)
    case Viewing(v) => StopViewing(s, t, v)
    case WantWrite(v) => StopViewing(s, t, v)
    case Writing(v) => StopViewing(s, t, v)
    case _ => Leave(s, t)
  }

  /** `es` is a run of the worker from `s` to `s'`. */
  ghost predicate Run(s: State, es: seq<Event>, s': State)
    decreases |es|
  {
    if es == [] then s == s'
    else Enabled(s, es[0]) && Run(Apply(s, es[0]), es[1..], s')
  }

  ghost predicate Reachable(s: State) {
    exists es :: Run(Idle, es, s)
  }
}
