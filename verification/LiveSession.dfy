/** The Python `Session` object. Each method is one critical section that the worker
    runs without an await while it holds the command lock, and is tied to the function
    by which the protocol in WorkerControl takes that step. */
module LiveSession {
  import opened Wrappers
  import opened WorkerControl
  import opened WorkerGates

  class SessionObject {
    const id: string
    const generation: nat
    var inputGeneration: nat
    var inputOwner: Owner
    var commands: set<string>
    var inflight: set<OpId>
    var contextClosed: bool

    function Value(): Session
      reads this
    {
      Session(id, generation, inputGeneration, inputOwner, commands, inflight, contextClosed)
    }

    constructor (id: string, generation: nat)
      ensures Value() == Session(id, generation, 1, Ai, {}, {}, false)
    {
      this.id, this.generation := id, generation;
      inputGeneration, inputOwner := 1, Ai;
      commands, inflight := {}, {};
      contextClosed := false;
    }

    /** `command_locked` and automation `start`, up to the spending of the command id. */
    method SpendCommand(c: Command) returns (admitted: bool)
      modifies this`commands
      ensures admitted <==>
                && id == c.sessionId && inputOwner == Ai && inputGeneration == c.inputGeneration
                && c.commandId !in old(commands) && |old(commands)| < 10000
      ensures commands == if admitted then old(commands) + {c.commandId} else old(commands)
      ensures if admitted then Admit(old(Value()), c) == Some(Value()) else Admit(old(Value()), c).None?
    {
      admitted := false;
      if id != c.sessionId { return; }
      if inputOwner != Ai || inputGeneration != c.inputGeneration { return; }
      if c.commandId in commands { return; }
      if |commands| >= COMMAND_BUDGET { return; }
      commands := commands + {c.commandId};
      admitted := true;
    }

    /** The task is tracked in the same step that starts the operation. */
    method Track(op: OpId)
      modifies this`inflight
      ensures forall s: State, o: Operation :: s.session == Some(old(Value())) ==>
                Begin(s, op, o).session == Some(Value())
    {
      inflight := inflight + {op};
    }

    /** `discard`, when the caller leaves or the task's callback runs. */
    method Untrack(op: OpId)
      modifies this`inflight
      ensures forall s: State :: s.session == Some(old(Value())) ==> Forget(s, op).session == Some(Value())
    {
      inflight := inflight - {op};
    }

    /** The checks of `control` up to its first await. */
    method Decide(r: ControlRequest) returns (d: ControlDecision)
      ensures d == DecideControl(Value(), r)
      ensures d.ContextGone? <==> generation == r.generation && id == r.sessionId && contextClosed
      ensures d.Repeat? <==>
                && generation == r.generation && id == r.sessionId && !contextClosed
                && r.inputGeneration == inputGeneration && Names(r.owner, inputOwner)
      ensures d.Drain? <==>
                && generation == r.generation && id == r.sessionId && !contextClosed
                && r.inputGeneration > inputGeneration && r.owner in {"ai", "human", "paused"}
      ensures d.Drain? ==> d.inputGeneration == r.inputGeneration && Names(r.owner, d.owner)
    {
      ControlIsAnswered(Value(), r);
      if generation != r.generation || id != r.sessionId { return Refused; }
      if contextClosed { return ContextGone; }
      var owner := ParseOwner(r.owner);
      if r.inputGeneration < inputGeneration || owner.None? { return Refused; }
      if r.inputGeneration == inputGeneration && owner.value != inputOwner { return Refused; }
      if r.inputGeneration == inputGeneration { return Repeat; }
      return Drain(r.inputGeneration, owner.value);
    }

    /** The last lines of `control`: the step by which a drained takeover hands input over. */
    method Switch(g: nat, owner: Owner)
      modifies this`inputGeneration, this`inputOwner
      ensures forall s: State, t: TaskId ::
                s.session == Some(old(Value())) && t in s.tasks && s.tasks[t] == Switching(g, owner) ==>
                  Proceeded(s, t, 0).session == Some(Value())
    {
      inputGeneration := g;
      inputOwner := owner;
    }

    /** `stop_session` after its drain: the owner is paused, the input generation stays. */
    method Pause()
      modifies this`inputOwner
      ensures forall s: State, t: TaskId, waiting: set<OpId> ::
                (s.session == Some(old(Value())) && t in s.tasks && s.tasks[t] == Draining(Shutdown, waiting)
                 && CanProceed(s, s.tasks[t], 0)) ==> Proceeded(s, t, 0).session == Some(Value())
    {
      inputOwner := Paused;
    }
  }
}
