/** The browser-context lease shared by the runs of one workflow execution
    (packages/agent/src/browser-continuity.ts), with the run rows it is fenced by
    (packages/engine/src/run-lease.ts, run-state.ts). Each step is one transaction; any process
    may try any of them as any owner at any time. */
module Continuity {
  import opened Wrappers

  type RunId = string

  datatype Status = Queued | Running | Waiting | Ended
  datatype RunRow = RunRow(status: Status, generation: nat)
  datatype Owner = Owner(run: RunId, generation: nat)
  datatype Last = Last(owner: Owner, completed: bool)
  datatype Memory = Memory(knowledge: string, interactions: string)

  /** `held` is every acquisition so far, in order. */
  datatype State = State(runs: map<RunId, RunRow>, owner: Option<Owner>, previous: Option<Last>,
    context: string, memory: Memory, held: seq<Owner>)

  datatype Step =
    | Enqueue(run: RunId)                 // a new run, a retry of an ended one, or a human's resume
    | StartRun(run: RunId)
    | Park(run: RunId)                    // awaiting approval or a human
    | Resume(run: RunId)
    | End(run: RunId)
    | Acquire(o: Owner)
    | SetContext(o: Owner, value: string)
    | SetMemory(o: Owner, memory: Memory)
    | Release(o: Owner, ok: bool)

  /** `assertRunLease` */
  predicate HoldsRun(s: State, o: Owner) {
    o.run in s.runs && s.runs[o.run] == RunRow(Running, o.generation)
  }

  predicate Active(s: State, o: Owner) {
    o.run in s.runs && s.runs[o.run].generation == o.generation
        && (s.runs[o.run].status.Running? || s.runs[o.run].status.Waiting?)
  }

  /** Its run has ended, or started again: this owner can never act for it any more. */
  predicate Gone(s: State, o: Owner) {
    && o.run in s.runs && o.generation <= s.runs[o.run].generation
    && (o.generation == s.runs[o.run].generation ==> s.runs[o.run].status.Queued? || s.runs[o.run].status.Ended?)
  }

  predicate MayAcquire(s: State, o: Owner) {
    HoldsRun(s, o) && (s.owner.Some? ==> !Active(s, s.owner.value))
  }

  predicate MayUse(s: State, o: Owner) {
    HoldsRun(s, o) && s.owner == Some(o)
  }

  /** What the new owner is told of the attempt before it. */
  function Handoff(s: State): Option<Last> {
    if s.owner.Some? then Some(Last(s.owner.value, false)) else s.previous
  }

  function Apply(s: State, e: Step): State {
    match e
    case Enqueue(r) =>
      if r !in s.runs then s.(runs := s.runs[r := RunRow(Queued, 0)])
      else if s.runs[r].status.Ended? || s.runs[r].status.Waiting?
      then s.(runs := s.runs[r := s.runs[r].(status := Queued)]) else s
    case StartRun(r) =>
      if r in s.runs && s.runs[r].status.Queued?
      then s.(runs := s.runs[r := RunRow(Running, s.runs[r].generation + 1)]) else s
    case Park(r) =>
      if r in s.runs && s.runs[r].status.Running? then s.(runs := s.runs[r := s.runs[r].(status := Waiting)]) else s
    case Resume(r) =>
      if r in s.runs && s.runs[r].status.Waiting? then s.(runs := s.runs[r := s.runs[r].(status := Running)]) else s
    case End(r) =>
      if r in s.runs && !s.runs[r].status.Ended?
      then s.(runs := s.runs[r := s.runs[r].(status := Ended)]) else s
    case Acquire(o) =>
      if !MayAcquire(s, o) then s
      else
        var last := Handoff(s);
        var mine := last.Some? && last.value.owner.run == o.run;
        s.(owner := Some(o), previous := last, held := s.held + [o],
           memory := if mine then s.memory else s.memory.(interactions := ""))
    case SetContext(o, value) => if MayUse(s, o) then s.(context := value) else s
    case SetMemory(o, value) => if MayUse(s, o) then s.(memory := value) else s
    case Release(o, ok) => if s.owner == Some(o) then s.(owner := None, previous := Some(Last(o, ok))) else s
  }

  /** The life of a run, as far as the lease looks at it: only a queued run starts, under the next
      generation; a running one may be parked and resumed; it may end, or be cancelled, at any time. */
  lemma RunRowsAre(s: State, r: RunId)
    requires r in s.runs
    ensures var row := s.runs[r];
            && Apply(s, StartRun(r)).runs[r] ==
               (if row.status == Queued then RunRow(Running, row.generation + 1) else row)
            && Apply(s, Park(r)).runs[r] == (if row.status == Running then RunRow(Waiting, row.generation) else row)
            && Apply(s, Resume(r)).runs[r] == (if row.status == Waiting then RunRow(Running, row.generation) else row)
            && Apply(s, End(r)).runs[r] ==
               RunRow(Ended, row.generation)
            && Apply(s, Enqueue(r)).runs[r] ==
               (if row.status in {Ended, Waiting} then RunRow(Queued, row.generation) else row)
  {
  }

  function Run(s: State, es: seq<Step>): State
    decreases |es|
  {
    if es == [] then s else Run(Apply(s, es[0]), es[1..])
  }

  const Fresh := State(map[], None, None, "", Memory("", ""), [])

  /** The row always names the last acquisition, as its owner or as the attempt before. */
  ghost predicate Inv(s: State) {
    && (s.owner.Some? ==>
          && s.held != [] && s.owner.value == s.held[|s.held| - 1] && s.owner.value.run in s.runs
          && s.owner.value.generation <= s.runs[s.owner.value.run].generation)
    && (s.owner.None? ==> if s.held == [] then s.previous.None?
        else s.previous.Some? && s.previous.value.owner == s.held[|s.held| - 1])
  }

  lemma {:induction false} RunKeeps(s: State, es: seq<Step>)
    requires Inv(s)
    ensures Inv(Run(s, es)) && s.held <= Run(s, es).held
    decreases |es|
  {
    if es != [] { RunKeeps(Apply(s, es[0]), es[1..]); }
  }

  lemma {:induction false} GoneForever(s: State, es: seq<Step>, o: Owner)
    requires Gone(s, o)
    ensures Gone(Run(s, es), o)
    decreases |es|
  {
    if es != [] { GoneForever(Apply(s, es[0]), es[1..], o); }
  }

  /** Only an owner whose run is no longer active is displaced, and then for good: nothing it
      attempts afterwards, in whatever process, changes anything. */
  lemma DisplacedIsPowerless(before: seq<Step>, o: Owner, o': Owner, between: seq<Step>, attempt: Step)
    requires var s := Run(Fresh, before); s.owner == Some(o) && o != o' && MayAcquire(s, o')
    requires || attempt in {Acquire(o), Release(o, true), Release(o, false)}
             || ((attempt.SetContext? || attempt.SetMemory?) && attempt.o == o)
    ensures !Active(Run(Fresh, before), o)
    ensures var s' := Run(Apply(Run(Fresh, before), Acquire(o')), between);
            !HoldsRun(s', o) && s'.owner != Some(o) && Apply(s', attempt) == s'
  {
    RunKeeps(Fresh, before);
    var s := Apply(Run(Fresh, before), Acquire(o'));
    assert Gone(s, o);
    GoneForever(s, between, o);
    NeverOwnerAgain(s, between, o);
  }

  lemma {:induction false} NeverOwnerAgain(s: State, es: seq<Step>, o: Owner)
    requires Gone(s, o) && s.owner != Some(o)
    ensures Run(s, es).owner != Some(o)
    decreases |es|
  {
    if es != [] { NeverOwnerAgain(Apply(s, es[0]), es[1..], o); }
  }

  /** A handoff names the acquisition immediately before it, and says `completed` exactly when
      that owner released the lease itself and said so. */
  lemma HandoffNamesTheLast(es: seq<Step>, o: Owner)
    requires MayAcquire(Run(Fresh, es), o)
    ensures var s := Run(Fresh, es);
            var s' := Apply(s, Acquire(o));
            && s'.previous == Handoff(s) && s'.held == s.held + [o] && s'.owner == Some(o)
            && (s.held == [] ==> Handoff(s).None?)
            && (s.held != [] ==> Handoff(s).Some? && Handoff(s).value.owner == s.held[|s.held| - 1])
            && (s.owner.Some? ==> Handoff(s).Some? && !Handoff(s).value.completed)
  {
    RunKeeps(Fresh, es);
  }

  /** The value came from this owner. */
  ghost predicate WroteContext(es: seq<Step>, o: Owner, value: string) {
    exists k :: 0 <= k < |es| && es[k] == SetContext(o, value)
  }

  ghost predicate WroteMemory(es: seq<Step>, o: Owner, value: Memory) {
    exists k :: 0 <= k < |es| && es[k] == SetMemory(o, value)
  }

  lemma StepWrites(s: State, e: Step)
    requires Inv(s) && Apply(s, e).held == s.held
    ensures var s' := Apply(s, e);
            && (s'.context != s.context ==> s.held != [] && e == SetContext(s.held[|s.held| - 1], s'.context))
            && (s'.memory != s.memory ==> s.held != [] && e == SetMemory(s.held[|s.held| - 1], s'.memory))
  {
  }

  lemma {:induction false} HeldGrows(s: State, es: seq<Step>)
    ensures s.held <= Run(s, es).held
    decreases |es|
  {
    if es != [] { HeldGrows(Apply(s, es[0]), es[1..]); }
  }

  /** Between two acquisitions the shared state changes only by what the owner that acquired it
      last writes, whoever else tries; so each owner finds what the one before it left. */
  lemma {:induction false} OnlyLastAcquirerWrites(s: State, es: seq<Step>)
    requires Inv(s) && Run(s, es).held == s.held
    ensures var s' := Run(s, es);
            if s.held == [] then s'.context == s.context && s'.memory == s.memory
            else
              && (s'.context == s.context || WroteContext(es, s.held[|s.held| - 1], s'.context))
              && (s'.memory == s.memory || WroteMemory(es, s.held[|s.held| - 1], s'.memory))
    decreases |es|
  {
    if es != [] {
      var next, rest := Apply(s, es[0]), es[1..];
      HeldGrows(next, rest);
      assert next.held == s.held;
      StepWrites(s, es[0]);
      assert Inv(next);
      OnlyLastAcquirerWrites(next, rest);
      if s.held != [] { WroteEarlier(es, s.held[|s.held| - 1], Run(s, es).context, Run(s, es).memory); }
    }
  }

  lemma WroteEarlier(es: seq<Step>, o: Owner, context: string, memory: Memory)
    requires es != []
    ensures WroteContext(es[1..], o, context) ==> WroteContext(es, o, context)
    ensures WroteMemory(es[1..], o, memory) ==> WroteMemory(es, o, memory)
  {
    if WroteContext(es[1..], o, context) {
      var k :| 0 <= k < |es[1..]| && es[1..][k] == SetContext(o, context);
      assert es[k + 1] == es[1..][k];
    }
    if WroteMemory(es[1..], o, memory) {
      var k :| 0 <= k < |es[1..]| && es[1..][k] == SetMemory(o, memory);
      assert es[k + 1] == es[1..][k];
    }
  }

  /** The lease row and the stores, one method a transaction. */
  class Lease {
    var owner: Option<Owner>
    var previous: Option<Last>
    var context: string
    var memory: Memory
    ghost var held: seq<Owner>

    ghost function Value(runs: map<RunId, RunRow>): State
      reads this
    {
      State(runs, owner, previous, context, memory, held)
    }

    method TryAcquire(runs: map<RunId, RunRow>, o: Owner) returns (handoff: Option<Option<Last>>)
      modifies this
      ensures Value(runs) == Apply(old(Value(runs)), Acquire(o))
      ensures handoff.Some? <==>
                && o.run in runs && runs[o.run] == RunRow(Running, o.generation)
                && (old(owner).None? || old(owner).value.run !in runs
                    || runs[old(owner).value.run].generation != old(owner).value.generation
                    || runs[old(owner).value.run].status in {Queued, Ended})
      ensures handoff.None? ==> Value(runs) == old(Value(runs))
      ensures handoff.Some? ==>
                && owner == Some(o) && context == old(context) && previous == handoff.value
                && handoff.value == (if old(owner).Some? then Some(Last(old(owner).value, false)) else old(previous))
                && memory.knowledge == old(memory).knowledge
                && memory.interactions ==
                   if handoff.value.Some? && handoff.value.value.owner.run == o.run then old(memory).interactions
                   else ""
    {
      if o.run !in runs || runs[o.run] != RunRow(Running, o.generation) { return None; }
      if owner.Some? && owner.value.run in runs && runs[owner.value.run].generation == owner.value.generation
         && (runs[owner.value.run].status.Running? || runs[owner.value.run].status.Waiting?) { return None; }
      var last := if owner.Some? then Some(Last(owner.value, false)) else previous;
      owner, previous := Some(o), last;
      held := held + [o];
      if last.None? || last.value.owner.run != o.run { memory := memory.(interactions := ""); }
      return Some(last);
    }

    method WriteContext(runs: map<RunId, RunRow>, o: Owner, value: string) returns (ok: bool)
      modifies this`context
      ensures Value(runs) == Apply(old(Value(runs)), SetContext(o, value))
      ensures ok <==> o.run in runs && runs[o.run] == RunRow(Running, o.generation) && owner == Some(o)
      ensures context == if ok then value else old(context)
    {
      ok := o.run in runs && runs[o.run] == RunRow(Running, o.generation) && owner == Some(o);
      if ok { context := value; }
    }

    method WriteMemory(runs: map<RunId, RunRow>, o: Owner, value: Memory) returns (ok: bool)
      modifies this`memory
      ensures Value(runs) == Apply(old(Value(runs)), SetMemory(o, value))
      ensures ok <==> o.run in runs && runs[o.run] == RunRow(Running, o.generation) && owner == Some(o)
      ensures memory == if ok then value else old(memory)
    {
      ok := o.run in runs && runs[o.run] == RunRow(Running, o.generation) && owner == Some(o);
      if ok { memory := value; }
    }

    method LetGo(runs: map<RunId, RunRow>, o: Owner, ok: bool)
      modifies this`owner, this`previous
      ensures Value(runs) == Apply(old(Value(runs)), Release(o, ok))
      ensures if old(owner) == Some(o) then owner == None && previous == Some(Last(o, ok))
              else owner == old(owner) && previous == old(previous)
    {
      if owner != Some(o) { return; }
      owner, previous := None, Some(Last(o, ok));
    }
  }
}
