/** The crash journal of the program tool (packages/agent/src/python-tool.ts): before an effect
    goes to the browser the durable progress record names it as in flight, after it comes back
    the record is rewritten, and the next invocation turns a leftover into a demand for
    reconciliation. Handlers of one invocation may overlap at every await. */
module EffectJournal {
  import opened Wrappers

  type OpId = nat

  /** The durable record; `null` in flight is the empty set. */
  datatype Progress = Progress(inFlight: set<OpId>, requiresReconciliation: bool)

  datatype Phase =
    | Recorded                            // in `running`, not yet in the record
    | Written                             // in the record
    | Cleared                             // passed the compiled-mode fence
    | Dispatched                          // the browser or service has it
    | Returned(ok: bool, uncertain: bool) // taken out of `running`, outcome not yet in the record

  datatype Op = Op(effect: bool, phase: Phase)

  /** One live call of the tool. `running` is the map of the source; an operation whose first
      write failed stays in it for good. */
  datatype Invocation = Invocation(compiled: bool, running: map<OpId, bool>, ops: map<OpId, Op>, stopped: bool)

  /** The rest is history: ids ever given out, effects ever dispatched, effects whose outcome
      reached the record, and effects of this invocation whose outcome write failed. */
  datatype State = State(progress: Progress, live: Option<Invocation>, used: set<OpId>, sent: set<OpId>,
    settled: set<OpId>, untold: set<OpId>)

  const Fresh := State(Progress({}, false), None, {}, {}, {}, {})

  /** A store write may fail, and it may commit although its caller sees a failure. */
  datatype Step =
    | Start(compiled: bool, ok: bool)
    | Record(o: OpId, effect: bool, inner: bool)
    | Begin(o: OpId, committed: bool, ok: bool)
    | Fence(o: OpId)
    | Dispatch(o: OpId)
    | Return(o: OpId, ok: bool, uncertain: bool)
    | Settle(o: OpId, committed: bool, ok: bool)
    | End                                 // the invocation is over, or its process died

  function EffectsOf(running: map<OpId, bool>): set<OpId> {
    set o | o in running && running[o]
  }

  function Reconciled(p: Progress): Progress {
    if p.inFlight != {} then Progress({}, true) else p
  }

  predicate InPhase(s: State, o: OpId, phase: Phase) {
    s.live.Some? && o in s.live.value.ops && s.live.value.ops[o].phase == phase
  }

  predicate Enabled(s: State, e: Step) {
    match e
    case Start(_, _) => s.live.None?
    case Record(o, effect, inner) =>
      s.live.Some? && o !in s.used && (inner ==> !effect) && (inner || !s.live.value.stopped)
    case Begin(o, committed, ok) => InPhase(s, o, Recorded) && s.live.value.ops[o].effect && (ok ==> committed)
    case Fence(o) => InPhase(s, o, Written) || (InPhase(s, o, Recorded) && !s.live.value.ops[o].effect)
    case Dispatch(o) => InPhase(s, o, Cleared)
    case Return(o, _, uncertain) => InPhase(s, o, Dispatched) && (uncertain ==> s.live.value.ops[o].effect)
    case Settle(o, committed, ok) =>
      s.live.Some? && o in s.live.value.ops && s.live.value.ops[o].phase.Returned? && (ok ==> committed)
    case End => s.live.Some?
  }

  function With(s: State, o: OpId, phase: Phase): State
    requires s.live.Some? && o in s.live.value.ops
  {
    var inv := s.live.value;
    s.(live := Some(inv.(ops := inv.ops[o := inv.ops[o].(phase := phase)])))
  }

  function Apply(s: State, e: Step): State
    requires Enabled(s, e)
  {
    match e
    case Start(compiled, ok) =>
      s.(progress := Reconciled(s.progress), untold := {},
         live := if ok then Some(Invocation(compiled, map[], map[], false)) else None)
    case Record(o, effect, _) =>
      var inv := s.live.value;
      s.(live := Some(inv.(running := inv.running[o := effect], ops := inv.ops[o := Op(effect, Recorded)])),
         used := s.used + {o})
    case Begin(o, committed, ok) =>
      var inv := s.live.value;
      var progress := if committed then s.progress.(inFlight := EffectsOf(inv.running)) else s.progress;
      if ok then With(s, o, Written).(progress := progress)
      else s.(progress := progress, live := Some(inv.(ops := inv.ops - {o})))
    case Fence(o) =>
      var inv := s.live.value;
      if inv.compiled && inv.ops[o].effect && s.progress.requiresReconciliation then Back(s, o, false, true)
      else With(s, o, Cleared)
    case Dispatch(o) =>
      With(s, o, Dispatched).(sent := if s.live.value.ops[o].effect then s.sent + {o} else s.sent)
    case Return(o, ok, uncertain) => Back(s, o, ok, uncertain)
    case Settle(o, committed, ok) =>
      var inv := s.live.value;
      var outcome := inv.ops[o].phase;
      var live := Some(inv.(ops := inv.ops - {o}, stopped := inv.stopped || (ok && inv.compiled && !outcome.ok)));
      if !committed then s.(live := live, untold := if inv.ops[o].effect then s.untold + {o} else s.untold)
      else s.(live := live, settled := s.settled + {o},
              progress := Progress(EffectsOf(inv.running), s.progress.requiresReconciliation || outcome.uncertain))
    case End => s.(live := None)
  }

  /** The call is over: out of `running`, before its outcome is written. */
  function Back(s: State, o: OpId, ok: bool, uncertain: bool): State
    requires s.live.Some? && o in s.live.value.ops
  {
    var inv := s.live.value;
    var returned := inv.ops[o].(phase := Returned(ok, uncertain));
    s.(live := Some(inv.(running := inv.running - {o}, ops := inv.ops[o := returned])))
  }

  // ---- what the writes of the record come to ----

  /** A new invocation turns whatever is in flight into a demand for reconciliation; if that
      cannot be written for sure, there is no invocation. */
  lemma StartIs(s: State, compiled: bool, ok: bool)
    requires s.live.None?
    ensures var s' := Apply(s, Start(compiled, ok));
            && s'.progress.inFlight == {}
            && (s'.progress.requiresReconciliation <==>
                  s.progress.requiresReconciliation || exists o :: o in s.progress.inFlight)
            && s'.live == if ok then Some(Invocation(compiled, map[], map[], false)) else None
  {
    if s.progress.inFlight != {} { var o :| o in s.progress.inFlight; }
  }

  /** A write names exactly the effects that are running; the one after an outcome also keeps the
      flag up, or puts it up if the outcome is uncertain. A write that fails changes nothing. */
  lemma WriteIs(s: State, e: Step)
    requires Enabled(s, e) && (e.Begin? || e.Settle?)
    ensures var p, p' := s.progress, Apply(s, e).progress;
            if !e.committed then p' == p
            else
              && (forall o :: o in p'.inFlight <==> o in s.live.value.running && s.live.value.running[o])
              && (p'.requiresReconciliation <==>
                    || p.requiresReconciliation
                    || (e.Settle? && s.live.value.ops[e.o].phase.uncertain))
  {
  }

  /** Only a compiled invocation has a fence, and it stops only effects, and only under the flag:
      the call comes back failed and uncertain without having been sent. */
  lemma FenceIs(s: State, o: OpId)
    requires Enabled(s, Fence(o))
    ensures var s', inv := Apply(s, Fence(o)), s.live.value;
            && s'.sent == s.sent && s'.progress == s.progress && s'.live.Some? && o in s'.live.value.ops
            && s'.live.value.ops[o] ==
               if inv.compiled && inv.ops[o].effect && s.progress.requiresReconciliation
               then Op(true, Returned(false, true)) else Op(inv.ops[o].effect, Cleared)
  {
  }

  ghost predicate Run(s: State, es: seq<Step>, s': State)
    decreases |es|
  {
    if es == [] then s == s' else Enabled(s, es[0]) && Run(Apply(s, es[0]), es[1..], s')
  }

  // ---- what the journal is for ----

  /** An effect was sent and the record does not have its outcome. */
  predicate Unsettled(s: State, o: OpId) {
    o in s.sent && o !in s.settled
  }

  /** The record owns up to every such effect. */
  ghost predicate Safe(s: State) {
    s.progress.requiresReconciliation || forall o :: Unsettled(s, o) ==> o in s.progress.inFlight
  }

  predicate Writes(e: Step) {
    (e.Begin? && e.committed) || (e.Settle? && e.committed)
  }

  /** At this write, no other effect of the invocation has come back without its outcome being
      written yet, and no outcome write of it has failed. */
  ghost predicate Clean(s: State, e: Step)
    requires Enabled(s, e)
  {
    Writes(e) ==>
      && s.untold == {}
      && forall o :: o in s.live.value.ops && o != e.o && s.live.value.ops[o].effect ==>
           !s.live.value.ops[o].phase.Returned?
  }

  /** Past its own write and not yet back. */
  predicate IsNamed(phase: Phase) {
    phase.Written? || phase.Cleared? || phase.Dispatched?
  }

  /** Kept by every run whatsoever. */
  ghost predicate Inv(s: State) {
    && s.sent <= s.used && s.settled <= s.used
    && (s.live.Some? ==>
          var inv := s.live.value;
          && inv.running.Keys <= s.used && inv.ops.Keys <= s.used
          && (forall o :: o in inv.ops ==> o !in s.settled && (inv.ops[o].phase.Returned? <==> o !in inv.running))
          && (forall o :: o in inv.ops && o in inv.running ==> inv.running[o] == inv.ops[o].effect)
          && (forall o :: o in inv.ops && o in s.sent ==>
                inv.ops[o].effect && (inv.ops[o].phase.Dispatched? || inv.ops[o].phase.Returned?))
          && (forall o :: o in inv.running && Unsettled(s, o) ==> o in inv.ops)
          && (forall o :: o in inv.ops && inv.ops[o].effect && IsNamed(inv.ops[o].phase) ==> o in s.progress.inFlight))
  }

  lemma ApplyKeeps(s: State, e: Step)
    requires Inv(s) && Enabled(s, e)
    ensures Inv(Apply(s, e))
    ensures s.progress.requiresReconciliation ==> Apply(s, e).progress.requiresReconciliation
  {
    match e
    case Begin(o, committed, ok) => BeginKeeps(s, o, committed, ok);
    case Settle(o, committed, ok) => SettleKeeps(s, o, committed, ok);
    case Record(o, effect, inner) => RecordKeeps(s, o, effect, inner);
    case Fence(o) => FenceKeeps(s, o);
    case Dispatch(o) => DispatchKeeps(s, o);
    case Return(o, ok, uncertain) => BackKeeps(s, o, ok, uncertain);
    case Start(_, _) =>
    case End =>
  }

  lemma RecordKeeps(s: State, o: OpId, effect: bool, inner: bool)
    requires Inv(s) && Enabled(s, Record(o, effect, inner))
    ensures Inv(Apply(s, Record(o, effect, inner)))
  {
  }

  lemma BackKeeps(s: State, o: OpId, ok: bool, uncertain: bool)
    requires Inv(s) && s.live.Some? && o in s.live.value.ops && !s.live.value.ops[o].phase.Returned?
    ensures Inv(Back(s, o, ok, uncertain))
  {
  }

  lemma FenceKeeps(s: State, o: OpId)
    requires Inv(s) && Enabled(s, Fence(o))
    ensures Inv(Apply(s, Fence(o)))
  {
    var inv := s.live.value;
    if inv.compiled && inv.ops[o].effect && s.progress.requiresReconciliation { BackKeeps(s, o, false, true); }
    else { ClearKeeps(s, o); }
  }

  lemma ClearKeeps(s: State, o: OpId)
    requires Inv(s) && Enabled(s, Fence(o))
    ensures Inv(With(s, o, Cleared))
  {
  }

  lemma DispatchKeeps(s: State, o: OpId)
    requires Inv(s) && Enabled(s, Dispatch(o))
    ensures Inv(Apply(s, Dispatch(o)))
  {
  }

  lemma BeginKeeps(s: State, o: OpId, committed: bool, ok: bool)
    requires Inv(s) && Enabled(s, Begin(o, committed, ok))
    ensures Inv(Apply(s, Begin(o, committed, ok)))
  {
  }

  lemma SettleKeeps(s: State, o: OpId, committed: bool, ok: bool)
    requires Inv(s) && Enabled(s, Settle(o, committed, ok))
    ensures Inv(Apply(s, Settle(o, committed, ok)))
  {
  }

  /** While the flag is down, every unsettled effect belongs to the live invocation: its handler
      is still there, or could not write the outcome. */
  ghost predicate Owned(s: State) {
    !s.progress.requiresReconciliation && s.live.Some? ==>
      var ops := s.live.value.ops;
      && (forall o :: Unsettled(s, o) ==> o in ops || o in s.untold)
      && (forall o :: o in ops && ops[o].effect && (ops[o].phase.Dispatched? || ops[o].phase.Returned?) ==> o in s.sent)
      && (forall o :: o in s.untold ==> Unsettled(s, o) && o !in ops && o !in s.live.value.running)
  }

  lemma OwnedKeeps(s: State, e: Step)
    requires Inv(s) && Safe(s) && Owned(s) && Enabled(s, e)
    ensures Owned(Apply(s, e))
  {
    match e
    case Settle(o, committed, ok) => SettleKeepsOwned(s, o, committed, ok);
    case Record(o, effect, inner) => RecordKeepsOwned(s, o, effect, inner);
    case Begin(o, committed, ok) => BeginKeepsOwned(s, o, committed, ok);
    case _ => OthersKeepOwned(s, e);
  }

  lemma SettleKeepsOwned(s: State, o: OpId, committed: bool, ok: bool)
    requires Inv(s) && Owned(s) && Enabled(s, Settle(o, committed, ok))
    ensures Owned(Apply(s, Settle(o, committed, ok)))
  {
  }

  lemma RecordKeepsOwned(s: State, o: OpId, effect: bool, inner: bool)
    requires Inv(s) && Owned(s) && Enabled(s, Record(o, effect, inner))
    ensures Owned(Apply(s, Record(o, effect, inner)))
  {
  }

  lemma BeginKeepsOwned(s: State, o: OpId, committed: bool, ok: bool)
    requires Inv(s) && Owned(s) && Enabled(s, Begin(o, committed, ok))
    ensures Owned(Apply(s, Begin(o, committed, ok)))
  {
  }

  lemma OthersKeepOwned(s: State, e: Step)
    requires Inv(s) && Safe(s) && Owned(s) && Enabled(s, e) && !e.Settle? && !e.Record? && !e.Begin?
    ensures Owned(Apply(s, e))
  {
  }

  /** A write keeps the record honest exactly when it is clean or the flag is up afterwards. */
  lemma WriteIsSafeIffClean(s: State, e: Step)
    requires Inv(s) && Safe(s) && Owned(s) && Enabled(s, e) && Writes(e)
    ensures Safe(Apply(s, e)) <==> Clean(s, e) || Apply(s, e).progress.requiresReconciliation
  {
    var s', inv := Apply(s, e), s.live.value;
    assert s'.progress.inFlight == EffectsOf(inv.running);
    assert forall o :: Unsettled(s', o) <==> Unsettled(s, o) && (e.Settle? ==> o != e.o);
    if e.Begin? { assert e.o in inv.running && inv.running[e.o]; }
    if !s'.progress.requiresReconciliation {
      if Clean(s, e) {
        forall o: OpId | Unsettled(s', o) ensures o in s'.progress.inFlight {
          assert o in inv.ops && inv.ops[o].effect;
        }
      } else if s.untold != {} {
        var o :| o in s.untold;
        assert Unsettled(s', o) && o !in inv.running;
      } else {
        var o :| o in inv.ops && o != e.o && inv.ops[o].effect && inv.ops[o].phase.Returned?;
        assert Unsettled(s', o) && o !in inv.running;
      }
    }
  }

  lemma OthersKeepSafe(s: State, e: Step)
    requires Inv(s) && Safe(s) && Enabled(s, e) && !Writes(e)
    ensures Safe(Apply(s, e))
  {
  }

  ghost predicate CleanRun(s: State, es: seq<Step>, s': State)
    decreases |es|
  {
    if es == [] then s == s'
    else Enabled(s, es[0]) && Clean(s, es[0]) && CleanRun(Apply(s, es[0]), es[1..], s')
  }

  /** Write-ahead: whatever stops the process whenever, an effect whose outcome is not recorded
      is named by the record, or the record already demands reconciliation. */
  lemma {:induction false} CleanRunsAreSafe(s: State, es: seq<Step>, s': State)
    requires Inv(s) && Safe(s) && Owned(s) && CleanRun(s, es, s')
    ensures Inv(s') && Safe(s') && Owned(s')
    decreases |es|
  {
    if es != [] {
      ApplyKeeps(s, es[0]);
      OwnedKeeps(s, es[0]);
      if Writes(es[0]) { WriteIsSafeIffClean(s, es[0]); } else { OthersKeepSafe(s, es[0]); }
      CleanRunsAreSafe(Apply(s, es[0]), es[1..], s');
    }
  }

  // ---- operations one after another or nested are clean ----

  /** Only one handler is outside the browser at a time: the others wait in a dispatched call,
      as the caller of a callback does. And no outcome write fails in a process that lives on. */
  ghost predicate Orderly(s: State, e: Step)
    requires Enabled(s, e)
  {
    && (!e.Start? && !e.End? && !e.Record? ==> Waiting(s, e.o))
    && (e.Record? ==> forall o :: o in s.live.value.ops ==> s.live.value.ops[o].phase.Dispatched?)
    && (e.Settle? ==> e.committed)
  }

  ghost predicate Waiting(s: State, but: OpId)
    requires s.live.Some?
  {
    forall o :: o in s.live.value.ops && o != but ==> s.live.value.ops[o].phase.Dispatched?
  }

  ghost predicate OrderlyRun(s: State, es: seq<Step>, s': State)
    decreases |es|
  {
    if es == [] then s == s'
    else Enabled(s, es[0]) && Orderly(s, es[0]) && OrderlyRun(Apply(s, es[0]), es[1..], s')
  }

  ghost predicate Accounted(s: State) {
    Inv(s) && Safe(s) && Owned(s) && (s.live.Some? ==> s.untold == {})
  }

  lemma OrderlyKeeps(s: State, e: Step)
    requires Accounted(s) && Enabled(s, e) && Orderly(s, e)
    ensures Accounted(Apply(s, e))
  {
    ApplyKeeps(s, e);
    OwnedKeeps(s, e);
    if Writes(e) { WriteIsSafeIffClean(s, e); } else { OthersKeepSafe(s, e); }
  }

  lemma {:induction false} OrderlyRunsAreSafe(s: State, es: seq<Step>, s': State)
    requires Accounted(s) && OrderlyRun(s, es, s')
    ensures Accounted(s')
    decreases |es|
  {
    if es != [] {
      OrderlyKeeps(s, es[0]);
      OrderlyRunsAreSafe(Apply(s, es[0]), es[1..], s');
    }
  }

  // ---- the flag, over every run ----

  lemma {:induction false} FlagIsForever(s: State, es: seq<Step>, s': State)
    requires s.progress.requiresReconciliation && Run(s, es, s')
    ensures s'.progress.requiresReconciliation
    decreases |es|
  {
    if es != [] { FlagIsForever(Apply(s, es[0]), es[1..], s'); }
  }

  /** The flag is up, and a compiled invocation has no effect past the fence. */
  ghost predicate Barred(s: State) {
    && s.progress.requiresReconciliation
    && (s.live.Some? && s.live.value.compiled ==> forall o :: o in s.live.value.ops ==> !PastFence(s.live.value.ops[o]))
  }

  predicate PastFence(op: Op) {
    op.effect && op.phase.Cleared?
  }

  lemma {:induction false} BarredForever(s: State, es: seq<Step>, s': State)
    requires Barred(s) && Run(s, es, s')
    ensures Barred(s')
    decreases |es|
  {
    if es != [] { BarredForever(Apply(s, es[0]), es[1..], s'); }
  }

  /** Once the flag is up, no step of a compiled invocation sends an effect, whatever invocations
      of either kind come before it and however its handlers overlap. */
  lemma CompiledSendsNothing(s: State, es: seq<Step>, s': State, e: Step)
    requires Barred(s) && Run(s, es, s') && s'.live.Some? && s'.live.value.compiled && Enabled(s', e)
    ensures Apply(s', e).sent == s'.sent
  {
    BarredForever(s, es, s');
  }

  /** After a crash anywhere in an orderly run that left an effect without a recorded outcome,
      the next invocation, of either kind, demands reconciliation, and from then on no compiled
      one sends an effect. */
  lemma CrashStopsCompiledEffects(before: seq<Step>, s: State, o: OpId, compiled: bool, after: seq<Step>, s': State)
    requires OrderlyRun(Fresh, before, s) && s.live.None? && Unsettled(s, o)
    requires Run(Apply(s, Start(compiled, true)), after, s')
    ensures s'.progress.requiresReconciliation
    ensures s'.live.Some? && s'.live.value.compiled ==>
              forall e :: Enabled(s', e) ==> Apply(s', e).sent == s'.sent
  {
    OrderlyRunsAreSafe(Fresh, before, s);
    var started := Apply(s, Start(compiled, true));
    BarredForever(started, after, s');
    if s'.live.Some? && s'.live.value.compiled {
      forall e | Enabled(s', e) ensures Apply(s', e).sent == s'.sent { CompiledSendsNothing(started, after, s', e); }
    }
  }

  // ---- where the record does lose an effect ----

  /** One operation at a time is not enough: when the outcome write of an effect fails, the next
      effect's own first write overwrites the only trace of it. */
  lemma FailedOutcomeWriteIsForgotten() returns (es: seq<Step>, s: State)
    ensures Run(Fresh, es, s) && Unsettled(s, 0)
    ensures 0 !in s.progress.inFlight && !s.progress.requiresReconciliation
    ensures forall e :: e in es && e.Settle? ==> !e.committed
  {
    var tail := [Settle(0, false, false), Record(1, true, false), Begin(1, true, true)];
    var mid := Sent(0);
    var lost := Apply(mid, tail[0]);
    var next := Apply(lost, tail[1]);
    s := Apply(next, tail[2]);
    assert next.live.value.running == map[1 := true];
    assert Run(next, tail[2..], s);
    assert Run(lost, tail[1..], s) by { assert tail[1..][1..] == tail[2..]; }
    assert Run(mid, tail, s);
    SentRun(tail, s);
    es := FirstWritten + FirstReturned + tail;
  }

  /** Overlapping handlers lose one too: the second effect's first write falls between the
      moment the first leaves `running` and its outcome write. */
  lemma OverlapForgets() returns (es: seq<Step>, s: State)
    ensures Run(Fresh, es, s) && Unsettled(s, 0)
    ensures 0 !in s.progress.inFlight && !s.progress.requiresReconciliation
    ensures forall e :: e in es ==> !e.Settle?
  {
    var tail := [Record(1, true, false), Begin(1, true, true)];
    var mid := Sent(0);
    var next := Apply(mid, tail[0]);
    s := Apply(next, tail[1]);
    assert next.live.value.running == map[1 := true];
    assert Run(next, tail[1..], s);
    assert Run(mid, tail, s);
    SentRun(tail, s);
    es := FirstWritten + FirstReturned + tail;
  }

  /** One effect has gone out and come back; its outcome is still to be written. */
  function Sent(o: OpId): State {
    State(Progress({o}, false), Some(Invocation(false, map[], map[o := Op(true, Returned(true, false))], false)),
          {o}, {o}, {}, {})
  }

  /** One effect is on its way. */
  function One(o: OpId, inFlight: set<OpId>, sent: set<OpId>, phase: Phase): State {
    State(Progress(inFlight, false), Some(Invocation(false, map[o := true], map[o := Op(true, phase)], false)),
          {o}, sent, {}, {})
  }

  lemma ThreeSteps(s: State, e: Step, s1: State, e1: Step, s2: State, e2: Step)
    requires Enabled(s, e) && s1 == Apply(s, e) && Enabled(s1, e1) && s2 == Apply(s1, e1) && Enabled(s2, e2)
    ensures Run(s, [e, e1, e2], Apply(s2, e2))
  {
    var es := [e, e1, e2];
    assert Run(s2, es[2..], Apply(s2, e2)) by { assert es[2..][1..] == []; }
    assert Run(s1, es[1..], Apply(s2, e2)) by { assert es[1..][1..] == es[2..]; }
  }

  lemma WrittenRun(o: OpId)
    ensures Run(Fresh, [Start(false, true), Record(o, true, false), Begin(o, true, true)], One(o, {o}, {}, Written))
  {
    var s1, s2 := Apply(Fresh, Start(false, true)), One(o, {}, {}, Recorded);
    assert EffectsOf(map[o := true]) == {o};
    assert Apply(s1, Record(o, true, false)) == s2;
    Overwritten(map[], o, Op(true, Recorded), Op(true, Written));
    ThreeSteps(Fresh, Start(false, true), s1, Record(o, true, false), s2, Begin(o, true, true));
  }

  lemma ReturnedRun(o: OpId)
    ensures Run(One(o, {o}, {}, Written), [Fence(o), Dispatch(o), Return(o, true, false)], Sent(o))
  {
    var s3, s4, s5 := One(o, {o}, {}, Written), One(o, {o}, {}, Cleared), One(o, {o}, {o}, Dispatched);
    assert map[o := true] - {o} == map[];
    Overwritten(map[], o, Op(true, Written), Op(true, Cleared));
    assert Apply(s3, Fence(o)) == s4;
    Overwritten(map[], o, Op(true, Cleared), Op(true, Dispatched));
    assert Apply(s4, Dispatch(o)) == s5;
    Overwritten(map[], o, Op(true, Dispatched), Op(true, Returned(true, false)));
    ThreeSteps(s3, Fence(o), s4, Dispatch(o), s5, Return(o, true, false));
  }

  const FirstWritten := [Start(false, true), Record(0, true, false), Begin(0, true, true)]
  const FirstReturned := [Fence(0), Dispatch(0), Return(0, true, false)]

  lemma SentRun(tail: seq<Step>, s: State)
    requires Run(Sent(0), tail, s)
    ensures Run(Fresh, FirstWritten + FirstReturned + tail, s)
  {
    WrittenRun(0);
    ReturnedRun(0);
    RunJoin(Fresh, FirstWritten, One(0, {0}, {}, Written), FirstReturned, Sent(0));
    RunJoin(Fresh, FirstWritten + FirstReturned, Sent(0), tail, s);
  }

  // ---- the handler itself ----

  lemma {:induction false} RunJoin(s: State, es: seq<Step>, mid: State, es': seq<Step>, s': State)
    requires Run(s, es, mid) && Run(mid, es', s')
    ensures Run(s, es + es', s')
    decreases |es|
  {
    if es == [] {
      assert es + es' == es';
    } else {
      RunJoin(Apply(s, es[0]), es[1..], mid, es', s');
      assert (es + es')[1..] == es[1..] + es';
    }
  }

  lemma Overwritten(ops: map<OpId, Op>, o: OpId, before: Op, after: Op)
    ensures ops[o := before][o := after] == ops[o := after]
    ensures o !in ops ==> ops[o := before] - {o} == ops
  {
  }

  lemma RunOf(s: State, e: Step, f: Step)
    requires Enabled(s, e)
    ensures Run(s, [e], Apply(s, e))
    ensures Enabled(Apply(s, e), f) ==> Run(s, [e, f], Apply(Apply(s, e), f))
  {
    assert [e, f][1..] == [f] && [f][1..] == [] && [e][1..] == [];
    assert Enabled(Apply(s, e), f) ==> Run(Apply(s, e), [f], Apply(Apply(s, e), f));
  }

  /** The state with one more call open. */
  function Opened(s: State, o: OpId, op: Op): State
    requires s.live.Some?
  {
    s.(live := Some(s.live.value.(ops := s.live.value.ops[o := op])))
  }

  function Closed(s: State, o: OpId, effect: bool): State
    requires s.live.Some?
  {
    s.(live := Some(s.live.value.(running := s.live.value.running - {o})),
       sent := if effect then s.sent + {o} else s.sent)
  }

  lemma FencedRun(s: State, o: OpId)
    requires s.live.Some? && o !in s.live.value.ops && s.live.value.compiled && s.progress.requiresReconciliation
    ensures Run(Opened(s, o, Op(true, Written)), [Fence(o)],
                Opened(Closed(s, o, false), o, Op(true, Returned(false, true))))
  {
    Overwritten(s.live.value.ops, o, Op(true, Written), Op(true, Returned(false, true)));
    RunOf(Opened(s, o, Op(true, Written)), Fence(o), End);
  }

  lemma SentOut(s: State, o: OpId, effect: bool, ok: bool, uncertain: bool)
    requires s.live.Some? && o !in s.live.value.ops && (uncertain ==> effect)
    requires !(s.live.value.compiled && effect && s.progress.requiresReconciliation)
    ensures Run(Opened(s, o, Op(effect, if effect then Written else Recorded)),
                [Fence(o)] + [Dispatch(o), Return(o, ok, uncertain)],
                Opened(Closed(s, o, effect), o, Op(effect, Returned(ok, uncertain))))
  {
    var ops, first := s.live.value.ops, Op(effect, if effect then Written else Recorded);
    var from, cleared := Opened(s, o, first), Opened(s, o, Op(effect, Cleared));
    Overwritten(ops, o, first, Op(effect, Cleared));
    Overwritten(ops, o, Op(effect, Cleared), Op(effect, Dispatched));
    Overwritten(ops, o, Op(effect, Dispatched), Op(effect, Returned(ok, uncertain)));
    RunOf(from, Fence(o), End);
    RunOf(cleared, Dispatch(o), Return(o, ok, uncertain));
    RunJoin(from, [Fence(o)], cleared, [Dispatch(o), Return(o, ok, uncertain)],
            Opened(Closed(s, o, effect), o, Op(effect, Returned(ok, uncertain))));
  }

  /** What the store, the browser and the fence do to one call. */
  datatype Fate = Fate(beginCommits: bool, beginOk: bool, callOk: bool, uncertain: bool,
    settleCommits: bool, settleOk: bool)

  datatype Reply = Stopped | Threw | Value(ok: bool, outcomeUncertain: bool)

  class ProgramTool {
    const compiled: bool
    var running: map<OpId, bool>
    var stopped: bool
    var progress: Progress
    ghost var waiting: map<OpId, Op>      // the calls this one is nested in
    ghost var used: set<OpId>
    ghost var sent: set<OpId>
    ghost var settled: set<OpId>
    ghost var untold: set<OpId>

    ghost function Now(): State
      reads this
    {
      State(progress, Some(Invocation(compiled, running, waiting, stopped)), used, sent, settled, untold)
    }

    /** With one more call open. */
    ghost function Inside(o: OpId, op: Op): State
      reads this
    {
      Opened(Now(), o, op)
    }

    method Enter(o: OpId, effect: bool, inner: bool) returns (ghost es: seq<Step>)
      requires o !in used && waiting.Keys <= used && (inner ==> !effect) && (inner || !stopped)
      modifies this`running, this`used
      ensures running == old(running)[o := effect] && used == old(used) + {o}
      ensures Run(old(Now()), es, Inside(o, Op(effect, Recorded)))
    {
      running := running[o := effect];
      used := used + {o};
      RunOf(old(Now()), Record(o, effect, inner), End);
      es := [Record(o, effect, inner)];
    }

    method WriteAhead(o: OpId, commits: bool, ok: bool) returns (ghost es: seq<Step>)
      requires (ok ==> commits) && o !in waiting
      modifies this`progress
      ensures progress == if commits then old(progress).(inFlight := EffectsOf(running)) else old(progress)
      ensures Run(old(Inside(o, Op(true, Recorded))), es, if ok then Inside(o, Op(true, Written)) else Now())
    {
      if commits { progress := progress.(inFlight := EffectsOf(running)); }
      Overwritten(waiting, o, Op(true, Recorded), Op(true, Written));
      RunOf(old(Inside(o, Op(true, Recorded))), Begin(o, commits, ok), End);
      es := [Begin(o, commits, ok)];
    }

    method Send(o: OpId, effect: bool, fate: Fate) returns (ok: bool, uncertain: bool, ghost es: seq<Step>)
      requires o !in waiting && o !in sent
      modifies this`running, this`sent
      ensures running == old(running) - {o}
      ensures var fenced := compiled && effect && progress.requiresReconciliation;
              && sent == old(sent) + (if effect && !fenced then {o} else {})
              && ok == (!fenced && fate.callOk) && uncertain == (effect && (fenced || fate.uncertain))
      ensures Run(old(Inside(o, Op(effect, if effect then Written else Recorded))), es,
                  Inside(o, Op(effect, Returned(ok, uncertain))))
    {
      ghost var before := Now();
      var fenced := compiled && effect && progress.requiresReconciliation;
      ok, uncertain := !fenced && fate.callOk, effect && (fenced || fate.uncertain);
      es := [Fence(o)] + if fenced then [] else [Dispatch(o), Return(o, ok, uncertain)];
      if fenced { FencedRun(before, o); } else { SentOut(before, o, effect, ok, uncertain); }
      if effect && !fenced { sent := sent + {o}; }
      running := running - {o};
    }

    method WriteOutcome(o: OpId, effect: bool, ok: bool, uncertain: bool, fate: Fate) returns (ghost es: seq<Step>)
      requires o !in waiting && (fate.settleOk ==> fate.settleCommits)
      modifies this`progress, this`settled, this`stopped, this`untold
      ensures progress == if fate.settleCommits
                then Progress(EffectsOf(running), old(progress).requiresReconciliation || uncertain) else old(progress)
      ensures stopped == (old(stopped) || (fate.settleOk && compiled && !ok))
      ensures Run(old(Inside(o, Op(effect, Returned(ok, uncertain)))), es, Now())
    {
      if fate.settleCommits {
        progress := Progress(EffectsOf(running), progress.requiresReconciliation || uncertain);
        settled := settled + {o};
      } else if effect {
        untold := untold + {o};
      }
      if fate.settleOk && compiled && !ok { stopped := true; }
      assert waiting[o := Op(effect, Returned(ok, uncertain))] - {o} == waiting;
      RunOf(old(Inside(o, Op(effect, Returned(ok, uncertain)))), Settle(o, fate.settleCommits, fate.settleOk), End);
      es := [Settle(o, fate.settleCommits, fate.settleOk)];
    }

    /** One call from start to end while its callers wait: a run of the machine. An effect goes
        out only after its own write, and never past the compiled-mode fence. */
    method Call(o: OpId, effect: bool, inner: bool, fate: Fate) returns (reply: Reply, ghost es: seq<Step>)
      requires o !in used && waiting.Keys <= used && sent <= used && (inner ==> !effect)
      requires fate.beginOk ==> fate.beginCommits
      requires fate.settleOk ==> fate.settleCommits
      modifies this`running, this`stopped, this`progress, this`used, this`sent, this`settled, this`untold
      ensures Run(old(Now()), es, Now())
      ensures reply.Stopped? <==> old(stopped) && !inner
      ensures reply.Stopped? ==> Now() == old(Now())
      ensures o in sent <==>
                effect && !reply.Stopped? && fate.beginOk && !(compiled && old(progress).requiresReconciliation)
      ensures reply.Value? <==> !(old(stopped) && !inner) && (effect ==> fate.beginOk) && fate.settleOk
      ensures reply.Value? ==>
                var fenced := compiled && effect && old(progress).requiresReconciliation;
                && (reply.ok <==> fate.callOk && !fenced)
                && (reply.outcomeUncertain <==> effect && (fenced || fate.uncertain))
      ensures effect && reply.Value? && reply.outcomeUncertain ==> progress.requiresReconciliation
      ensures reply.Value? ==>
                o !in running && forall p :: p in progress.inFlight <==> p in running && running[p]
      ensures reply.Value? && compiled && !reply.ok ==> stopped
    {
      if stopped && !inner { return Stopped, []; }
      ghost var more;
      es := Enter(o, effect, inner);
      if effect {
        ghost var at := Inside(o, Op(effect, Recorded));
        more := WriteAhead(o, fate.beginCommits, fate.beginOk);
        RunJoin(old(Now()), es, at, more, if fate.beginOk then Inside(o, Op(true, Written)) else Now());
        es := es + more;
        if !fate.beginOk { return Threw, es; }
      }
      ghost var sending := Inside(o, Op(effect, if effect then Written else Recorded));
      var ok, uncertain;
      ok, uncertain, more := Send(o, effect, fate);
      ghost var back := Inside(o, Op(effect, Returned(ok, uncertain)));
      RunJoin(old(Now()), es, sending, more, back);
      es := es + more;
      more := WriteOutcome(o, effect, ok, uncertain, fate);
      RunJoin(old(Now()), es, back, more, Now());
      es := es + more;
      return if fate.settleOk then Value(ok, uncertain) else Threw, es;
    }
  }
}
