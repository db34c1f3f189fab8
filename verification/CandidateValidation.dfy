/** `validatePythonCandidate` (packages/agent/src/python-validation.ts): one normal replay,
    then one replay for every single fault the plan names. */
module CandidateValidation {
  import opened Wrappers
  import opened CandidateReplay
  import opened Counterfactuals

  datatype Planned = Planned(id: string, prompt: string)
  datatype Plan = Plan(guards: set<string>, planned: Option<Planned>)

  /** Which replay the candidate is run in. */
  datatype Trial =
    | Normal
    | Failing(op: nat)              // the operation fails
    | Changed(op: nat, value: Json) // it succeeds with other contents

  type Candidate = Trial -> seq<Action>

  predicate Retained(op: Operation) {
    op.ok && !Internal(op.name) && op.name !in {"playwright.open", "playwright.close"}
  }

  predicate Tested(plan: Plan, op: Operation) {
    op.id in plan.guards || BrowserEffect(op)
  }

  predicate NormalAccepted(ops: seq<Operation>, plan: Plan, h: Host) {
    && !h.violation
    && h.terminal == (if plan.planned.Some? then Deopt else Done)
    && (plan.planned.Some? ==>
          h.deoptId == Some(plan.planned.value.id) && h.deoptReason == Some(plan.planned.value.prompt))
    && forall i :: 0 <= i < |ops| && Retained(ops[i]) ==> ops[i].id in h.seen
  }

  predicate FaultAccepted(plan: Plan, h: Host) {
    h.terminal == Deopt && !h.violation && (plan.planned.Some? ==> h.deoptId != Some(plan.planned.value.id))
  }

  // ---- the whole validation ----

  ghost predicate Accepts(ops: seq<Operation>, values: seq<Json>, plan: Plan, candidate: Candidate)
    requires |values| == |ops|
  {
    && NormalAccepted(ops, plan, Replay(ops, None, candidate(Normal)))
    && forall i :: 0 <= i < |ops| && Tested(plan, ops[i]) ==> FaultsAccepted(ops, values, plan, candidate, i)
  }

  ghost predicate FaultsAccepted(ops: seq<Operation>, values: seq<Json>, plan: Plan, candidate: Candidate, i: nat)
    requires |values| == |ops| && i < |ops|
  {
    && FaultAccepted(plan, Replay(ops, Some(ops[i].id), candidate(Failing(i))))
    && (ops[i].id in plan.guards ==>
          forall v :: Counterfactual(ops[i].name, values[i], v) ==> VariantAccepted(ops, plan, candidate, i, v))
  }

  ghost predicate VariantAccepted(ops: seq<Operation>, plan: Plan, candidate: Candidate, i: nat, value: Json)
    requires i < |ops|
  {
    FaultAccepted(plan, Replay(ops, Some(ops[i].id), candidate(Changed(i, value))))
  }

  method TryFaults(ops: seq<Operation>, values: seq<Json>, plan: Plan, candidate: Candidate, i: nat) returns (ok: bool)
    requires |values| == |ops| && i < |ops|
    ensures ok <==> FaultsAccepted(ops, values, plan, candidate, i)
  {
    var failed := Replay(ops, Some(ops[i].id), candidate(Failing(i)));
    if !FaultAccepted(plan, failed) { return false; }
    if ops[i].id !in plan.guards { return true; }
    var variants := Variants(ops[i].name, values[i]);
    VariantsAreCounterfactuals(ops[i].name, values[i]);
    ok := TryVariants(ops, variants, plan, candidate, i);
  }

  method TryVariants(ops: seq<Operation>, variants: seq<Json>, plan: Plan, candidate: Candidate, i: nat)
      returns (ok: bool)
    requires i < |ops|
    ensures ok <==> forall v :: v in variants ==> VariantAccepted(ops, plan, candidate, i, v)
  {
    var k := 0;
    while k < |variants|
      invariant k <= |variants|
      invariant forall l :: 0 <= l < k ==> VariantAccepted(ops, plan, candidate, i, variants[l])
    {
      var changed := Replay(ops, Some(ops[i].id), candidate(Changed(i, variants[k])));
      if !FaultAccepted(plan, changed) {
        assert variants[k] in variants && !VariantAccepted(ops, plan, candidate, i, variants[k]);
        return false;
      }
      k := k + 1;
    }
    return true;
  }

  method Validate(ops: seq<Operation>, values: seq<Json>, plan: Plan, candidate: Candidate) returns (ok: bool)
    requires |values| == |ops|
    ensures ok <==> Accepts(ops, values, plan, candidate)
  {
    var normal := Replay(ops, None, candidate(Normal));
    if !NormalAccepted(ops, plan, normal) { return false; }
    var i := 0;
    while i < |ops|
      invariant i <= |ops|
      invariant forall j :: 0 <= j < i && Tested(plan, ops[j]) ==> FaultsAccepted(ops, values, plan, candidate, j)
    {
      if Tested(plan, ops[i]) {
        var accepted := TryFaults(ops, values, plan, candidate, i);
        if !accepted { return false; }
      }
      i := i + 1;
    }
    return true;
  }

  // ---- what acceptance means ----

  /** The normal replay is accepted when it breaks no rule, ends as planned, and has made every
      successful recorded call but those of the harness itself. */
  lemma NormalAcceptedIff(ops: seq<Operation>, plan: Plan, h: Host)
    ensures NormalAccepted(ops, plan, h) <==>
              && !h.violation
              && (match plan.planned
                  case None => h.terminal == Done
                  case Some(planned) => h.terminal == Deopt && h.deoptId == Some(planned.id)
                                        && h.deoptReason == Some(planned.prompt))
              && forall i | 0 <= i < |ops| && ops[i].ok :: || "internal." <= ops[i].name
                   || ops[i].name in {"playwright.open", "playwright.close"} || ops[i].id in h.seen
  {
  }

  /** A replay with a fault is accepted when it ends in a hand-over of its own, within the rules;
      the operations put to the test are the guards and the effects on the browser. */
  lemma FaultAcceptedIff(plan: Plan, h: Host, op: Operation)
    ensures FaultAccepted(plan, h) <==>
              h.terminal == Deopt && !h.violation && (plan.planned.None? || h.deoptId != Some(plan.planned.value.id))
    ensures Tested(plan, op) <==>
              || op.id in plan.guards
              || (op.effect && !("internal." <= op.name)
                  && op.name !in {"workflow.done", "workflow.fail", "workflow.memory.set"})
  {
  }

  /** No recorded operation is consumed twice, and the browser effects are the recorded ones, in
      recorded order and without a gap, up to some point. */
  ghost predicate Faithful(ops: seq<Operation>, h: Host) {
    && (forall k :: 0 <= k < |h.log| ==> h.log[k] < |ops|)
    && (forall k, l :: 0 <= k < l < |h.log| ==> h.log[k] != h.log[l])
    && EffectsOf(ops, h.log) <= EffectsBefore(ops, |ops|)
    && h.effects == |EffectsOf(ops, h.log)|
  }

  lemma AcceptedNormalReplay(ops: seq<Operation>, values: seq<Json>, plan: Plan, candidate: Candidate)
    requires |values| == |ops| && DistinctIds(ops) && Accepts(ops, values, plan, candidate)
    ensures var h := Replay(ops, None, candidate(Normal));
            && Faithful(ops, h)
            && h.terminal == (if plan.planned.Some? then Deopt else Done)
            && (plan.planned.Some? ==>
                  h.deoptId == Some(plan.planned.value.id) && h.deoptReason == Some(plan.planned.value.prompt))
            && forall i | 0 <= i < |ops| && ops[i].ok && !("internal." <= ops[i].name)
                           && ops[i].name !in {"playwright.open", "playwright.close"} ::
                 && i in h.log
                 && (ops[i].effect && ops[i].name !in {"workflow.done", "workflow.fail", "workflow.memory.set"} ==>
                       i in EffectsOf(ops, h.log))
  {
    var h := Replay(ops, None, candidate(Normal));
    ReplayInv(ops, None, candidate(Normal));
    EffectsOfMembers(ops, h.log);
  }

  /** After its single fault an accepted replay makes no further effect, never gets the failed
      operation accepted, and ends by handing over to the AI for a reason of its own. */
  ghost predicate StopsAtFault(ops: seq<Operation>, plan: Plan, i: nat, h: Host)
    requires i < |ops|
  {
    && Faithful(ops, h)
    && i !in h.log
    && (h.broken ==> forall k :: h.beforeFault <= k < |h.log| ==> !ops[h.log[k]].effect)
    && h.terminal == Deopt
    && (plan.planned.Some? ==> h.deoptId != Some(plan.planned.value.id))
  }

  lemma AcceptedFaultReplay(ops: seq<Operation>, values: seq<Json>, plan: Plan, candidate: Candidate, i: nat)
    requires |values| == |ops| && DistinctIds(ops) && Accepts(ops, values, plan, candidate)
    requires i < |ops|
    requires || ops[i].id in plan.guards
             || (ops[i].effect && !("internal." <= ops[i].name)
                 && ops[i].name !in {"workflow.done", "workflow.fail", "workflow.memory.set"})
    ensures StopsAtFault(ops, plan, i, Replay(ops, Some(ops[i].id), candidate(Failing(i))))
    ensures ops[i].id in plan.guards ==> forall v :: Counterfactual(ops[i].name, values[i], v) ==>
              Notices(ops, plan, candidate, i, v)
  {
    assert FaultsAccepted(ops, values, plan, candidate, i);
    FaultStops(ops, plan, i, candidate(Failing(i)));
    if ops[i].id in plan.guards {
      forall v | Counterfactual(ops[i].name, values[i], v)
        ensures Notices(ops, plan, candidate, i, v)
      {
        FaultStops(ops, plan, i, candidate(Changed(i, v)));
      }
    }
  }

  /** Told that call `i` returned `v`, the candidate stops there. */
  ghost predicate Notices(ops: seq<Operation>, plan: Plan, candidate: Candidate, i: nat, v: Json)
    requires i < |ops|
  {
    StopsAtFault(ops, plan, i, Replay(ops, Some(ops[i].id), candidate(Changed(i, v))))
  }

  /** What an accepted candidate notices at a guard, kind by kind. */
  lemma AcceptedGuardNotices(ops: seq<Operation>, values: seq<Json>, plan: Plan, candidate: Candidate, i: nat)
    requires |values| == |ops| && DistinctIds(ops) && Accepts(ops, values, plan, candidate)
    requires i < |ops| && ops[i].id in plan.guards
    ensures match values[i]
            case Null => true
            case Bool(b) => Notices(ops, plan, candidate, i, Bool(!b))
            case Text(_) => Notices(ops, plan, candidate, i, Text(""))
            case Num(n) =>
              && Notices(ops, plan, candidate, i, Num(0.0))
              && (-9007199254740992.0 <= n < 9007199254740992.0 ==> Notices(ops, plan, candidate, i, Num(n + 1.0)))
            case Arr(items) =>
              && Notices(ops, plan, candidate, i, Arr([]))
              && (items != [] ==>
                    && Notices(ops, plan, candidate, i, Arr(items[..|items| - 1]))
                    && Notices(ops, plan, candidate, i, Arr(items + [items[0]]))
                    && forall fields, k :: items[0] == Obj(fields) && 0 <= k < |fields| ==>
                         Notices(ops, plan, candidate, i, Arr(FirstWithout(items, fields, k))))
            case Obj(fields) =>
              forall rows :: ops[i].name == "workflow.store.query" && Field(fields, "rows") == Some(Arr(rows)) ==>
                && Notices(ops, plan, candidate, i,
                           Obj(With(With(fields, "rows", Arr([])), "truncated", Bool(false))))
                && Notices(ops, plan, candidate, i, Obj(With(fields, "truncated", Bool(true))))
                && forall row, k :: rows != [] && rows[0] == Obj(row) && 0 <= k < |row| ==>
                     Notices(ops, plan, candidate, i, Obj(With(fields, "rows", Arr(FirstWithout(rows, row, k)))))
  {
    AcceptedFaultReplay(ops, values, plan, candidate, i);
    FirstLacks();
  }

  function FirstWithout(rows: seq<Json>, fields: seq<(string, Json)>, k: nat): seq<Json>
    requires rows != [] && k < |fields|
  {
    [Obj(fields[..k] + fields[k + 1..])] + rows[1..]
  }

  lemma FirstLacks()
    ensures forall rows: seq<Json>, fields, k: nat :: rows != [] && rows[0] == Obj(fields) && k < |fields| ==>
              LacksField(rows, FirstWithout(rows, fields, k))
  {
    forall rows: seq<Json>, fields, k: nat | rows != [] && rows[0] == Obj(fields) && k < |fields|
      ensures LacksField(rows, FirstWithout(rows, fields, k))
    {
      assert FirstWithout(rows, fields, k)[1..] == rows[1..];
    }
  }

  lemma FaultStops(ops: seq<Operation>, plan: Plan, i: nat, actions: seq<Action>)
    requires DistinctIds(ops) && i < |ops|
    requires FaultAccepted(plan, Replay(ops, Some(ops[i].id), actions))
    ensures StopsAtFault(ops, plan, i, Replay(ops, Some(ops[i].id), actions))
  {
    ReplayInv(ops, Some(ops[i].id), actions);
    FailedIsNeverSeen(ops, ops[i].id, actions);
  }

  lemma {:induction false} FailedIsNeverSeen(ops: seq<Operation>, failed: string, actions: seq<Action>)
    ensures failed !in Replay(ops, Some(failed), actions).seen
  {
    if actions != [] {
      var before, last := actions[..|actions| - 1], actions[|actions| - 1];
      FailedIsNeverSeen(ops, failed, before);
      ActionLeavesUnseen(Replay(ops, Some(failed), before), ops, failed, last);
    }
  }

  lemma ActionLeavesUnseen(h: Host, ops: seq<Operation>, failed: string, a: Action)
    requires failed !in h.seen
    ensures failed !in OnAction(h, ops, Some(failed), a).seen
  {
    if a.Invoke? { FirstMatchFound(ops, 0, h.seen, a.call); }
  }

  /** An emission recorded without its keys is a violation whenever it is repeated, and leaving it
      out is refused as well. */
  lemma UnkeyedIsRejected(ops: seq<Operation>, values: seq<Json>, plan: Plan, candidate: Candidate, i: nat)
    requires |values| == |ops| && DistinctIds(ops) && i < |ops|
    requires ops[i].ok && ops[i].callbacks == 0 && MissingDedupeKey(ops[i])
    ensures !Accepts(ops, values, plan, candidate)
  {
    SeenUnkeyed(ops, None, candidate(Normal), i);
    assert ops[i].name[0] == 'w' && Retained(ops[i]);
  }

  lemma {:induction false} SeenUnkeyed(ops: seq<Operation>, failed: Option<string>, actions: seq<Action>, i: nat)
    requires DistinctIds(ops) && i < |ops| && ops[i].callbacks == 0 && MissingDedupeKey(ops[i])
    ensures var h := Replay(ops, failed, actions); ops[i].id in h.seen ==> h.violation
  {
    if actions != [] {
      var before, last := actions[..|actions| - 1], actions[|actions| - 1];
      SeenUnkeyed(ops, failed, before, i);
      ActionOnUnkeyed(Replay(ops, failed, before), ops, failed, last, i);
    }
  }

  lemma ActionOnUnkeyed(h: Host, ops: seq<Operation>, failed: Option<string>, a: Action, i: nat)
    requires DistinctIds(ops) && i < |ops| && ops[i].callbacks == 0 && MissingDedupeKey(ops[i])
    requires ops[i].id in h.seen ==> h.violation
    ensures var h' := OnAction(h, ops, failed, a); ops[i].id in h'.seen ==> h'.violation
  {
    if a.Invoke? { FirstMatchFound(ops, 0, h.seen, a.call); }
  }

  lemma ReplayThen(ops: seq<Operation>, failed: Option<string>, actions: seq<Action>, a: Action)
    ensures Replay(ops, failed, actions + [a]) == OnAction(Replay(ops, failed, actions), ops, failed, a)
  {
    assert (actions + [a])[..|actions|] == actions;
  }

  // ---- how a replay ends ----

  /** Only a completed call can end the run, and none that asks for callbacks does. */
  predicate EndsAtOnce(ops: seq<Operation>) {
    forall i :: 0 <= i < |ops| && ops[i].name in {"workflow.done", "workflow.fail"} ==> ops[i].callbacks == 0
  }

  function LastDeopt(actions: seq<Action>): Option<Call> {
    if actions == [] then None
    else
      var last := actions[|actions| - 1];
      if last.Invoke? && last.call.name == "workflow.deopt" then Some(last.call)
      else LastDeopt(actions[..|actions| - 1])
  }

  ghost predicate NoEndPending(h: Host, ops: seq<Operation>) {
    forall f :: f in h.frames && h.frames[f].op < |ops| ==>
      ops[h.frames[f].op].name !in {"workflow.done", "workflow.fail"}
  }

  /** Whether a replay ends in a hand-over, and which, is up to the program alone. */
  lemma {:induction false} DeoptIsTheLast(ops: seq<Operation>, failed: Option<string>, actions: seq<Action>)
    requires EndsAtOnce(ops)
    ensures var h := Replay(ops, failed, actions);
            && NoEndPending(h, ops)
            && (match LastDeopt(actions)
                case None => h.terminal != Deopt
                case Some(call) => h.terminal == Deopt && h.deoptId == call.plannedDeopt)
  {
    if actions != [] {
      var before, last := actions[..|actions| - 1], actions[|actions| - 1];
      DeoptIsTheLast(ops, failed, before);
      StepKeepsDeopt(Replay(ops, failed, before), ops, failed, last);
    }
  }

  lemma StepKeepsDeopt(h: Host, ops: seq<Operation>, failed: Option<string>, a: Action)
    requires EndsAtOnce(ops) && NoEndPending(h, ops)
    ensures var h' := OnAction(h, ops, failed, a);
            && NoEndPending(h', ops)
            && (if a.Invoke? && a.call.name == "workflow.deopt"
                then h'.terminal == Deopt && h'.deoptId == a.call.plannedDeopt
                else (h'.terminal == Deopt <==> h.terminal == Deopt) && h'.deoptId == h.deoptId)
  {
    match a
    case Invoke(frame, call) => InvokeKeepsDeopt(h, ops, failed, frame, call);
    case Reply(frame, matches) => ReplyKeepsDeopt(h, ops, frame, matches);
  }

  lemma ReplyKeepsDeopt(h: Host, ops: seq<Operation>, frame: nat, matches: bool)
    requires NoEndPending(h, ops)
    ensures var h' := OnReply(h, ops, frame, matches);
            NoEndPending(h', ops) && h'.terminal == h.terminal && h'.deoptId == h.deoptId
  {
  }

  lemma InvokeKeepsDeopt(h: Host, ops: seq<Operation>, failed: Option<string>, frame: nat, call: Call)
    requires EndsAtOnce(ops) && NoEndPending(h, ops)
    ensures var h' := OnInvoke(h, ops, failed, frame, call);
            && NoEndPending(h', ops)
            && (if call.name == "workflow.deopt" then h'.terminal == Deopt && h'.deoptId == call.plannedDeopt
                else (h'.terminal == Deopt <==> h.terminal == Deopt) && h'.deoptId == h.deoptId)
  {
    FirstMatchFound(ops, 0, h.seen, call);
    var found := FirstMatch(ops, 0, h.seen, call);
    if call.name != "workflow.deopt" && !Unrecorded(call.name) && h.terminal == Running && found.Some? {
      MatchedKeepsDeopt(h, ops, failed, found.value, frame);
    }
  }

  lemma MatchedKeepsDeopt(h: Host, ops: seq<Operation>, failed: Option<string>, i: nat, frame: nat)
    requires EndsAtOnce(ops) && NoEndPending(h, ops) && i < |ops| && h.terminal == Running
    ensures var h' := OnMatched(h, ops, failed, i, frame);
            NoEndPending(h', ops) && h'.terminal != Deopt && h'.deoptId == h.deoptId
  {
  }
}
