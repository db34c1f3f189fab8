/** Candidates as programs: what one does next is a function of what the replay host has told it
    so far (packages/agent/src/python-validation.ts). */
module CandidatePrograms {
  import opened Wrappers
  import opened CandidateReplay
  import opened Counterfactuals
  import opened CandidateValidation

  /** What the host tells a program. A call the host answers by itself tells it nothing that it
      did not put there; a refusal or the end of the run is told apart from a result. */
  datatype Reply =
    | Local
    | Ended
    | Refused
    | FailedCall
    | Result(ok: bool, value: Json)
    | Asked(op: nat, callback: nat)        // a recorded callback, before the call returns

  /** The next action after these replies, or none. */
  type Program = seq<Reply> -> Option<Action>

  /** What the operation chosen to fail returns: an error, or other contents. */
  function FaultReply(fault: Option<Json>): Reply {
    if fault.None? then FailedCall else Result(true, fault.value)
  }

  /** The answer to a call once its callbacks, if any, are done. */
  function Finished(ops: seq<Operation>, values: seq<Json>, i: nat): Reply
    requires |values| == |ops|
  {
    if i >= |ops| || MissingDedupeKey(ops[i]) then Refused else Result(ops[i].ok, values[i])
  }

  function MatchedReply(h: Host, ops: seq<Operation>, values: seq<Json>, failed: Option<string>, fault: Option<Json>,
      i: nat): Reply
    requires |values| == |ops| && i < |ops|
  {
    if failed == Some(ops[i].id) then FaultReply(fault)
    else if h.broken && ops[i].effect then Refused
    else if BrowserEffect(ops[i]) && SkipsEffect(ops, h.seen, i) then Refused
    else if ops[i].callbacks > 0 then Asked(i, 0)
    else Finished(ops, values, i)
  }

  function ReplyTo(h: Host, ops: seq<Operation>, values: seq<Json>, failed: Option<string>, fault: Option<Json>,
      a: Action): Reply
    requires |values| == |ops|
  {
    match a
    case Invoke(_, call) =>
      if call.name == "workflow.deopt" || Unrecorded(call.name) then Local
      else if h.terminal != Running then Ended
      else (match FirstMatch(ops, 0, h.seen, call)
        case None => Refused
        case Some(i) =>
          FirstMatchFound(ops, 0, h.seen, call);
          MatchedReply(h, ops, values, failed, fault, i))
    case Reply(frame, matches) =>
      if frame !in h.frames then Local
      else
        var f := h.frames[frame];
        if !matches then Refused
        else if f.op < |ops| && f.answered + 1 < ops[f.op].callbacks then Asked(f.op, f.answered + 1)
        else Finished(ops, values, f.op)
  }

  /** A program is refused exactly when what it does breaks a rule. */
  lemma RefusedIffViolation(h: Host, ops: seq<Operation>, values: seq<Json>, failed: Option<string>,
      fault: Option<Json>, a: Action)
    requires |values| == |ops| && !h.violation && forall f :: f in h.frames ==> h.frames[f].op < |ops|
    ensures ReplyTo(h, ops, values, failed, fault, a) == Refused <==> OnAction(h, ops, failed, a).violation
  {
    if a.Invoke? { FirstMatchFound(ops, 0, h.seen, a.call); }
  }

  datatype Play = Play(actions: seq<Action>, replies: seq<Reply>)

  /** One more exchange, if the program has anything more to do. */
  function Next(program: Program, ops: seq<Operation>, values: seq<Json>, failed: Option<string>, fault: Option<Json>,
      before: Play): Play
    requires |values| == |ops|
  {
    match program(before.replies)
    case None => before
    case Some(a) => Extended(before, a, ReplyTo(Replay(ops, failed, before.actions), ops, values, failed, fault, a))
  }

  function Extended(play: Play, a: Action, reply: Reply): Play {
    Play(play.actions + [a], play.replies + [reply])
  }

  /** The first `n` exchanges of a program with the host. */
  function Played(program: Program, ops: seq<Operation>, values: seq<Json>, failed: Option<string>, fault: Option<Json>,
      n: nat): Play
    requires |values| == |ops|
  {
    if n == 0 then Play([], [])
    else Next(program, ops, values, failed, fault, Played(program, ops, values, failed, fault, n - 1))
  }

  /** The candidate that runs this program in every trial, for at most `n` calls. */
  function Executing(program: Program, ops: seq<Operation>, values: seq<Json>, n: nat): Candidate
    requires |values| == |ops|
  {
    (trial: Trial) =>
      match trial
      case Normal => Played(program, ops, values, None, None, n).actions
      case Failing(i) => if i < |ops| then Played(program, ops, values, Some(ops[i].id), None, n).actions else []
      case Changed(i, v) => if i < |ops| then Played(program, ops, values, Some(ops[i].id), Some(v), n).actions else []
  }

  // ---- a changed observation that no program can notice ----

  predicate SameCall(a: Operation, b: Operation) {
    a.name == b.name && a.key == b.key
  }

  /** Whether a call is an effect depends on its name and arguments alone. */
  predicate Steady(ops: seq<Operation>) {
    forall i, j :: 0 <= i < |ops| && 0 <= j < |ops| && SameCall(ops[i], ops[j]) ==> ops[i].effect == ops[j].effect
  }

  /** What the recording has for a call after `answered` of its callbacks. */
  function Recorded(ops: seq<Operation>, values: seq<Json>, i: nat, answered: nat): Reply
    requires |values| == |ops| && i < |ops|
  {
    if answered < ops[i].callbacks then Asked(i, answered) else Result(ops[i].ok, values[i])
  }

  /** Two records of the same call that a program can read one right after the other: an effect
      cannot be taken before the other effects between the two. */
  predicate Together(ops: seq<Operation>, i: nat, j: nat)
    requires i < |ops| && j < |ops|
  {
    && i <= j && SameCall(ops[i], ops[j])
    && (BrowserEffect(ops[i]) ==> forall e :: i < e < j && BrowserEffect(ops[e]) ==> SameCall(ops[i], ops[e]))
  }

  predicate EndsRun(op: Operation) {
    op.name in {"workflow.done", "workflow.fail"}
  }

  /** A successful observation that has been recorded with the same contents each time from `i`
      on that a program could read it again. */
  ghost predicate Repeats(ops: seq<Operation>, values: seq<Json>, i: nat)
    requires |values| == |ops| && i < |ops|
  {
    && ops[i].ok && ops[i].callbacks == 0 && !EndsRun(ops[i])
    && forall j :: i < j < |ops| && Together(ops, i, j) ==> Recorded(ops, values, j, 0) == Recorded(ops, values, i, 0)
  }

  /** A later record of the same call, or this one. */
  predicate Later(ops: seq<Operation>, i: nat, k: nat)
    requires i < |ops| && k < |ops|
  {
    i <= k && SameCall(ops[i], ops[k])
  }

  ghost predicate Guarding(ops: seq<Operation>, values: seq<Json>, i: nat) {
    |values| == |ops| && i < |ops| && DistinctIds(ops) && Steady(ops) && Repeats(ops, values, i)
  }

  /** The normal replay and the one in which operation `i` is made to return what it returned
      anyway, as long as neither has found a violation. */
  ghost predicate InStep(h: Host, c: Host, ops: seq<Operation>, i: nat)
    requires i < |ops|
  {
    && !h.violation && !c.violation && !h.broken
    && c.terminal == h.terminal && c.deoptId == h.deoptId && c.frames == h.frames
    && SeenInStep(h, c, ops, i)
  }

  ghost predicate SeenInStep(h: Host, c: Host, ops: seq<Operation>, i: nat)
    requires i < |ops|
  {
    && (!c.broken ==> c.seen == h.seen)
    && (forall k :: 0 <= k < |ops| ==>
          if Later(ops, i, k) then ops[k].id !in c.seen else ops[k].id in c.seen <==> ops[k].id in h.seen)
    && (BrowserEffect(ops[i]) ==> forall e :: i < e < |ops| && BrowserEffect(ops[e]) && !SameCall(ops[i], ops[e]) ==>
          ops[e].id !in h.seen)
  }

  /** The guard's call again: consumed in one replay, found changed to the same in the other. */
  lemma LaterInStep(h: Host, c: Host, ops: seq<Operation>, values: seq<Json>, i: nat, k: nat, frame: nat)
    requires Guarding(ops, values, i) && InStep(h, c, ops, i)
    requires k < |ops| && Later(ops, i, k) && ops[k].id !in h.seen
    ensures var h' := OnMatched(h, ops, None, k, frame);
            h'.violation
            || (InStep(h', Faulted(c), ops, i)
                && MatchedReply(h, ops, values, None, None, k) == FaultReply(Some(values[i])))
  {
    if BrowserEffect(ops[k]) && SkipsEffect(ops, h.seen, k) {
      assert OnMatched(h, ops, None, k, frame).violation;
    } else {
      assert Together(ops, i, k);
      assert Recorded(ops, values, k, 0) == Recorded(ops, values, i, 0);
    }
  }

  /** Any other recorded call meets the same operation in both, and is refused in both or leads
      to a violation in one. */
  lemma OtherInStep(h: Host, c: Host, ops: seq<Operation>, values: seq<Json>, i: nat, k: nat, frame: nat,
      fault: Option<Json>)
    requires |values| == |ops| && i < |ops| && DistinctIds(ops) && InStep(h, c, ops, i)
    requires k < |ops| && !Later(ops, i, k) && ops[k].id !in h.seen
    ensures var h', c' := OnMatched(h, ops, None, k, frame), OnMatched(c, ops, Some(ops[i].id), k, frame);
            h'.violation || c'.violation
            || (InStep(h', c', ops, i) && MatchedReply(h, ops, values, None, None, k) ==
                  MatchedReply(c, ops, values, Some(ops[i].id), fault, k))
  {
    assert ops[k].id != ops[i].id && ops[i].id !in c.seen;
    if !(c.broken && ops[k].effect) && !(BrowserEffect(ops[k]) && SkipsEffect(ops, h.seen, k)) {
      assert BrowserEffect(ops[k]) ==> h.seen == c.seen;
      ConsumedInStep(h, c, ops, i, k);
    }
  }

  lemma ConsumedInStep(h: Host, c: Host, ops: seq<Operation>, i: nat, k: nat)
    requires i < |ops| && DistinctIds(ops) && SeenInStep(h, c, ops, i)
    requires k < |ops| && !Later(ops, i, k) && ops[k].id !in h.seen
    requires BrowserEffect(ops[k]) ==> h.seen == c.seen && !SkipsEffect(ops, h.seen, k)
    ensures SeenInStep(Consumed(h, ops, k), Consumed(c, ops, k), ops, i)
  {
    assert ops[i].id !in c.seen;
  }

  /** Which recorded operation a call stands for in each of the two. */
  lemma MatchInStep(h: Host, c: Host, ops: seq<Operation>, i: nat, call: Call)
    requires i < |ops| && InStep(h, c, ops, i)
    ensures match FirstMatch(ops, 0, c.seen, call)
            case None => FirstMatch(ops, 0, h.seen, call) == None
            case Some(k) =>
              && k < |ops|
              && if Later(ops, i, k) then k == i && (match FirstMatch(ops, 0, h.seen, call)
                   case None => true
                   case Some(l) => l < |ops| && Later(ops, i, l) && ops[l].id !in h.seen)
                 else FirstMatch(ops, 0, h.seen, call) == Some(k) && ops[k].id !in h.seen
  {
    FirstMatchFound(ops, 0, h.seen, call);
    FirstMatchFound(ops, 0, c.seen, call);
    var p, q := FirstMatch(ops, 0, h.seen, call), FirstMatch(ops, 0, c.seen, call);
    if q.Some? && Later(ops, i, q.value) { assert Matches(ops[i], c.seen, call); }
    if p.Some? && !Later(ops, i, p.value) { assert Matches(ops[p.value], c.seen, call); }
    if p.Some? && Later(ops, i, p.value) { assert Matches(ops[i], c.seen, call); }
    if q.Some? && !Later(ops, i, q.value) { assert Matches(ops[q.value], h.seen, call); }
  }

  lemma InvokeInStep(h: Host, c: Host, ops: seq<Operation>, values: seq<Json>, i: nat, frame: nat, call: Call)
    requires Guarding(ops, values, i) && InStep(h, c, ops, i)
    ensures var h', c' := OnInvoke(h, ops, None, frame, call), OnInvoke(c, ops, Some(ops[i].id), frame, call);
            h'.violation || c'.violation
            || (InStep(h', c', ops, i) && ReplyTo(h, ops, values, None, None, Invoke(frame, call)) ==
                  ReplyTo(c, ops, values, Some(ops[i].id), Some(values[i]), Invoke(frame, call)))
  {
    if call.name == "workflow.deopt" || Unrecorded(call.name) || h.terminal != Running {
    } else {
      MatchInStep(h, c, ops, i, call);
      FirstMatchFound(ops, 0, h.seen, call);
      FirstMatchFound(ops, 0, c.seen, call);
      var p, q := FirstMatch(ops, 0, h.seen, call), FirstMatch(ops, 0, c.seen, call);
      if p.Some? && Later(ops, i, p.value) { LaterInStep(h, c, ops, values, i, p.value, frame); }
      else if q.Some? && p.Some? { OtherInStep(h, c, ops, values, i, q.value, frame, Some(values[i])); }
    }
  }

  lemma ReplyInStep(h: Host, c: Host, ops: seq<Operation>, values: seq<Json>, i: nat, frame: nat, matches: bool)
    requires |values| == |ops| && i < |ops| && InStep(h, c, ops, i)
    ensures var h', c' := OnReply(h, ops, frame, matches), OnReply(c, ops, frame, matches);
            var a := Action.Reply(frame, matches);
            h'.violation || c'.violation
            || (InStep(h', c', ops, i) && ReplyTo(h, ops, values, None, None, a) ==
                  ReplyTo(c, ops, values, Some(ops[i].id), Some(values[i]), a))
  {
  }

  lemma ViolationStays(h: Host, ops: seq<Operation>, failed: Option<string>, a: Action)
    requires h.violation
    ensures OnAction(h, ops, failed, a).violation
  {
    if a.Invoke? { FirstMatchFound(ops, 0, h.seen, a.call); }
  }

  lemma ActionInStep(h: Host, c: Host, ops: seq<Operation>, values: seq<Json>, i: nat, a: Action)
    requires Guarding(ops, values, i) && InStep(h, c, ops, i)
    ensures var h', c' := OnAction(h, ops, None, a), OnAction(c, ops, Some(ops[i].id), a);
            h'.violation || c'.violation
            || (InStep(h', c', ops, i) && ReplyTo(h, ops, values, None, None, a) ==
                  ReplyTo(c, ops, values, Some(ops[i].id), Some(values[i]), a))
  {
    match a
    case Invoke(frame, call) => InvokeInStep(h, c, ops, values, i, frame, call);
    case Reply(frame, matches) => ReplyInStep(h, c, ops, values, i, frame, matches);
  }

  ghost predicate PlaysInStep(p: Play, q: Play, ops: seq<Operation>, i: nat)
    requires i < |ops|
  {
    var h, c := Replay(ops, None, p.actions), Replay(ops, Some(ops[i].id), q.actions);
    h.violation || c.violation || (p == q && InStep(h, c, ops, i))
  }

  lemma NextKeepsViolation(program: Program, ops: seq<Operation>, values: seq<Json>, failed: Option<string>,
      fault: Option<Json>, p: Play)
    requires |values| == |ops| && Replay(ops, failed, p.actions).violation
    ensures Replay(ops, failed, Next(program, ops, values, failed, fault, p).actions).violation
  {
    match program(p.replies)
    case None =>
    case Some(a) =>
      ReplayThen(ops, failed, p.actions, a);
      ViolationStays(Replay(ops, failed, p.actions), ops, failed, a);
  }

  /** Told the same, a program does the same. */
  lemma NextInStep(program: Program, ops: seq<Operation>, values: seq<Json>, i: nat, p: Play, q: Play)
    requires Guarding(ops, values, i)
    requires PlaysInStep(p, q, ops, i)
    ensures PlaysInStep(Next(program, ops, values, None, None, p),
                        Next(program, ops, values, Some(ops[i].id), Some(values[i]), q), ops, i)
  {
    var h, c := Replay(ops, None, p.actions), Replay(ops, Some(ops[i].id), q.actions);
    if h.violation { NextKeepsViolation(program, ops, values, None, None, p); }
    else if c.violation { NextKeepsViolation(program, ops, values, Some(ops[i].id), Some(values[i]), q); }
    else if program(p.replies).Some? {
      var a := program(p.replies).value;
      ReplayThen(ops, None, p.actions, a);
      ReplayThen(ops, Some(ops[i].id), p.actions, a);
      ActionInStep(h, c, ops, values, i, a);
    }
  }

  /** So the two replays go on in step. */
  lemma {:induction false} ReplaysInStep(program: Program, ops: seq<Operation>, values: seq<Json>, i: nat, n: nat)
    requires Guarding(ops, values, i)
    ensures PlaysInStep(Played(program, ops, values, None, None, n),
                        Played(program, ops, values, Some(ops[i].id), Some(values[i]), n), ops, i)
  {
    if n > 0 {
      ReplaysInStep(program, ops, values, i, n - 1);
      NextInStep(program, ops, values, i, Played(program, ops, values, None, None, n - 1),
                 Played(program, ops, values, Some(ops[i].id), Some(values[i]), n - 1));
    }
  }

  /** A guard whose recorded contents equal one of its counterfactuals, and which is recorded with
      these contents as often as it can be read, makes the validator reject every program. */
  lemma IndistinctGuardRejects(program: Program, ops: seq<Operation>, values: seq<Json>, plan: Plan, i: nat, n: nat)
    requires Guarding(ops, values, i) && ops[i].id in plan.guards && Indistinct(ops[i].name, values[i])
    ensures !Accepts(ops, values, plan, Executing(program, ops, values, n))
  {
    var candidate := Executing(program, ops, values, n);
    CounterfactualsDiffer(ops[i].name, values[i]);
    ReplaysInStep(program, ops, values, i, n);
    var normal := Replay(ops, None, candidate(Normal));
    var changed := Replay(ops, Some(ops[i].id), candidate(Changed(i, values[i])));
    assert NormalAccepted(ops, plan, normal) ==> !FaultAccepted(plan, changed);
    assert FaultsAccepted(ops, values, plan, candidate, i) ==> FaultAccepted(plan, changed);
  }
}
