/** Which recordings some candidate can be accepted for
    (packages/agent/src/python-validation.ts), and a candidate that is. */
module CandidateAcceptance {
  import opened Wrappers
  import opened CandidateReplay
  import opened Counterfactuals
  import opened CandidateValidation
  import opened CandidatePrograms
  import opened CandidateOrder

  // ---- a program that compares what it is told with what was recorded ----

  /** Call `order[p]` is next, or the reply to its callback number `answered`; or a fault has been
      noticed; or all is done. */
  datatype Status = At(p: nat, answered: nat) | HandingOver | Over

  predicate InRange(ops: seq<Operation>, order: seq<nat>, status: Status)
    requires Within(ops, order)
  {
    status.At? ==>
      && status.p <= |order|
      && status.answered <= if status.p == |order| then 0 else ops[order[status.p]].callbacks
  }

  function Advanced(ops: seq<Operation>, values: seq<Json>, order: seq<nat>, status: Status, reply: Reply): (r: Status)
    requires |values| == |ops| && Within(ops, order) && InRange(ops, order, status)
    ensures InRange(ops, order, r)
  {
    match status
    case At(p, answered) =>
      if p == |order| then Over
      else if reply != Recorded(ops, values, order[p], answered) then HandingOver
      else if answered < ops[order[p]].callbacks then At(p, answered + 1)
      else At(p + 1, 0)
    case _ => Over
  }

  function Reached(ops: seq<Operation>, values: seq<Json>, order: seq<nat>, replies: seq<Reply>): (r: Status)
    requires |values| == |ops| && Within(ops, order)
    ensures InRange(ops, order, r)
  {
    if replies == [] then At(0, 0)
    else Advanced(ops, values, order, Reached(ops, values, order, replies[..|replies| - 1]), replies[|replies| - 1])
  }

  function CallOf(op: Operation): Call {
    Call(op.name, op.key, None, None)
  }

  function DeoptCall(reason: string, planned: Option<string>): Call {
    Call("workflow.deopt", "", Some(reason), planned)
  }

  function NextAction(ops: seq<Operation>, plan: Plan, order: seq<nat>, status: Status): Option<Action>
    requires Within(ops, order) && InRange(ops, order, status)
  {
    match status
    case At(p, answered) =>
      if p < |order| then
        Some(if answered == 0 then Invoke(order[p], CallOf(ops[order[p]])) else Action.Reply(order[p], true))
      else if plan.planned.None? then None
      else Some(Invoke(|ops|, DeoptCall(plan.planned.value.prompt, Some(plan.planned.value.id))))
    case HandingOver => Some(Invoke(|ops|, DeoptCall("fault", None)))
    case Over => None
  }

  /** Repeats the recording as long as it is told what was recorded, and hands over at the first
      difference. It does not know which trial it is in. */
  function Comparing(ops: seq<Operation>, values: seq<Json>, plan: Plan, order: seq<nat>): Program
    requires |values| == |ops| && Within(ops, order)
  {
    (replies: seq<Reply>) => NextAction(ops, plan, order, Reached(ops, values, order, replies))
  }

  /** As many exchanges as it can make. */
  function Length(ops: seq<Operation>, order: seq<nat>): nat
    requires Within(ops, order)
  {
    2 + Rest(ops, order, 0)
  }

  function Rest(ops: seq<Operation>, order: seq<nat>, p: nat): nat
    requires Within(ops, order) && p <= |order|
    decreases |order| - p
  {
    if p == |order| then 0 else 1 + ops[order[p]].callbacks + Rest(ops, order, p + 1)
  }

  function ToGo(ops: seq<Operation>, order: seq<nat>, status: Status): nat
    requires Within(ops, order) && InRange(ops, order, status)
  {
    match status
    case At(p, answered) => 2 + Rest(ops, order, p) - answered
    case HandingOver => 1
    case Over => 0
  }

  // ---- its replays ----

  /** The host, and where the program is. */
  datatype Stage = Stage(host: Host, status: Status)

  /** One exchange, if the program has anything more to do. */
  ghost predicate Follows(ops: seq<Operation>, values: seq<Json>, plan: Plan, order: seq<nat>, failed: Option<string>,
      fault: Option<Json>, now: Stage, next: Stage)
    requires |values| == |ops| && Within(ops, order)
  {
    && InRange(ops, order, now.status)
    && match NextAction(ops, plan, order, now.status)
       case None => next == now
       case Some(a) =>
         && next.host == OnAction(now.host, ops, failed, a)
         && next.status ==
            Advanced(ops, values, order, now.status, ReplyTo(now.host, ops, values, failed, fault, a))
  }

  ghost predicate Course(ops: seq<Operation>, values: seq<Json>, plan: Plan, order: seq<nat>, failed: Option<string>,
      fault: Option<Json>, stages: seq<Stage>)
    requires |values| == |ops| && Within(ops, order)
  {
    && stages != [] && stages[0] == Stage(FreshHost, At(0, 0)) && InRange(ops, order, stages[|stages| - 1].status)
    && forall k :: 0 < k < |stages| ==> Follows(ops, values, plan, order, failed, fault, stages[k - 1], stages[k])
  }

  ghost function StageOf(ops: seq<Operation>, values: seq<Json>, order: seq<nat>, failed: Option<string>, play: Play):
      (r: Stage)
    requires |values| == |ops| && Within(ops, order)
  {
    Stage(Replay(ops, failed, play.actions), Reached(ops, values, order, play.replies))
  }

  function Plays(ops: seq<Operation>, values: seq<Json>, plan: Plan, order: seq<nat>, failed: Option<string>,
      fault: Option<Json>, n: nat): Play
    requires |values| == |ops| && Within(ops, order)
  {
    Played(Comparing(ops, values, plan, order), ops, values, failed, fault, n)
  }

  /** The program played against the host is such a course. */
  lemma {:induction false} PlayIsCourse(ops: seq<Operation>, values: seq<Json>, plan: Plan, order: seq<nat>,
      failed: Option<string>, fault: Option<Json>, n: nat) returns (stages: seq<Stage>)
    requires |values| == |ops| && Within(ops, order)
    ensures Course(ops, values, plan, order, failed, fault, stages) && |stages| == n + 1
    ensures stages[n] == StageOf(ops, values, order, failed, Plays(ops, values, plan, order, failed, fault, n))
  {
    if n == 0 {
      stages := [Stage(FreshHost, At(0, 0))];
    } else {
      stages := PlayIsCourse(ops, values, plan, order, failed, fault, n - 1);
      var play := Plays(ops, values, plan, order, failed, fault, n - 1);
      var next := Next(Comparing(ops, values, plan, order), ops, values, failed, fault, play);
      NextFollows(ops, values, plan, order, failed, fault, play);
      stages := stages + [StageOf(ops, values, order, failed, next)];
    }
  }

  lemma NextFollows(ops: seq<Operation>, values: seq<Json>, plan: Plan, order: seq<nat>, failed: Option<string>,
      fault: Option<Json>, play: Play)
    requires |values| == |ops| && Within(ops, order)
    ensures var next := Next(Comparing(ops, values, plan, order), ops, values, failed, fault, play);
            Follows(ops, values, plan, order, failed, fault, StageOf(ops, values, order, failed, play),
              StageOf(ops, values, order, failed, next))
  {
    var action := NextAction(ops, plan, order, Reached(ops, values, order, play.replies));
    assert Comparing(ops, values, plan, order)(play.replies) == action;
    if action.Some? {
      ReplayThen(ops, failed, play.actions, action.value);
      var reply := ReplyTo(Replay(ops, failed, play.actions), ops, values, failed, fault, action.value);
      assert (play.replies + [reply])[..|play.replies|] == play.replies;
    }
  }

  ghost predicate EndsBy(ops: seq<Operation>, plan: Plan, order: seq<nat>, n: nat, status: Status)
    requires Within(ops, order)
  {
    && InRange(ops, order, status)
    && (NextAction(ops, plan, order, status).None? || ToGo(ops, order, status) + n <= Length(ops, order))
  }

  lemma {:induction false} CourseEnds(ops: seq<Operation>, values: seq<Json>, plan: Plan, order: seq<nat>,
      failed: Option<string>, fault: Option<Json>, stages: seq<Stage>, k: nat)
    requires |values| == |ops| && Within(ops, order) && Course(ops, values, plan, order, failed, fault, stages)
    requires k < |stages|
    ensures EndsBy(ops, plan, order, k, stages[k].status)
  {
    if k > 0 {
      CourseEnds(ops, values, plan, order, failed, fault, stages, k - 1);
      FollowsNearer(ops, values, plan, order, failed, fault, stages[k - 1], stages[k], k);
    }
  }

  lemma FollowsNearer(ops: seq<Operation>, values: seq<Json>, plan: Plan, order: seq<nat>, failed: Option<string>,
      fault: Option<Json>, now: Stage, next: Stage, n: nat)
    requires |values| == |ops| && Within(ops, order) && Follows(ops, values, plan, order, failed, fault, now, next)
    requires n > 0 && EndsBy(ops, plan, order, n - 1, now.status)
    ensures EndsBy(ops, plan, order, n, next.status)
  {
    var action := NextAction(ops, plan, order, now.status);
    if action.Some? {
      AdvancedIsNearer(ops, values, plan, order, now.status,
                       ReplyTo(now.host, ops, values, failed, fault, action.value));
    }
  }

  lemma AdvancedIsNearer(ops: seq<Operation>, values: seq<Json>, plan: Plan, order: seq<nat>, status: Status,
      reply: Reply)
    requires |values| == |ops| && Within(ops, order) && InRange(ops, order, status)
    requires NextAction(ops, plan, order, status).Some?
    ensures ToGo(ops, order, Advanced(ops, values, order, status, reply)) < ToGo(ops, order, status)
  {
  }

  ghost predicate SeenUpTo(h: Host, ops: seq<Operation>, order: seq<nat>, p: nat)
    requires Within(ops, order)
  {
    forall a :: 0 <= a < |order| ==> (ops[order[a]].id in h.seen <==> a < p)
  }

  /** All has gone as recorded up to here. */
  ghost predicate InPlace(h: Host, ops: seq<Operation>, plan: Plan, order: seq<nat>, p: nat, answered: nat)
    requires Within(ops, order) && InRange(ops, order, At(p, answered))
  {
    && !h.violation && !h.broken
    && SeenUpTo(h, ops, order, if answered == 0 then p else p + 1)
    && h.frames == (if answered == 0 then map[] else map[order[p] := Frame(order[p], answered - 1)])
    && h.terminal == if p == |order| && plan.planned.None? then Done else Running
  }

  /** Call `order[q]`, or the same call, meets the first of its records that is left. */
  lemma MeetsItsRecord(h: Host, ops: seq<Operation>, plan: Plan, order: seq<nat>, p: nat, q: nat)
    requires Ready(ops, plan, order) && p <= q < |order| && SeenUpTo(h, ops, order, p)
    requires SameCall(ops[order[p]], ops[order[q]])
    ensures LookedUp(ops[order[q]]) && FirstMatch(ops, 0, h.seen, CallOf(ops[order[q]])) == Some(order[p])
    ensures BrowserEffect(ops[order[p]]) ==> !SkipsEffect(ops, h.seen, order[p])
  {
    assert order[q] in order && order[p] in order;
    var call := CallOf(ops[order[q]]);
    FirstMatchFound(ops, 0, h.seen, call);
    assert Matches(ops[order[p]], h.seen, call);
    var k := FirstMatch(ops, 0, h.seen, call).value;
    assert k in order;
    forall j: nat | j < order[p] && BrowserEffect(ops[j]) && BrowserEffect(ops[order[p]]) ensures ops[j].id in h.seen {
      assert Tested(plan, ops[j]) && j in order;
    }
  }

  /** One exchange as recorded. */
  lemma InPlaceNext(h: Host, ops: seq<Operation>, values: seq<Json>, plan: Plan, order: seq<nat>,
      failed: Option<string>, fault: Option<Json>, p: nat, answered: nat)
    requires |values| == |ops| && Ready(ops, plan, order) && p < |order| && InRange(ops, order, At(p, answered))
    requires InPlace(h, ops, plan, order, p, answered) && (answered == 0 ==> failed != Some(ops[order[p]].id))
    ensures var a := NextAction(ops, plan, order, At(p, answered)).value;
            var next := Advanced(ops, values, order, At(p, answered), ReplyTo(h, ops, values, failed, fault, a));
            next.At? && InPlace(OnAction(h, ops, failed, a), ops, plan, order, next.p, next.answered)
  {
    if answered == 0 { InvokedInPlace(h, ops, values, plan, order, failed, fault, p); }
    else { RepliedInPlace(h, ops, values, plan, order, failed, fault, p, answered); }
  }

  lemma InvokedInPlace(h: Host, ops: seq<Operation>, values: seq<Json>, plan: Plan, order: seq<nat>,
      failed: Option<string>, fault: Option<Json>, p: nat)
    requires |values| == |ops| && Ready(ops, plan, order) && p < |order|
    requires InPlace(h, ops, plan, order, p, 0) && failed != Some(ops[order[p]].id)
    ensures var a := Invoke(order[p], CallOf(ops[order[p]]));
            var h' := OnAction(h, ops, failed, a);
            && ReplyTo(h, ops, values, failed, fault, a) == Recorded(ops, values, order[p], 0)
            && if ops[order[p]].callbacks > 0 then InPlace(h', ops, plan, order, p, 1)
               else InPlace(h', ops, plan, order, p + 1, 0)
  {
    MeetsItsRecord(h, ops, plan, order, p, p);
    assert order[p] in order;
    ConsumedSeen(h, ops, order, p);
  }

  lemma ConsumedSeen(h: Host, ops: seq<Operation>, order: seq<nat>, p: nat)
    requires DistinctIds(ops) && Sound(ops, order) && p < |order| && SeenUpTo(h, ops, order, p)
    ensures SeenUpTo(Consumed(h, ops, order[p]), ops, order, p + 1)
  {
  }

  lemma RepliedInPlace(h: Host, ops: seq<Operation>, values: seq<Json>, plan: Plan, order: seq<nat>,
      failed: Option<string>, fault: Option<Json>, p: nat, answered: nat)
    requires |values| == |ops| && Ready(ops, plan, order) && p < |order| && 0 < answered <= ops[order[p]].callbacks
    requires InPlace(h, ops, plan, order, p, answered)
    ensures var a := Action.Reply(order[p], true);
            var h' := OnAction(h, ops, failed, a);
            && ReplyTo(h, ops, values, failed, fault, a) == Recorded(ops, values, order[p], answered)
            && if answered < ops[order[p]].callbacks then InPlace(h', ops, plan, order, p, answered + 1)
               else InPlace(h', ops, plan, order, p + 1, 0)
  {
    assert order[p] in order;
    assert map[order[p] := Frame(order[p], answered - 1)] - {order[p]} == map[];
  }

  // ---- without a fault ----

  ghost predicate NormalStands(h: Host, ops: seq<Operation>, plan: Plan, order: seq<nat>, status: Status)
    requires Within(ops, order) && InRange(ops, order, status)
  {
    match status
    case At(p, answered) => InPlace(h, ops, plan, order, p, answered)
    case HandingOver => false
    case Over => plan.planned.Some? && NormalAccepted(ops, plan, h)
  }

  lemma InPlaceIsComplete(h: Host, ops: seq<Operation>, plan: Plan, order: seq<nat>)
    requires Ready(ops, plan, order) && InPlace(h, ops, plan, order, |order|, 0)
    ensures forall i :: 0 <= i < |ops| && Retained(ops[i]) ==> ops[i].id in h.seen
  {
    forall i: nat | i < |ops| && Retained(ops[i]) ensures ops[i].id in h.seen { assert i in order; }
  }

  lemma NormalNext(h: Host, ops: seq<Operation>, values: seq<Json>, plan: Plan, order: seq<nat>, status: Status)
    requires |values| == |ops| && Ready(ops, plan, order) && InRange(ops, order, status)
    requires NormalStands(h, ops, plan, order, status) && NextAction(ops, plan, order, status).Some?
    ensures var a := NextAction(ops, plan, order, status).value;
            NormalStands(OnAction(h, ops, None, a), ops, plan, order,
              Advanced(ops, values, order, status, ReplyTo(h, ops, values, None, None, a)))
  {
    if status.p < |order| { InPlaceNext(h, ops, values, plan, order, None, None, status.p, status.answered); }
    else { InPlaceIsComplete(h, ops, plan, order); }
  }

  lemma {:induction false} NormalCourse(ops: seq<Operation>, values: seq<Json>, plan: Plan, order: seq<nat>,
      stages: seq<Stage>, k: nat)
    requires |values| == |ops| && Ready(ops, plan, order) && Course(ops, values, plan, order, None, None, stages)
    requires k < |stages|
    ensures InRange(ops, order, stages[k].status)
    ensures NormalStands(stages[k].host, ops, plan, order, stages[k].status)
  {
    if k > 0 {
      NormalCourse(ops, values, plan, order, stages, k - 1);
      NormalFollows(ops, values, plan, order, stages[k - 1], stages[k]);
    }
  }

  lemma NormalFollows(ops: seq<Operation>, values: seq<Json>, plan: Plan, order: seq<nat>, now: Stage, next: Stage)
    requires |values| == |ops| && Ready(ops, plan, order)
    requires Follows(ops, values, plan, order, None, None, now, next)
    requires NormalStands(now.host, ops, plan, order, now.status)
    ensures InRange(ops, order, next.status) && NormalStands(next.host, ops, plan, order, next.status)
  {
    if NextAction(ops, plan, order, now.status).Some? {
      NormalNext(now.host, ops, values, plan, order, now.status);
    }
  }

  lemma NormalIsAccepted(ops: seq<Operation>, values: seq<Json>, plan: Plan, order: seq<nat>, n: nat)
    requires |values| == |ops| && Ready(ops, plan, order) && n >= Length(ops, order)
    ensures NormalAccepted(ops, plan, Replay(ops, None, Plays(ops, values, plan, order, None, None, n).actions))
  {
    var stages := PlayIsCourse(ops, values, plan, order, None, None, n);
    NormalCourse(ops, values, plan, order, stages, n);
    CourseEnds(ops, values, plan, order, None, None, stages, n);
    if stages[n].status.At? { InPlaceIsComplete(stages[n].host, ops, plan, order); }
  }

  // ---- with one ----

  /** The operation made to fail has been met, and nothing else since. */
  ghost predicate AtFault(h: Host, ops: seq<Operation>, order: seq<nat>, p: nat)
    requires Within(ops, order)
  {
    !h.violation && h.broken && h.terminal == Running && SeenUpTo(h, ops, order, p)
  }

  /** Reading the failed call again, if need be, shows a difference by call `order[b]`. */
  ghost predicate ShowsBy(ops: seq<Operation>, values: seq<Json>, order: seq<nat>, fault: Option<Json>, p: nat, b: nat)
    requires |values| == |ops| && Within(ops, order)
  {
    && p <= b < |order| && (forall q :: p <= q <= b ==> SameCall(ops[order[p]], ops[order[q]]))
    && FaultReply(fault) != Recorded(ops, values, order[b], 0)
  }

  ghost predicate FaultStands(h: Host, ops: seq<Operation>, plan: Plan, order: seq<nat>, p: nat, b: nat, status: Status)
    requires Within(ops, order) && InRange(ops, order, status)
  {
    match status
    case At(q, answered) =>
      if q < p || (q == p && answered == 0) then InPlace(h, ops, plan, order, q, answered)
      else q <= b && answered == 0 && AtFault(h, ops, order, p)
    case HandingOver => AtFault(h, ops, order, p)
    case Over => FaultAccepted(plan, h)
  }

  lemma FaultNext(h: Host, ops: seq<Operation>, values: seq<Json>, plan: Plan, order: seq<nat>, fault: Option<Json>,
      p: nat, b: nat, status: Status)
    requires |values| == |ops| && Ready(ops, plan, order) && InRange(ops, order, status)
    requires ShowsBy(ops, values, order, fault, p, b)
    requires FaultStands(h, ops, plan, order, p, b, status) && NextAction(ops, plan, order, status).Some?
    ensures var a, failed := NextAction(ops, plan, order, status).value, Some(ops[order[p]].id);
            FaultStands(OnAction(h, ops, failed, a), ops, plan, order, p, b,
              Advanced(ops, values, order, status, ReplyTo(h, ops, values, failed, fault, a)))
  {
    if status.At? && status.p < p {
      assert order[status.p] != order[p];
      InPlaceNext(h, ops, values, plan, order, Some(ops[order[p]].id), fault, status.p, status.answered);
    } else if status.At? {
      FaultMet(h, ops, values, plan, order, fault, p, status.p);
      FaultShown(ops, values, order, fault, p, b, status.p);
    } else {
      HandsOver(h, ops, plan, order, p);
    }
  }

  lemma FaultShown(ops: seq<Operation>, values: seq<Json>, order: seq<nat>, fault: Option<Json>, p: nat, b: nat, q: nat)
    requires |values| == |ops| && Within(ops, order) && ShowsBy(ops, values, order, fault, p, b) && p <= q <= b
    ensures var next := Advanced(ops, values, order, At(q, 0), FaultReply(fault));
            next == HandingOver || (next == At(q + 1, 0) && q < b)
  {
  }

  lemma HandsOver(h: Host, ops: seq<Operation>, plan: Plan, order: seq<nat>, p: nat)
    requires Within(ops, order) && p < |order| && AtFault(h, ops, order, p)
    ensures var a := NextAction(ops, plan, order, HandingOver).value;
            FaultAccepted(plan, OnAction(h, ops, Some(ops[order[p]].id), a))
  {
  }

  lemma FaultMet(h: Host, ops: seq<Operation>, values: seq<Json>, plan: Plan, order: seq<nat>, fault: Option<Json>,
      p: nat, q: nat)
    requires |values| == |ops| && Ready(ops, plan, order) && p <= q < |order|
    requires SameCall(ops[order[p]], ops[order[q]]) && !h.violation && h.terminal == Running
    requires SeenUpTo(h, ops, order, p)
    ensures var a, failed := Invoke(order[q], CallOf(ops[order[q]])), Some(ops[order[p]].id);
            && AtFault(OnAction(h, ops, failed, a), ops, order, p)
            && ReplyTo(h, ops, values, failed, fault, a) == FaultReply(fault)
  {
    MeetsItsRecord(h, ops, plan, order, p, q);
  }

  lemma {:induction false} FaultCourse(ops: seq<Operation>, values: seq<Json>, plan: Plan, order: seq<nat>,
      fault: Option<Json>, p: nat, b: nat, stages: seq<Stage>, k: nat)
    requires |values| == |ops| && Ready(ops, plan, order) && ShowsBy(ops, values, order, fault, p, b)
    requires Course(ops, values, plan, order, Some(ops[order[p]].id), fault, stages) && k < |stages|
    ensures InRange(ops, order, stages[k].status)
    ensures FaultStands(stages[k].host, ops, plan, order, p, b, stages[k].status)
  {
    if k > 0 {
      FaultCourse(ops, values, plan, order, fault, p, b, stages, k - 1);
      FaultFollows(ops, values, plan, order, fault, p, b, stages[k - 1], stages[k]);
    }
  }

  lemma FaultFollows(ops: seq<Operation>, values: seq<Json>, plan: Plan, order: seq<nat>, fault: Option<Json>, p: nat,
      b: nat, now: Stage, next: Stage)
    requires |values| == |ops| && Ready(ops, plan, order) && ShowsBy(ops, values, order, fault, p, b)
    requires Follows(ops, values, plan, order, Some(ops[order[p]].id), fault, now, next)
    requires FaultStands(now.host, ops, plan, order, p, b, now.status)
    ensures InRange(ops, order, next.status) && FaultStands(next.host, ops, plan, order, p, b, next.status)
  {
    if NextAction(ops, plan, order, now.status).Some? {
      FaultNext(now.host, ops, values, plan, order, fault, p, b, now.status);
    }
  }

  lemma FaultIsAccepted(ops: seq<Operation>, values: seq<Json>, plan: Plan, order: seq<nat>, fault: Option<Json>,
      p: nat, b: nat, n: nat)
    requires |values| == |ops| && Ready(ops, plan, order) && n >= Length(ops, order)
    requires ShowsBy(ops, values, order, fault, p, b)
    ensures var failed := Some(ops[order[p]].id);
            FaultAccepted(plan, Replay(ops, failed, Plays(ops, values, plan, order, failed, fault, n).actions))
  {
    var failed := Some(ops[order[p]].id);
    var stages := PlayIsCourse(ops, values, plan, order, failed, fault, n);
    FaultCourse(ops, values, plan, order, fault, p, b, stages, n);
    CourseEnds(ops, values, plan, order, failed, fault, stages, n);
  }

  // ---- when a candidate can be accepted ----

  /** A guard some trial of which repeats what was recorded, and that shows no more when it is
      read again. */
  ghost predicate Undetectable(ops: seq<Operation>, values: seq<Json>, plan: Plan, i: nat)
    requires |values| == |ops|
  {
    i < |ops| && ops[i].id in plan.guards && Indistinct(ops[i].name, values[i]) && Repeats(ops, values, i)
  }

  lemma FailureShows(ops: seq<Operation>, values: seq<Json>, plan: Plan, order: seq<nat>, i: nat) returns (p: nat)
    requires |values| == |ops| && Ready(ops, plan, order) && i < |ops| && Tested(plan, ops[i])
    ensures ShowsBy(ops, values, order, None, p, p) && order[p] == i
  {
    assert i in order;
    p :| 0 <= p < |order| && order[p] == i;
  }

  lemma ChangeShows(ops: seq<Operation>, values: seq<Json>, plan: Plan, order: seq<nat>, i: nat, value: Json)
      returns (p: nat, b: nat)
    requires |values| == |ops| && Ready(ops, plan, order) && i < |ops|
    requires ops[i].id in plan.guards && !Undetectable(ops, values, plan, i)
    requires Counterfactual(ops[i].name, values[i], value)
    ensures ShowsBy(ops, values, order, Some(value), p, b) && order[p] == i
  {
    assert Tested(plan, ops[i]) && i in order;
    p :| 0 <= p < |order| && order[p] == i;
    b := p;
    if FaultReply(Some(value)) == Recorded(ops, values, i, 0) {
      CounterfactualsDiffer(ops[i].name, values[i]);
      var j :| i < j < |ops| && Together(ops, i, j) && Recorded(ops, values, j, 0) != Recorded(ops, values, i, 0);
      b := InRow(ops, plan, order, p, j);
    }
  }

  lemma LaterRecordFollows(ops: seq<Operation>, order: seq<nat>, a: nat, b: nat)
    requires Sound(ops, order) && a < |order| && b < |order|
    requires SameCall(ops[order[a]], ops[order[b]]) && order[a] < order[b]
    ensures a < b
  {
  }

  /** What is read together with call `order[p]` follows it in a row. */
  lemma InRow(ops: seq<Operation>, plan: Plan, order: seq<nat>, p: nat, j: nat) returns (b: nat)
    requires Ready(ops, plan, order) && p < |order| && order[p] < j < |ops| && Together(ops, order[p], j)
    ensures p <= b < |order| && order[b] == j
    ensures forall q :: p <= q <= b ==> SameCall(ops[order[p]], ops[order[q]])
  {
    assert order[p] in order && j in order;
    b :| 0 <= b < |order| && order[b] == j;
    LaterRecordFollows(ops, order, p, b);
  }

  /** The comparing program passes the whole validation, if no guard of the plan is undetectable. */
  lemma ComparingIsAccepted(ops: seq<Operation>, values: seq<Json>, plan: Plan, order: seq<nat>, n: nat)
    requires |values| == |ops| && Ready(ops, plan, order) && n >= Length(ops, order)
    requires forall i :: 0 <= i < |ops| ==> !Undetectable(ops, values, plan, i)
    ensures Accepts(ops, values, plan, Executing(Comparing(ops, values, plan, order), ops, values, n))
  {
    NormalIsAccepted(ops, values, plan, order, n);
    forall i | 0 <= i < |ops| && Tested(plan, ops[i])
      ensures FaultsAccepted(ops, values, plan, Executing(Comparing(ops, values, plan, order), ops, values, n), i)
    {
      FaultsAreAccepted(ops, values, plan, order, i, n);
    }
  }

  lemma FaultsAreAccepted(ops: seq<Operation>, values: seq<Json>, plan: Plan, order: seq<nat>, i: nat, n: nat)
    requires |values| == |ops| && Ready(ops, plan, order) && n >= Length(ops, order)
    requires i < |ops| && Tested(plan, ops[i]) && !Undetectable(ops, values, plan, i)
    ensures FaultsAccepted(ops, values, plan, Executing(Comparing(ops, values, plan, order), ops, values, n), i)
  {
    var p := FailureShows(ops, values, plan, order, i);
    FaultIsAccepted(ops, values, plan, order, None, p, p, n);
    if ops[i].id in plan.guards {
      forall v | Counterfactual(ops[i].name, values[i], v)
        ensures VariantAccepted(ops, plan, Executing(Comparing(ops, values, plan, order), ops, values, n), i, v)
      {
        ChangeIsAccepted(ops, values, plan, order, i, v, n);
      }
    }
  }

  lemma ChangeIsAccepted(ops: seq<Operation>, values: seq<Json>, plan: Plan, order: seq<nat>, i: nat, value: Json,
      n: nat)
    requires |values| == |ops| && Ready(ops, plan, order) && n >= Length(ops, order) && i < |ops|
    requires ops[i].id in plan.guards && !Undetectable(ops, values, plan, i)
    requires Counterfactual(ops[i].name, values[i], value)
    ensures VariantAccepted(ops, plan, Executing(Comparing(ops, values, plan, order), ops, values, n), i, value)
  {
    var p, b := ChangeShows(ops, values, plan, order, i, value);
    FaultIsAccepted(ops, values, plan, order, Some(value), p, b, n);
  }

  /** Some program passes if and only if every guard can be told from each of its trials. */
  lemma SomeProgramIsAcceptedIff(ops: seq<Operation>, values: seq<Json>, plan: Plan)
    requires |values| == |ops| && Replayable(ops, plan)
    ensures (exists program: Program, n: nat :: Accepts(ops, values, plan, Executing(program, ops, values, n)))
            <==> forall i :: 0 <= i < |ops| ==> !Undetectable(ops, values, plan, i)
  {
    if i :| 0 <= i < |ops| && Undetectable(ops, values, plan, i) {
      forall program: Program, n: nat ensures !Accepts(ops, values, plan, Executing(program, ops, values, n)) {
        IndistinctGuardRejects(program, ops, values, plan, i, n);
      }
    } else {
      OrderIsReady(ops, plan);
      var order := Order(ops, |ops|);
      ComparingIsAccepted(ops, values, plan, order, Length(ops, order));
    }
  }

  // ---- two recordings that begin with an empty title ----

  const TitleRead := Operation("a", "playwright.call", "title", false, true, 0, [])
  const DoneCall := Operation("c", "workflow.done", "", true, true, 0, [])
  const TitlePlan := Plan({"a"}, None)

  const ReadOnce := [TitleRead, DoneCall]
  const ReadTwice := [TitleRead, TitleRead.(id := "b"), DoneCall]
  const TwoTitles := [Text(""), Text("Hello"), Null]

  /** Read once, nothing shows that the made-up empty title is made up: no program passes. */
  lemma BlankReadIsRejected(program: Program, n: nat)
    ensures Replayable(ReadOnce, TitlePlan)
    ensures !Accepts(ReadOnce, [Text(""), Null], TitlePlan, Executing(program, ReadOnce, [Text(""), Null], n))
  {
    assert LastCall(ReadOnce, 1) && EndsRun(ReadOnce[1]);
    IndistinctGuardRejects(program, ReadOnce, [Text(""), Null], TitlePlan, 0, n);
  }

  /** Read twice, the second time with a text: the operation made to fail stays unconsumed, so the
      second read meets it again and is told the empty title, which was not recorded then. */
  lemma RereadIsAccepted(n: nat)
    requires var order := Order(ReadTwice, |ReadTwice|); n >= Length(ReadTwice, order)
    ensures Replayable(ReadTwice, TitlePlan) && Indistinct(ReadTwice[0].name, TwoTitles[0])
    ensures var program := Comparing(ReadTwice, TwoTitles, TitlePlan, Order(ReadTwice, |ReadTwice|));
            Accepts(ReadTwice, TwoTitles, TitlePlan, Executing(program, ReadTwice, TwoTitles, n))
  {
    ReadTwiceIsReplayable();
    OrderIsReady(ReadTwice, TitlePlan);
    forall i | 0 <= i < |ReadTwice| ensures !Undetectable(ReadTwice, TwoTitles, TitlePlan, i) { SecondReadShows(i); }
    ComparingIsAccepted(ReadTwice, TwoTitles, TitlePlan, Order(ReadTwice, |ReadTwice|), n);
  }

  lemma ReadTwiceIsReplayable()
    ensures Replayable(ReadTwice, TitlePlan)
  {
    assert LastCall(ReadTwice, 2) && EndsRun(ReadTwice[2]);
  }

  lemma SecondReadShows(i: nat)
    requires i < |ReadTwice|
    ensures !Undetectable(ReadTwice, TwoTitles, TitlePlan, i)
  {
    assert Together(ReadTwice, 0, 1) && Recorded(ReadTwice, TwoTitles, 1, 0) != Recorded(ReadTwice, TwoTitles, 0, 0);
  }
}
