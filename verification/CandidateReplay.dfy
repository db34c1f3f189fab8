/** The replay host that judges a compiled candidate
    (packages/agent/src/python-validation.ts).

    The candidate is an arbitrary program, so it appears only as the sequence of things it
    does to the host: calls, and replies to the callbacks the host asks it for. Between two
    of these the host runs without an await. Arguments are compared by canonical text, so an
    operation carries the text its arguments replay to. */
module CandidateReplay {
  import opened Wrappers

  /** `dedupeKeys` are those among the arguments. */
  datatype Operation = Operation(id: string, name: string, key: string, effect: bool, ok: bool, callbacks: nat,
    dedupeKeys: seq<Option<string>>)

  datatype Call = Call(name: string, key: string, reason: Option<string>, plannedDeopt: Option<string>)

  datatype Action =
    | Invoke(frame: nat, call: Call)
    | Reply(frame: nat, matches: bool)   // the candidate answers a recorded callback

  datatype Terminal = Running | Done | Failed | Deopt

  /** A call suspended in its recorded callbacks, `answered` of which have been replied to. */
  datatype Frame = Frame(op: nat, answered: nat)

  datatype Host = Host(
    seen: set<string>, terminal: Terminal, violation: bool, broken: bool, effects: nat,
    deoptId: Option<string>, deoptReason: Option<string>, frames: map<nat, Frame>,
    // The operations consumed so far, in order, and how many of them preceded the fault.
    log: seq<nat>, beforeFault: nat)

  const FreshHost := Host({}, Running, false, false, 0, None, None, map[], [], 0)

  predicate Internal(name: string) {
    "internal." <= name
  }

  predicate BrowserEffect(op: Operation) {
    op.effect && !Internal(op.name) && op.name !in {"workflow.done", "workflow.fail", "workflow.memory.set"}
  }

  /** Calls the host answers without consulting the recording. */
  predicate Unrecorded(name: string) {
    || name in {"playwright.open", "playwright.close", "workflow.yield_control", "internal.helpers.use"}
    || "internal.workspace." <= name
  }

  predicate Matches(op: Operation, seen: set<string>, call: Call) {
    op.id !in seen && op.name == call.name && op.key == call.key
  }

  /** The first recorded operation from `i` on that the call can stand for. */
  function FirstMatch(ops: seq<Operation>, i: nat, seen: set<string>, call: Call): (r: Option<nat>)
    requires i <= |ops|
    decreases |ops| - i
  {
    if i == |ops| then None
    else if Matches(ops[i], seen, call) then Some(i)
    else FirstMatch(ops, i + 1, seen, call)
  }

  /** Some browser effect recorded before `i` has not been consumed. */
  predicate SkipsEffect(ops: seq<Operation>, seen: set<string>, i: nat)
    requires i < |ops|
  {
    exists j :: 0 <= j < i && BrowserEffect(ops[j]) && ops[j].id !in seen
  }

  predicate MissingDedupeKey(op: Operation) {
    && op.name in {"workflow.emit", "workflow.emit.batch"}
    && exists k :: 0 <= k < |op.dedupeKeys| && op.dedupeKeys[k] in {None, Some("")}
  }

  // ---- the host, step by step ----

  /** The end of a consumed call, after its callbacks. */
  function Complete(h: Host, op: Operation): Host {
    if MissingDedupeKey(op) then h.(violation := true)
    else if op.name == "workflow.done" then h.(terminal := Done)
    else if op.name == "workflow.fail" then h.(terminal := Failed)
    else h
  }

  function Consumed(h: Host, ops: seq<Operation>, i: nat): Host
    requires i < |ops|
  {
    h.(seen := h.seen + {ops[i].id}, log := h.log + [i],
       effects := if BrowserEffect(ops[i]) then h.effects + 1 else h.effects)
  }

  function Consume(h: Host, ops: seq<Operation>, i: nat, frame: nat): Host
    requires i < |ops|
  {
    var consumed := Consumed(h, ops, i);
    if ops[i].callbacks == 0 then Complete(consumed, ops[i])
    else consumed.(frames := h.frames[frame := Frame(i, 0)])
  }

  function OnInvoke(h: Host, ops: seq<Operation>, failed: Option<string>, frame: nat, call: Call): Host {
    if call.name == "workflow.deopt" then
      h.(terminal := Deopt, deoptReason := call.reason, deoptId := call.plannedDeopt)
    else if Unrecorded(call.name) || h.terminal != Running then h
    else match FirstMatch(ops, 0, h.seen, call)
      case None => h.(violation := true)
      case Some(i) =>
        FirstMatchFound(ops, 0, h.seen, call);
        OnMatched(h, ops, failed, i, frame)
  }

  /** The operation chosen to fail is reached; it is not consumed. */
  function Faulted(h: Host): Host {
    h.(broken := true, beforeFault := if h.broken then h.beforeFault else |h.log|)
  }

  /** The call stands for recorded operation `i`. */
  function OnMatched(h: Host, ops: seq<Operation>, failed: Option<string>, i: nat, frame: nat): Host
    requires i < |ops|
  {
    if failed == Some(ops[i].id) then Faulted(h)
    else if h.broken && ops[i].effect then h.(violation := true)
    else if BrowserEffect(ops[i]) && SkipsEffect(ops, h.seen, i) then h.(violation := true)
    else Consume(h, ops, i, frame)
  }

  function OnReply(h: Host, ops: seq<Operation>, frame: nat, matches: bool): Host {
    if frame !in h.frames then h
    else
      var f := h.frames[frame];
      var without := h.(frames := h.frames - {frame});
      if !matches then without.(violation := true)
      else if f.op >= |ops| then without
      else if f.answered + 1 < ops[f.op].callbacks then
        h.(frames := h.frames[frame := f.(answered := f.answered + 1)])
      else Complete(without, ops[f.op])
  }

  function OnAction(h: Host, ops: seq<Operation>, failed: Option<string>, a: Action): Host {
    match a
    case Invoke(frame, call) => OnInvoke(h, ops, failed, frame, call)
    case Reply(frame, matches) => OnReply(h, ops, frame, matches)
  }

  /** The host after a whole replay. */
  function Replay(ops: seq<Operation>, failed: Option<string>, actions: seq<Action>): Host {
    if actions == [] then FreshHost
    else OnAction(Replay(ops, failed, actions[..|actions| - 1]), ops, failed, actions[|actions| - 1])
  }

  lemma {:induction false} FirstMatchFound(ops: seq<Operation>, i: nat, seen: set<string>, call: Call)
    requires i <= |ops|
    ensures match FirstMatch(ops, i, seen, call)
      case None => forall j :: i <= j < |ops| ==> !Matches(ops[j], seen, call)
      case Some(k) => i <= k < |ops| && Matches(ops[k], seen, call)
                      && forall j :: i <= j < k ==> !Matches(ops[j], seen, call)
    decreases |ops| - i
  {
    if i < |ops| && !Matches(ops[i], seen, call) {
      FirstMatchFound(ops, i + 1, seen, call);
    }
  }

  // ---- what the host does with a call, case by case ----

  /** The candidate may hand over at any time, even after it has ended; the last word counts. */
  lemma HandOverIs(h: Host, ops: seq<Operation>, failed: Option<string>, frame: nat, call: Call)
    requires call.name == "workflow.deopt"
    ensures OnInvoke(h, ops, failed, frame, call) ==
              h.(terminal := Deopt, deoptReason := call.reason, deoptId := call.plannedDeopt)
  {
  }

  /** Nothing else has an effect once the run has ended, nor do the host's own calls ever. */
  lemma EndedOrOwnCallIsIdle(h: Host, ops: seq<Operation>, failed: Option<string>, frame: nat, call: Call)
    requires call.name != "workflow.deopt"
    requires || h.terminal != Running || "internal.workspace." <= call.name
             || call.name in {"playwright.open", "playwright.close", "workflow.yield_control", "internal.helpers.use"}
    ensures OnInvoke(h, ops, failed, frame, call) == h
  {
  }

  /** Any other call must stand for a recorded operation not consumed yet: the first with its
      name and arguments. */
  lemma RecordedCallIs(h: Host, ops: seq<Operation>, failed: Option<string>, frame: nat, call: Call, i: nat)
    requires h.terminal == Running && call.name != "workflow.deopt" && !Unrecorded(call.name)
    requires i < |ops| && ops[i].id !in h.seen && ops[i].name == call.name && ops[i].key == call.key
    requires forall j :: 0 <= j < i ==> ops[j].id in h.seen || ops[j].name != call.name || ops[j].key != call.key
    ensures var h' := OnInvoke(h, ops, failed, frame, call);
            var browser := ops[i].effect && !("internal." <= ops[i].name)
                           && ops[i].name !in {"workflow.done", "workflow.fail", "workflow.memory.set"};
            if failed == Some(ops[i].id) then h' == Faulted(h)
            else if (h.broken && ops[i].effect)
                    || (browser && exists j :: 0 <= j < i && BrowserEffect(ops[j]) && ops[j].id !in h.seen)
            then h' == h.(violation := true)
            else
              && h'.seen == h.seen + {ops[i].id} && h'.log == h.log + [i]
              && h'.effects == (if browser then h.effects + 1 else h.effects)
              && h'.broken == h.broken && h'.beforeFault == h.beforeFault
              && h'.deoptId == h.deoptId && h'.deoptReason == h.deoptReason
              && (ops[i].callbacks > 0 ==>
                    && h'.frames == h.frames[frame := Frame(i, 0)]
                    && h'.terminal == Running && h'.violation == h.violation)
              && (ops[i].callbacks == 0 ==> h'.frames == h.frames && Completes(h, h', ops[i]))
  {
    FirstMatchFound(ops, 0, h.seen, call);
    assert Matches(ops[i], h.seen, call);
  }

  /** The end of a call: emissions need their keys, `done` and `fail` end the run. */
  ghost predicate Completes(h: Host, h': Host, op: Operation) {
    var unkeyed := op.name in {"workflow.emit", "workflow.emit.batch"}
                   && exists k :: 0 <= k < |op.dedupeKeys| && op.dedupeKeys[k] in {None, Some("")};
    && h'.violation == (h.violation || unkeyed)
    && h'.terminal == (if op.name == "workflow.done" then Done else if op.name == "workflow.fail" then Failed
                       else h.terminal)
  }

  lemma UnrecordedCallIs(h: Host, ops: seq<Operation>, failed: Option<string>, frame: nat, call: Call)
    requires h.terminal == Running && call.name != "workflow.deopt" && !Unrecorded(call.name)
    requires forall j :: 0 <= j < |ops| ==> ops[j].id in h.seen || ops[j].name != call.name || ops[j].key != call.key
    ensures OnInvoke(h, ops, failed, frame, call) == h.(violation := true)
  {
    FirstMatchFound(ops, 0, h.seen, call);
  }

  /** A reply to a recorded callback: a different one is a violation, and the last that matches
      completes the call. */
  lemma ReplyIs(h: Host, ops: seq<Operation>, frame: nat, matches: bool)
    requires frame in h.frames && h.frames[frame].op < |ops|
    ensures var h', f := OnReply(h, ops, frame, matches), h.frames[frame];
            && SameConsumption(h, h') && h'.deoptId == h.deoptId && h'.deoptReason == h.deoptReason
            && if !matches then h'.violation && h'.frames == h.frames - {frame} && h'.terminal == h.terminal
               else if f.answered + 1 < ops[f.op].callbacks
               then h' == h.(frames := h.frames[frame := Frame(f.op, f.answered + 1)])
               else h'.frames == h.frames - {frame} && Completes(h, h', ops[f.op])
  {
  }

  /** The closure state of `replay` and its host callback. */
  class ReplayHost {
    const ops: seq<Operation>
    const failed: Option<string>
    var host: Host

    constructor (ops: seq<Operation>, failed: Option<string>)
      ensures this.ops == ops && this.failed == failed && host == FreshHost
    {
      this.ops, this.failed, host := ops, failed, FreshHost;
    }

    method Find(call: Call) returns (r: Option<nat>)
      ensures r == FirstMatch(ops, 0, host.seen, call)
    {
      var i := 0;
      while i < |ops|
        invariant i <= |ops|
        invariant FirstMatch(ops, 0, host.seen, call) == FirstMatch(ops, i, host.seen, call)
      {
        if Matches(ops[i], host.seen, call) { return Some(i); }
        i := i + 1;
      }
      return None;
    }

    /** One host callback up to its first await. */
    method OnCall(frame: nat, call: Call)
      modifies this
      ensures host == OnAction(old(host), ops, failed, Invoke(frame, call))
    {
      if call.name == "workflow.deopt" {
        host := host.(terminal := Deopt);
        host := host.(deoptReason := call.reason, deoptId := call.plannedDeopt);
        return;
      }
      if Unrecorded(call.name) || host.terminal != Running { return; }
      var found := Find(call);
      FirstMatchFound(ops, 0, host.seen, call);
      if found.None? { host := host.(violation := true); return; }
      var i := found.value;
      if failed == Some(ops[i].id) {
        if !host.broken { host := host.(beforeFault := |host.log|); }
        host := host.(broken := true);
        return;
      }
      if host.broken && ops[i].effect { host := host.(violation := true); return; }
      if BrowserEffect(ops[i]) && SkipsEffect(ops, host.seen, i) { host := host.(violation := true); return; }
      host := host.(seen := host.seen + {ops[i].id}, log := host.log + [i]);
      if BrowserEffect(ops[i]) { host := host.(effects := host.effects + 1); }
      if ops[i].callbacks > 0 {
        host := host.(frames := host.frames[frame := Frame(i, 0)]);
      } else {
        host := Complete(host, ops[i]);
      }
    }
  }

  // ---- what a replay without a violation shows ----

  predicate DistinctIds(ops: seq<Operation>) {
    forall i, j :: 0 <= i < j < |ops| ==> ops[i].id != ops[j].id
  }

  /** The recorded browser effects before index `k`, in recorded order. */
  function EffectsBefore(ops: seq<Operation>, k: nat): seq<nat>
    requires k <= |ops|
  {
    if k == 0 then []
    else if BrowserEffect(ops[k - 1]) then EffectsBefore(ops, k - 1) + [k - 1]
    else EffectsBefore(ops, k - 1)
  }

  /** The browser effects among consumed operations, in the order they were consumed. */
  function EffectsOf(ops: seq<Operation>, log: seq<nat>): seq<nat>
    requires forall k :: 0 <= k < |log| ==> log[k] < |ops|
  {
    if log == [] then []
    else
      var last := log[|log| - 1];
      var before := EffectsOf(ops, log[..|log| - 1]);
      if BrowserEffect(ops[last]) then before + [last] else before
  }

  lemma {:induction false} EffectsBeforeSorted(ops: seq<Operation>, k: nat)
    requires k <= |ops|
    ensures var r := EffectsBefore(ops, k);
            && (forall i :: 0 <= i < |r| ==> r[i] < k && BrowserEffect(ops[r[i]]))
            && (forall i, j :: 0 <= i < j < |r| ==> r[i] < r[j])
            && (forall i :: 0 <= i < k && BrowserEffect(ops[i]) ==> i in r)
  {
    if k > 0 { EffectsBeforeSorted(ops, k - 1); }
  }

  lemma {:induction false} EffectsOfMembers(ops: seq<Operation>, log: seq<nat>)
    requires forall k :: 0 <= k < |log| ==> log[k] < |ops|
    ensures forall i :: i in EffectsOf(ops, log) <==> i in log && BrowserEffect(ops[i])
  {
    if log != [] {
      var before := log[..|log| - 1];
      EffectsOfMembers(ops, before);
      assert log == before + [log[|log| - 1]];
    }
  }

  ghost predicate LogInv(h: Host, ops: seq<Operation>) {
    && (forall k :: 0 <= k < |h.log| ==> h.log[k] < |ops| && ops[h.log[k]].id in h.seen)
    && (forall i :: 0 <= i < |ops| && ops[i].id in h.seen ==> i in h.log)
    && (forall k, l :: 0 <= k < l < |h.log| ==> h.log[k] != h.log[l])
  }

  ghost predicate HostInv(h: Host, ops: seq<Operation>) {
    && LogInv(h, ops)
    && EffectsOf(ops, h.log) <= EffectsBefore(ops, |ops|)
    && h.effects == |EffectsOf(ops, h.log)|
    && h.beforeFault <= |h.log|
    && (h.broken ==> forall k :: h.beforeFault <= k < |h.log| ==> !ops[h.log[k]].effect)
  }

  /** In an ascending sequence, an element preceded only by the prefix `taken` comes next. */
  lemma NextInOrder(all: seq<nat>, taken: seq<nat>, i: nat)
    requires forall k, l :: 0 <= k < l < |all| ==> all[k] < all[l]
    requires taken <= all && i in all && i !in taken
    requires forall j :: j in all && j < i ==> j in taken
    ensures taken + [i] <= all
  {
    var p :| 0 <= p < |all| && all[p] == i;
    assert forall q :: 0 <= q < |taken| ==> all[q] == taken[q] != i;
    assert |taken| <= p;
    var j := all[|taken|];
    assert j in all;
    assert forall q :: 0 <= q < |taken| ==> taken[q] == all[q] < j;
    assert j == i;
  }

  /** A consumed effect is exactly the next recorded one. */
  lemma NextEffect(h: Host, ops: seq<Operation>, i: nat)
    requires HostInv(h, ops)
    requires i < |ops| && ops[i].id !in h.seen && BrowserEffect(ops[i]) && !SkipsEffect(ops, h.seen, i)
    ensures EffectsOf(ops, h.log) + [i] <= EffectsBefore(ops, |ops|)
  {
    var all, taken := EffectsBefore(ops, |ops|), EffectsOf(ops, h.log);
    EffectsBeforeSorted(ops, |ops|);
    EffectsOfMembers(ops, h.log);
    assert forall k :: 0 <= k < |h.log| ==> h.log[k] != i;
    forall j | j in all && j < i ensures j in taken {
      assert BrowserEffect(ops[j]);
      assert ops[j].id in h.seen;
    }
    NextInOrder(all, taken, i);
  }

  lemma LogKeeps(h: Host, ops: seq<Operation>, i: nat)
    requires LogInv(h, ops) && DistinctIds(ops) && i < |ops| && ops[i].id !in h.seen
    ensures LogInv(h.(seen := h.seen + {ops[i].id}, log := h.log + [i]), ops)
  {
    var log := h.log + [i];
    forall j | 0 <= j < |ops| && ops[j].id in h.seen + {ops[i].id} ensures j in log {
      if j == i { assert log[|h.log|] == i; } else { assert j in h.log; }
    }
  }

  lemma ConsumeKeeps(h: Host, ops: seq<Operation>, i: nat)
    requires HostInv(h, ops) && DistinctIds(ops) && i < |ops| && ops[i].id !in h.seen
    requires h.broken ==> !ops[i].effect
    requires BrowserEffect(ops[i]) ==> !SkipsEffect(ops, h.seen, i)
    ensures HostInv(Consumed(h, ops, i), ops)
  {
    var log := h.log + [i];
    LogKeeps(h, ops, i);
    assert log[..|log| - 1] == h.log;
    if BrowserEffect(ops[i]) { NextEffect(h, ops, i); }
  }

  predicate SameConsumption(h: Host, h': Host) {
    && h'.seen == h.seen && h'.log == h.log && h'.effects == h.effects
    && h'.broken == h.broken && h'.beforeFault == h.beforeFault
  }

  lemma SameRecord(h: Host, h': Host, ops: seq<Operation>)
    requires HostInv(h, ops)
    requires SameConsumption(h, h')
    ensures HostInv(h', ops)
  {
  }

  lemma ConsumeRecords(h: Host, ops: seq<Operation>, i: nat, frame: nat)
    requires i < |ops|
    ensures SameConsumption(Consumed(h, ops, i), Consume(h, ops, i, frame))
  {
  }

  lemma MatchedKeeps(h: Host, ops: seq<Operation>, failed: Option<string>, i: nat, frame: nat)
    requires HostInv(h, ops) && DistinctIds(ops) && i < |ops| && ops[i].id !in h.seen
    ensures HostInv(OnMatched(h, ops, failed, i, frame), ops)
  {
    FaultKeeps(h, ops);
    SameRecord(h, h.(violation := true), ops);
    if (h.broken ==> !ops[i].effect) && (BrowserEffect(ops[i]) ==> !SkipsEffect(ops, h.seen, i)) {
      ConsumeKeeps(h, ops, i);
      ConsumeRecords(h, ops, i, frame);
      SameRecord(Consumed(h, ops, i), Consume(h, ops, i, frame), ops);
    }
  }

  lemma FaultKeeps(h: Host, ops: seq<Operation>)
    requires HostInv(h, ops)
    ensures HostInv(Faulted(h), ops)
  {
  }

  lemma InvokeKeeps(h: Host, ops: seq<Operation>, failed: Option<string>, frame: nat, call: Call)
    requires HostInv(h, ops) && DistinctIds(ops)
    ensures HostInv(OnInvoke(h, ops, failed, frame, call), ops)
  {
    FirstMatchFound(ops, 0, h.seen, call);
    var found := FirstMatch(ops, 0, h.seen, call);
    if call.name == "workflow.deopt" || Unrecorded(call.name) || h.terminal != Running || found.None? {
      SameRecord(h, OnInvoke(h, ops, failed, frame, call), ops);
    } else {
      MatchedKeeps(h, ops, failed, found.value, frame);
      assert OnInvoke(h, ops, failed, frame, call) == OnMatched(h, ops, failed, found.value, frame);
    }
  }

  lemma ReplyRecords(h: Host, ops: seq<Operation>, frame: nat, matches: bool)
    ensures SameConsumption(h, OnReply(h, ops, frame, matches))
  {
  }

  lemma ActionKeeps(h: Host, ops: seq<Operation>, failed: Option<string>, a: Action)
    requires HostInv(h, ops) && DistinctIds(ops)
    ensures HostInv(OnAction(h, ops, failed, a), ops)
  {
    match a
    case Invoke(frame, call) => InvokeKeeps(h, ops, failed, frame, call);
    case Reply(frame, matches) =>
      ReplyRecords(h, ops, frame, matches);
      SameRecord(h, OnReply(h, ops, frame, matches), ops);
  }

  lemma {:induction false} ReplayInv(ops: seq<Operation>, failed: Option<string>, actions: seq<Action>)
    requires DistinctIds(ops)
    ensures HostInv(Replay(ops, failed, actions), ops)
  {
    if actions != [] {
      var before, a := actions[..|actions| - 1], actions[|actions| - 1];
      ReplayInv(ops, failed, before);
      ActionKeeps(Replay(ops, failed, before), ops, failed, a);
    }
  }
}
