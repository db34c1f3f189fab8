/** The plan checker of the compiler (packages/compiler/src/sdk-evidence.ts). A plan sorts the
    operations of a successful run into retained, discarded and delegated ones; it is checked
    here against a specification that mentions neither sorting nor the order of the checks. */
module SdkPlan {
  import opened Wrappers

  datatype Recorded = Recorded(id: string, name: string, ok: bool)

  /** `guards` and `steps` are not empty, and there is at most one planned hand-over, of at
      least one operation: the plan schema refuses anything else. */
  datatype Plan = Plan(guards: seq<string>, steps: seq<string>, discarded: seq<string>, deopt: Option<seq<string>>)

  predicate WellFormed(plan: Plan) {
    |plan.guards| > 0 && |plan.steps| > 0 && (plan.deopt.Some? ==> |plan.deopt.value| > 0)
  }

  datatype Fault =
    | DelegatedTwice | Unobserved | NotDisjoint | DroppedWork | UnobservingGuard | UnguardedQuery
    | Unexplained | DelegatesFailure | NotTerminal | EmptyPrefix | UndelegatedSuffix

  const REQUIRED_SUFFIXES := {
    "store.query", "store.insert", "store.upsert", "store.define_table", "emit", "emit.batch",
    "record.outcome", "record.verify", "destination.contract.publish", "destination.field.observe", "done"}

  /** Work the compiled script may not drop. */
  predicate RequiredWork(op: Recorded) {
    op.ok && (op.name in REQUIRED_SUFFIXES
              || ("workflow." <= op.name && op.name[|"workflow."|..] in REQUIRED_SUFFIXES)
              || op.name in {"browser.ai", "page.verify", "harness.verify"})
  }

  const OBSERVATIONS := [
    "page.perceive", "page.find", "page.inspect", "page.waitFor",
    "harness.observe", "harness.find", "harness.extract", "harness.wait_for_element", "harness.js",
    "harness.request", "harness.page_info"]

  predicate Observes(name: string) {
    || name in {"playwright.call", "workflow.store.query"}
    || exists k :: 0 <= k < |OBSERVATIONS| && OBSERVATIONS[k] <= name
  }

  function Ids(ops: seq<Recorded>): set<string> {
    set k | 0 <= k < |ops| :: ops[k].id
  }

  function Kept(plan: Plan): set<string> {
    (set s | s in plan.guards) + (set s | s in plan.steps)
  }

  function Discarded(plan: Plan): set<string> {
    set s | s in plan.discarded
  }

  function Delegated(plan: Plan): set<string> {
    if plan.deopt.Some? then set s | s in plan.deopt.value else {}
  }

  predicate DistinctIds(ops: seq<Recorded>) {
    forall i, j :: 0 <= i < j < |ops| ==> ops[i].id != ops[j].id
  }

  // ---- the specification ----

  predicate Distinct(ids: seq<string>) {
    forall i, j :: 0 <= i < j < |ids| ==> ids[i] != ids[j]
  }

  predicate InRun(ops: seq<Recorded>, id: string) {
    exists k :: 0 <= k < |ops| && ops[k].id == id
  }

  predicate Retains(plan: Plan, id: string) {
    id in plan.guards || id in plan.steps
  }

  predicate HandsOver(plan: Plan, id: string) {
    plan.deopt.Some? && id in plan.deopt.value
  }

  /** What each rejection means. */
  ghost predicate Breaks(plan: Plan, ops: seq<Recorded>, fault: Fault) {
    match fault
    case DelegatedTwice => plan.deopt.Some? && !Distinct(plan.deopt.value)
    case Unobserved =>
      exists id :: (Retains(plan, id) || id in plan.discarded || HandsOver(plan, id)) && !InRun(ops, id)
    case NotDisjoint =>
      || (exists id :: Retains(plan, id) && (id in plan.discarded || HandsOver(plan, id)))
      || (exists id :: id in plan.discarded && HandsOver(plan, id))
    case DroppedWork =>
      exists k :: 0 <= k < |ops| && ops[k].ok && MustStay(ops[k].name)
        && !Retains(plan, ops[k].id) && !HandsOver(plan, ops[k].id)
    case UnobservingGuard => exists k :: 0 <= k < |ops| && ops[k].id in plan.guards && !LooksOnly(ops[k].name)
    case UnguardedQuery =>
      exists k :: 0 <= k < |ops| && ops[k].name == "workflow.store.query" && ops[k].id in plan.steps
        && ops[k].id !in plan.guards
    case Unexplained =>
      exists k :: 0 <= k < |ops| && ops[k].ok
        && !Retains(plan, ops[k].id) && ops[k].id !in plan.discarded && !HandsOver(plan, ops[k].id)
    case DelegatesFailure => exists k :: 0 <= k < |ops| && HandsOver(plan, ops[k].id) && !ops[k].ok
    case NotTerminal =>
      exists j, k :: 0 <= j <= k < |ops| && HandsOver(plan, ops[j].id) && Retains(plan, ops[k].id)
    case EmptyPrefix => false
    case UndelegatedSuffix => false
  }

  /** The order in which the rules are checked. */
  function Rank(fault: Fault): nat {
    match fault
    case DelegatedTwice => 0
    case Unobserved => 1
    case NotDisjoint => 2
    case DroppedWork => 3
    case UnobservingGuard => 4
    case UnguardedQuery => 5
    case Unexplained => 6
    case DelegatesFailure => 7
    case NotTerminal => 8
    case EmptyPrefix => 9
    case UndelegatedSuffix => 10
  }

  /** The verdict is the first rule that is broken, if any is. */
  ghost predicate FirstBroken(plan: Plan, ops: seq<Recorded>, verdict: Option<Fault>) {
    && (verdict.Some? ==> Breaks(plan, ops, verdict.value))
    && forall fault :: Breaks(plan, ops, fault) ==> verdict.Some? && Rank(verdict.value) <= Rank(fault)
  }

  ghost predicate ValidPlan(plan: Plan, ops: seq<Recorded>) {
    && (plan.deopt.Some? ==> Distinct(plan.deopt.value))
    && (forall id :: Retains(plan, id) || id in plan.discarded || HandsOver(plan, id) ==> InRun(ops, id))
    && (forall id | Retains(plan, id) :: id !in plan.discarded && !HandsOver(plan, id))
    && (forall id | HandsOver(plan, id) :: id !in plan.discarded)
    // Every success is explained, and none of the required work is thrown away.
    && (forall k :: 0 <= k < |ops| && ops[k].ok ==>
          Retains(plan, ops[k].id) || ops[k].id in plan.discarded || HandsOver(plan, ops[k].id))
    && (forall k :: 0 <= k < |ops| && ops[k].ok && MustStay(ops[k].name) ==>
          Retains(plan, ops[k].id) || HandsOver(plan, ops[k].id))
    // Guards look at the page or the store, and every retained store query is one.
    && (forall k :: 0 <= k < |ops| && ops[k].id in plan.guards ==> LooksOnly(ops[k].name))
    && (forall k :: 0 <= k < |ops| && ops[k].name == "workflow.store.query" && ops[k].id in plan.steps ==>
          ops[k].id in plan.guards)
    && (plan.deopt.Some? ==>
          && (forall k :: 0 <= k < |ops| && HandsOver(plan, ops[k].id) ==> ops[k].ok)
          && exists b :: SplitsAt(plan, ops, b))
  }

  /** From `b` on the AI takes over: nothing retained follows, and every success there that is
      not thrown away is handed to it. */
  ghost predicate SplitsAt(plan: Plan, ops: seq<Recorded>, b: nat) {
    && b <= |ops|
    && (forall k :: 0 <= k < |ops| && Retains(plan, ops[k].id) ==> k < b)
    && (forall k :: 0 <= k < |ops| && HandsOver(plan, ops[k].id) ==> b <= k)
    && (forall k :: b <= k < |ops| && ops[k].ok && ops[k].id !in plan.discarded ==> HandsOver(plan, ops[k].id))
    && (exists k :: 0 <= k < b && ops[k].id in plan.steps)
  }

  /** The work that must stay, under its own name or that of its workflow form. */
  ghost predicate MustStay(name: string) {
    || name in {"browser.ai", "page.verify", "harness.verify"}
    || exists word :: Form(name, word) && word in {
         "store.query", "store.insert", "store.upsert", "store.define_table", "emit", "emit.batch",
         "record.outcome", "record.verify", "destination.contract.publish", "destination.field.observe", "done"}
  }

  predicate Form(name: string, word: string) {
    name == word || name == "workflow." + word
  }

  lemma RequiredIffMustStay(op: Recorded)
    ensures RequiredWork(op) <==> op.ok && MustStay(op.name)
  {
    assert Form(op.name, op.name);
    if "workflow." <= op.name {
      assert op.name == "workflow." + op.name[9..];
      assert Form(op.name, op.name[9..]);
    }
  }

  /** A name that begins with `prefix`. */
  predicate Begins(name: string, prefix: string) {
    |prefix| <= |name| && name[..|prefix|] == prefix
  }

  predicate LooksOnly(name: string) {
    || name == "playwright.call" || name == "workflow.store.query"
    || Begins(name, "page.perceive") || Begins(name, "page.find") || Begins(name, "page.inspect")
    || Begins(name, "page.waitFor")
    || Begins(name, "harness.observe") || Begins(name, "harness.find") || Begins(name, "harness.extract")
    || Begins(name, "harness.wait_for_element") || Begins(name, "harness.js") || Begins(name, "harness.request")
    || Begins(name, "harness.page_info")
  }

  lemma BeginsIsPrefix(name: string)
    ensures forall prefix: string :: Begins(name, prefix) <==> prefix <= name
  {
    forall prefix: string | Begins(name, prefix) ensures prefix <= name {
      assert forall i :: 0 <= i < |prefix| ==> prefix[i] == name[..|prefix|][i];
    }
  }

  lemma ObservesIffLooksOnly(name: string)
    ensures Observes(name) <==> LooksOnly(name)
  {
    BeginsIsPrefix(name);
    assert forall k :: 0 <= k < |OBSERVATIONS| ==> (Begins(name, OBSERVATIONS[k]) <==> OBSERVATIONS[k] <= name);
    assert |OBSERVATIONS| == 11;
    if LooksOnly(name) && name !in {"playwright.call", "workflow.store.query"} {
      assert Begins(name, OBSERVATIONS[0]) || Begins(name, OBSERVATIONS[1]) || Begins(name, OBSERVATIONS[2])
        || Begins(name, OBSERVATIONS[3]) || Begins(name, OBSERVATIONS[4]) || Begins(name, OBSERVATIONS[5])
        || Begins(name, OBSERVATIONS[6]) || Begins(name, OBSERVATIONS[7]) || Begins(name, OBSERVATIONS[8])
        || Begins(name, OBSERVATIONS[9]) || Begins(name, OBSERVATIONS[10]);
    }
  }

  // ---- the checker ----

  /** Adds the delegated ids one at a time; a repetition is an error. */
  method CollectDelegated(ids: seq<string>) returns (r: Result<set<string>, Fault>)
    ensures r.Ok? <==> Distinct(ids)
    ensures r.Ok? ==> r.value == set s | s in ids
    ensures r.Err? ==> r.error == DelegatedTwice
  {
    var delegated: set<string> := {};
    var k := 0;
    while k < |ids|
      invariant k <= |ids|
      invariant Distinct(ids[..k])
      invariant delegated == set s | s in ids[..k]
    {
      if ids[k] in delegated {
        var l :| 0 <= l < k && ids[..k][l] == ids[k];
        assert ids[l] == ids[k];
        return Err(DelegatedTwice);
      }
      assert forall l :: 0 <= l < k ==> ids[..k][l] == ids[l] && ids[l] in ids[..k];
      assert ids[..k + 1] == ids[..k] + [ids[k]];
      delegated := delegated + {ids[k]};
      k := k + 1;
    }
    assert ids[..k] == ids;
    return Ok(delegated);
  }

  /** The first delegated operation, by position in the recording. */
  method Boundary(plan: Plan, ops: seq<Recorded>) returns (b: nat)
    requires plan.deopt.Some? && |plan.deopt.value| > 0 && Delegated(plan) <= Ids(ops)
    ensures b < |ops| && ops[b].id in Delegated(plan)
    ensures forall k :: 0 <= k < b ==> ops[k].id !in Delegated(plan)
  {
    var some := plan.deopt.value[0];
    assert some in Ids(ops);
    b := 0;
    while ops[b].id !in Delegated(plan)
      invariant b < |ops|
      invariant forall k :: 0 <= k < b ==> ops[k].id !in Delegated(plan)
      invariant exists k :: b <= k < |ops| && ops[k].id == some
      decreases |ops| - b
    {
      b := b + 1;
    }
  }

  /** The checks on the planned hand-over, given that all earlier checks passed. The two
      rejections of the source that are missing from the result cannot happen: see the
      assertions that replace them. */
  method CheckHandOver(plan: Plan, ops: seq<Recorded>) returns (fault: Option<Fault>)
    requires WellFormed(plan) && plan.deopt.Some?
    requires forall id :: Retains(plan, id) || HandsOver(plan, id) ==> InRun(ops, id)
    requires !Breaks(plan, ops, NotDisjoint) && !Breaks(plan, ops, Unexplained)
    ensures fault.None? <==>
              && (forall k :: 0 <= k < |ops| && HandsOver(plan, ops[k].id) ==> ops[k].ok)
              && exists b :: SplitsAt(plan, ops, b)
    ensures fault in {None, Some(DelegatesFailure), Some(NotTerminal)}
    ensures fault == Some(DelegatesFailure) <==> Breaks(plan, ops, DelegatesFailure)
    ensures fault == Some(NotTerminal) <==>
              Breaks(plan, ops, NotTerminal) && !Breaks(plan, ops, DelegatesFailure)
  {
    if exists k :: 0 <= k < |ops| && ops[k].id in Delegated(plan) && !ops[k].ok { return Some(DelegatesFailure); }
    SetsAreMentions(plan, ops);
    assert forall id :: id in Delegated(plan) ==> HandsOver(plan, id);
    var b := Boundary(plan, ops);
    if exists k :: b <= k < |ops| && ops[k].id in Kept(plan) { return Some(NotTerminal); }
    assert Retains(plan, plan.steps[0]);
    assert exists k :: 0 <= k < b && ops[k].id in plan.steps; // never EmptyPrefix
    assert forall k :: b <= k < |ops| && ops[k].ok && ops[k].id !in Discarded(plan) ==>
        ops[k].id in Delegated(plan);                         // never UndelegatedSuffix
    assert SplitsAt(plan, ops, b);
    return None;
  }

  /** Nothing is broken among the rules checked first. */
  ghost predicate Passes(plan: Plan, ops: seq<Recorded>, rank: nat) {
    forall fault :: Rank(fault) < rank ==> !Breaks(plan, ops, fault)
  }

  lemma PassesMore(plan: Plan, ops: seq<Recorded>, fault: Fault)
    requires Passes(plan, ops, Rank(fault)) && !Breaks(plan, ops, fault)
    ensures Passes(plan, ops, Rank(fault) + 1)
  {
  }

  lemma OthersAreLater(plan: Plan, ops: seq<Recorded>, fault: Fault)
    requires Passes(plan, ops, Rank(fault)) && Breaks(plan, ops, fault)
    ensures FirstBroken(plan, ops, Some(fault))
  {
  }

  lemma SetsAreMentions(plan: Plan, ops: seq<Recorded>)
    ensures forall id :: id in Kept(plan) <==> Retains(plan, id)
    ensures forall id :: id in Discarded(plan) <==> id in plan.discarded
    ensures forall id :: id in Delegated(plan) <==> HandsOver(plan, id)
    ensures forall id :: id in Ids(ops) <==> InRun(ops, id)
  {
  }

  /** The rules about what the plan mentions. */
  method CheckMentions(plan: Plan, ops: seq<Recorded>) returns (fault: Option<Fault>)
    ensures fault in {None, Some(DelegatedTwice), Some(Unobserved), Some(NotDisjoint)}
    ensures if fault.None? then Passes(plan, ops, 3) else FirstBroken(plan, ops, fault)
  {
    var kept, discarded := Kept(plan), Discarded(plan);
    var delegated: set<string> := {};
    SetsAreMentions(plan, ops);
    if plan.deopt.Some? {
      var collected := CollectDelegated(plan.deopt.value);
      if collected.Err? { OthersAreLater(plan, ops, DelegatedTwice); return Some(DelegatedTwice); }
      delegated := collected.value;
    }
    PassesMore(plan, ops, DelegatedTwice);
    if !(kept + discarded + delegated <= Ids(ops)) {
      var id :| id in kept + discarded + delegated && id !in Ids(ops);
      OthersAreLater(plan, ops, Unobserved);
      return Some(Unobserved);
    }
    assert forall id :: id in kept || id in discarded || id in delegated ==> id in kept + discarded + delegated;
    PassesMore(plan, ops, Unobserved);
    if (exists id :: id in kept && (id in discarded || id in delegated))
       || (exists id :: id in discarded && id in delegated)
    {
      OthersAreLater(plan, ops, NotDisjoint);
      return Some(NotDisjoint);
    }
    PassesMore(plan, ops, NotDisjoint);
    return None;
  }

  /** The rules about required work, guards and explanations. */
  method CheckWork(plan: Plan, ops: seq<Recorded>) returns (fault: Option<Fault>)
    requires Passes(plan, ops, 3)
    ensures fault in {None, Some(DroppedWork), Some(UnobservingGuard), Some(UnguardedQuery), Some(Unexplained)}
    ensures if fault.None? then Passes(plan, ops, 7) else FirstBroken(plan, ops, fault)
  {
    var kept, discarded, delegated := Kept(plan), Discarded(plan), Delegated(plan);
    SetsAreMentions(plan, ops);
    forall k | 0 <= k < |ops| ensures RequiredWork(ops[k]) <==> ops[k].ok && MustStay(ops[k].name) {
      RequiredIffMustStay(ops[k]);
    }
    forall k | 0 <= k < |ops| ensures Observes(ops[k].name) <==> LooksOnly(ops[k].name) {
      ObservesIffLooksOnly(ops[k].name);
    }
    if exists k :: 0 <= k < |ops| && RequiredWork(ops[k]) && ops[k].id !in kept && ops[k].id !in delegated {
      OthersAreLater(plan, ops, DroppedWork);
      return Some(DroppedWork);
    }
    PassesMore(plan, ops, DroppedWork);
    if exists k :: 0 <= k < |ops| && ops[k].id in plan.guards && !Observes(ops[k].name) {
      OthersAreLater(plan, ops, UnobservingGuard);
      return Some(UnobservingGuard);
    }
    PassesMore(plan, ops, UnobservingGuard);
    if exists k :: 0 <= k < |ops| && ops[k].name == "workflow.store.query" && ops[k].id in kept
        && ops[k].id !in plan.guards {
      OthersAreLater(plan, ops, UnguardedQuery);
      return Some(UnguardedQuery);
    }
    PassesMore(plan, ops, UnguardedQuery);
    if exists k :: 0 <= k < |ops| && ops[k].ok && ops[k].id !in kept && ops[k].id !in discarded
        && ops[k].id !in delegated {
      OthersAreLater(plan, ops, Unexplained);
      return Some(Unexplained);
    }
    PassesMore(plan, ops, Unexplained);
    return None;
  }

  method CheckSdkPlan(plan: Plan, ops: seq<Recorded>) returns (fault: Option<Fault>)
    requires WellFormed(plan) && DistinctIds(ops)
    ensures fault.None? <==> ValidPlan(plan, ops)
    ensures FirstBroken(plan, ops, fault)
    ensures fault !in {Some(EmptyPrefix), Some(UndelegatedSuffix)}
  {
    fault := CheckMentions(plan, ops);
    if fault.Some? { BrokenIsInvalid(plan, ops, fault.value); return; }
    fault := CheckWork(plan, ops);
    if fault.Some? { BrokenIsInvalid(plan, ops, fault.value); return; }
    UnbrokenIsValid(plan, ops);
    if plan.deopt.Some? {
      fault := CheckHandOver(plan, ops);
      HandOverIsFirst(plan, ops, fault);
    }
  }

  lemma HandOverIsFirst(plan: Plan, ops: seq<Recorded>, fault: Option<Fault>)
    requires Passes(plan, ops, 7) && fault in {None, Some(DelegatesFailure), Some(NotTerminal)}
    requires fault == Some(DelegatesFailure) <==> Breaks(plan, ops, DelegatesFailure)
    requires fault == Some(NotTerminal) <==> Breaks(plan, ops, NotTerminal) && !Breaks(plan, ops, DelegatesFailure)
    ensures FirstBroken(plan, ops, fault)
  {
  }

  lemma BrokenIsInvalid(plan: Plan, ops: seq<Recorded>, fault: Fault)
    requires Breaks(plan, ops, fault) && Rank(fault) < 7
    ensures !ValidPlan(plan, ops)
  {
  }

  lemma UnbrokenIsValid(plan: Plan, ops: seq<Recorded>)
    requires Passes(plan, ops, 7)
    ensures forall id :: Retains(plan, id) || id in plan.discarded || HandsOver(plan, id) ==> InRun(ops, id)
    ensures !Breaks(plan, ops, NotDisjoint) && !Breaks(plan, ops, Unexplained)
    ensures ValidPlan(plan, ops) <==>
              (plan.deopt.Some? ==>
                 && (forall k :: 0 <= k < |ops| && HandsOver(plan, ops[k].id) ==> ops[k].ok)
                 && exists b :: SplitsAt(plan, ops, b))
    ensures plan.deopt.None? ==> FirstBroken(plan, ops, None)
  {
    assert !Breaks(plan, ops, DelegatedTwice) && !Breaks(plan, ops, Unobserved) && !Breaks(plan, ops, NotDisjoint)
      && !Breaks(plan, ops, DroppedWork) && !Breaks(plan, ops, UnobservingGuard)
      && !Breaks(plan, ops, UnguardedQuery) && !Breaks(plan, ops, Unexplained);
  }

  /** A valid hand-over leaves no freedom: what is delegated is the run's tail without what was
      thrown away. */
  lemma HandOverIsTheTail(plan: Plan, ops: seq<Recorded>) returns (b: nat)
    requires WellFormed(plan) && ValidPlan(plan, ops) && plan.deopt.Some?
    ensures b <= |ops|
    ensures forall id :: id in plan.deopt.value <==>
              exists k :: b <= k < |ops| && ops[k].ok && ops[k].id !in plan.discarded && ops[k].id == id
    ensures forall k :: b <= k < |ops| ==> ops[k].id !in plan.guards && ops[k].id !in plan.steps
  {
    b :| SplitsAt(plan, ops, b);
    forall id | id in plan.deopt.value
      ensures exists k :: b <= k < |ops| && ops[k].ok && ops[k].id !in plan.discarded && ops[k].id == id
    {
      assert HandsOver(plan, id);
      var k :| 0 <= k < |ops| && ops[k].id == id;
      assert b <= k;
    }
  }
}
