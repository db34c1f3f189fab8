/** The order in which a careful candidate repeats a recording: whatever can be read again is read
    again at once (packages/agent/src/python-validation.ts). */
module CandidateOrder {
  import opened Wrappers
  import opened CandidateReplay
  import opened Counterfactuals
  import opened CandidateValidation
  import opened CandidatePrograms

  predicate LookedUp(op: Operation) {
    !Unrecorded(op.name) && op.name != "workflow.deopt"
  }

  predicate LastCall(ops: seq<Operation>, i: nat)
    requires i < |ops|
  {
    LookedUp(ops[i]) && forall j :: i < j < |ops| ==> !LookedUp(ops[j])
  }

  /** What is selected from the recording of a successful run: the last call the host looks up
      ends it, unless the plan hands over there, and no other does; whatever has to be repeated
      is looked up; guards observe; emissions carry their keys. */
  ghost predicate Replayable(ops: seq<Operation>, plan: Plan) {
    && DistinctIds(ops) && Steady(ops)
    && (forall i :: 0 <= i < |ops| && (Retained(ops[i]) || Tested(plan, ops[i])) ==> LookedUp(ops[i]))
    && (forall i :: 0 <= i < |ops| && EndsRun(ops[i]) ==>
          ops[i].name == "workflow.done" && plan.planned.None? && LastCall(ops, i))
    && (plan.planned.None? ==> exists i :: 0 <= i < |ops| && EndsRun(ops[i]))
    && (forall i :: 0 <= i < |ops| && ops[i].id in plan.guards ==> !EndsRun(ops[i]))
    && (forall i :: 0 <= i < |ops| && LookedUp(ops[i]) ==> !MissingDedupeKey(ops[i]))
  }

  /** The first record that can be read together with record `k`, from `j` on. */
  function Leader(ops: seq<Operation>, k: nat, j: nat): (l: nat)
    requires j <= k < |ops|
    ensures j <= l <= k && Together(ops, l, k) && forall x: nat :: j <= x < l ==> !Together(ops, x, k)
    decreases k - j
  {
    if Together(ops, j, k) then j else Leader(ops, k, j + 1)
  }

  predicate Before(ops: seq<Operation>, x: nat, y: nat)
    requires x < |ops| && y < |ops|
  {
    Leader(ops, x, 0) < Leader(ops, y, 0) || (Leader(ops, x, 0) == Leader(ops, y, 0) && x < y)
  }

  predicate Within(ops: seq<Operation>, order: seq<nat>) {
    forall a :: 0 <= a < |order| ==> order[a] < |ops|
  }

  ghost predicate Ascends(ops: seq<Operation>, order: seq<nat>)
    requires Within(ops, order)
  {
    forall a, b :: 0 <= a < b < |order| ==> Before(ops, order[a], order[b])
  }

  function Inserted(ops: seq<Operation>, order: seq<nat>, x: nat): (r: seq<nat>)
    requires Within(ops, order) && x < |ops|
    ensures Within(ops, r)
    ensures forall y :: y in r <==> y in order || y == x
  {
    if order == [] || Before(ops, x, order[0]) then [x] + order
    else [order[0]] + Inserted(ops, order[1..], x)
  }

  lemma {:induction false} InsertedAscends(ops: seq<Operation>, order: seq<nat>, x: nat)
    requires Within(ops, order) && x < |ops| && Ascends(ops, order) && x !in order
    ensures Ascends(ops, Inserted(ops, order, x))
  {
    if order != [] && !Before(ops, x, order[0]) {
      InsertedAscends(ops, order[1..], x);
      var rest := Inserted(ops, order[1..], x);
      forall b | 0 <= b < |rest| ensures Before(ops, order[0], rest[b]) {
        if rest[b] != x {
          assert rest[b] in order[1..];
          var c :| 0 <= c < |order| - 1 && order[1..][c] == rest[b];
          assert order[1 + c] == rest[b];
        }
      }
    }
  }

  /** The calls the host looks up, in this order. */
  function Order(ops: seq<Operation>, k: nat): (r: seq<nat>)
    requires k <= |ops|
    ensures Within(ops, r)
    ensures forall y: nat {:trigger y in r} :: y in r <==> y < k && LookedUp(ops[y])
  {
    if k == 0 then []
    else if LookedUp(ops[k - 1]) then Inserted(ops, Order(ops, k - 1), k - 1)
    else Order(ops, k - 1)
  }

  lemma {:induction false} OrderAscends(ops: seq<Operation>, k: nat)
    requires k <= |ops|
    ensures Ascends(ops, Order(ops, k))
  {
    if k > 0 {
      OrderAscends(ops, k - 1);
      if LookedUp(ops[k - 1]) { InsertedAscends(ops, Order(ops, k - 1), k - 1); }
    }
  }

  /** All the program needs of its order. */
  ghost predicate Sound(ops: seq<Operation>, order: seq<nat>) {
    && Within(ops, order)
    && (forall x: nat {:trigger x in order} :: x in order <==> x < |ops| && LookedUp(ops[x]))
    && (forall a, b :: 0 <= a < b < |order| ==> order[a] != order[b])
    && (forall a, b :: 0 <= a < b < |order| && SameCall(ops[order[a]], ops[order[b]]) ==> order[a] < order[b])
    && (forall a, b :: 0 <= a < b < |order| && BrowserEffect(ops[order[a]]) && BrowserEffect(ops[order[b]]) ==>
          order[a] < order[b])
    && (forall a, b, c :: 0 <= a < c < b < |order| && Together(ops, order[a], order[b]) ==>
          SameCall(ops[order[a]], ops[order[c]]))
  }

  /** Records of the same call, and browser effects, keep their recorded order. */
  lemma BeforeKeepsOrder(ops: seq<Operation>, x: nat, y: nat)
    requires Steady(ops) && x < |ops| && y < |ops| && Before(ops, x, y)
    requires SameCall(ops[x], ops[y]) || (BrowserEffect(ops[x]) && BrowserEffect(ops[y]))
    ensures x < y
  {
    if y <= x {
      // Then `y` lies between `x` and its leader, and is read together with it.
      var l := Leader(ops, x, 0);
      if l <= y { assert Together(ops, l, y); }
    }
  }

  /** What is read together is read in a row. */
  lemma TogetherInRow(ops: seq<Operation>, x: nat, y: nat, z: nat)
    requires Steady(ops) && x < |ops| && y < |ops| && z < |ops| && Together(ops, x, z)
    requires Before(ops, x, y) && Before(ops, y, z)
    ensures SameCall(ops[x], ops[y])
  {
    LeadersAgree(ops, x, z);
  }

  lemma LeadersAgree(ops: seq<Operation>, x: nat, z: nat)
    requires Steady(ops) && x < |ops| && z < |ops| && Together(ops, x, z)
    ensures Leader(ops, x, 0) == Leader(ops, z, 0)
  {
    var l, m := Leader(ops, x, 0), Leader(ops, z, 0);
    assert Together(ops, l, z);
    assert Together(ops, m, x);
  }

  lemma AscendingIsSound(ops: seq<Operation>, order: seq<nat>)
    requires Steady(ops) && Within(ops, order) && Ascends(ops, order)
    requires forall x: nat {:trigger x in order} :: x in order <==> x < |ops| && LookedUp(ops[x])
    ensures Sound(ops, order)
  {
    forall a, b | 0 <= a < b < |order|
      ensures SameCall(ops[order[a]], ops[order[b]]) ==> order[a] < order[b]
      ensures BrowserEffect(ops[order[a]]) && BrowserEffect(ops[order[b]]) ==> order[a] < order[b]
    {
      if SameCall(ops[order[a]], ops[order[b]]) || (BrowserEffect(ops[order[a]]) && BrowserEffect(ops[order[b]])) {
        BeforeKeepsOrder(ops, order[a], order[b]);
      }
    }
    forall a, b, c | 0 <= a < c < b < |order| && Together(ops, order[a], order[b])
      ensures SameCall(ops[order[a]], ops[order[c]])
    {
      TogetherInRow(ops, order[a], order[c], order[b]);
    }
  }

  /** The end of the run comes last. */
  ghost predicate EndsLast(ops: seq<Operation>, plan: Plan, order: seq<nat>)
    requires Within(ops, order)
  {
    && (forall a :: 0 <= a < |order| ==> (EndsRun(ops[order[a]]) <==> plan.planned.None? && a == |order| - 1))
    && (plan.planned.None? ==> order != [])
  }

  lemma EndIsAfter(ops: seq<Operation>, plan: Plan, z: nat, y: nat)
    requires Replayable(ops, plan) && z < |ops| && EndsRun(ops[z]) && y < |ops| && LookedUp(ops[y]) && y != z
    ensures !Before(ops, z, y)
  {
    assert LastCall(ops, z);
  }

  lemma EndIsLast(ops: seq<Operation>, plan: Plan, order: seq<nat>, a: nat)
    requires Replayable(ops, plan) && Sound(ops, order) && Ascends(ops, order)
    requires a < |order| && EndsRun(ops[order[a]])
    ensures a == |order| - 1
  {
    if a < |order| - 1 {
      assert order[a + 1] in order;
      EndIsAfter(ops, plan, order[a], order[a + 1]);
    }
  }

  lemma AscendingEndsLast(ops: seq<Operation>, plan: Plan, order: seq<nat>)
    requires Replayable(ops, plan) && Sound(ops, order) && Ascends(ops, order)
    ensures EndsLast(ops, plan, order)
  {
    forall a | 0 <= a < |order| && EndsRun(ops[order[a]]) ensures a == |order| - 1 && plan.planned.None? {
      EndIsLast(ops, plan, order, a);
    }
    if plan.planned.None? {
      var z :| 0 <= z < |ops| && EndsRun(ops[z]);
      assert z in order;
    }
  }

  /** A recording, and an order in which a program can repeat it. */
  ghost predicate Ready(ops: seq<Operation>, plan: Plan, order: seq<nat>) {
    Replayable(ops, plan) && Sound(ops, order) && EndsLast(ops, plan, order)
  }

  lemma OrderIsReady(ops: seq<Operation>, plan: Plan)
    requires Replayable(ops, plan)
    ensures Ready(ops, plan, Order(ops, |ops|))
  {
    OrderAscends(ops, |ops|);
    AscendingIsSound(ops, Order(ops, |ops|));
    AscendingEndsLast(ops, plan, Order(ops, |ops|));
  }
}
