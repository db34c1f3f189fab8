/** The changed observations on which a guard is tried
    (packages/agent/src/python-validation.ts). */
module Counterfactuals {
  import opened Wrappers

  /** Recorded observation contents. Object fields are in recorded order with distinct names;
      numbers are doubles. */
  datatype Json =
    | Null
    | Bool(b: bool)
    | Num(n: real)
    | Text(s: string)
    | Arr(items: seq<Json>)
    | Obj(fields: seq<(string, Json)>)

  function Field(fields: seq<(string, Json)>, name: string): Option<Json> {
    if fields == [] then None
    else if fields[0].0 == name then Some(fields[0].1)
    else Field(fields[1..], name)
  }

  /** `{...fields, [name]: value}` */
  function With(fields: seq<(string, Json)>, name: string, value: Json): seq<(string, Json)> {
    if fields == [] then [(name, value)]
    else if fields[0].0 == name then [(name, value)] + fields[1..]
    else [fields[0]] + With(fields[1..], name, value)
  }

  /** The first row with each of its fields deleted in turn. */
  function Thinned(rows: seq<Json>): seq<seq<Json>> {
    if rows == [] then []
    else match rows[0]
      case Obj(fields) =>
        seq(|fields|, k requires 0 <= k < |fields| => [Obj(fields[..k] + fields[k + 1..])] + rows[1..])
      // A nested array is spread into an object, so deleting an index also changes its kind.
      case Arr(items) => seq(|items|, k requires 0 <= k < |items| => [Obj(Indexed(items, 0, k))] + rows[1..])
      case _ => []
  }

  function Indexed(items: seq<Json>, from: nat, without: nat): seq<(string, Json)>
    requires from <= |items|
    decreases |items| - from
  {
    if from == |items| then []
    else (if from == without then [] else [(Digits(from), items[from])]) + Indexed(items, from + 1, without)
  }

  function Digits(n: nat): string {
    if n < 10 then [('0' as int + n) as char] else Digits(n / 10) + [('0' as int + n % 10) as char]
  }

  const EXACT: real := 9007199254740992.0   // 2 to the 53rd: from here on doubles are 2 apart, or more

  /** One more rounds back: it is less than half a step away, or half a step from an even last bit. */
  predicate AbsorbsOne(n: real) {
    || n >= 2.0 * EXACT || n <= -2.0 * EXACT
    || ((n >= EXACT || n < -EXACT) && n.Floor % 4 == 0)
  }

  /** `value + 1` for a double. */
  function PlusOne(n: real): real {
    if AbsorbsOne(n) then n else if n >= EXACT || n < -EXACT then n + 2.0 else n + 1.0
  }

  function Variants(name: string, value: Json): seq<Json> {
    match value
    case Arr(items) =>
      var last := if items == [] then [Null] else items + [items[0]];
      [Arr([]), Arr(if items == [] then [] else items[..|items| - 1]), Arr(last)] + Arrays(Thinned(items))
    case Bool(b) => [Bool(!b)]
    case Text(_) => [Text("")]
    case Num(n) => [Num(0.0), Num(PlusOne(n))]
    case Obj(fields) =>
      if name != "workflow.store.query" || Field(fields, "rows").None? || !Field(fields, "rows").value.Arr? then []
      else
        var rows := Field(fields, "rows").value.items;
        [Obj(With(With(fields, "rows", Arr([])), "truncated", Bool(false))), Obj(With(fields, "truncated", Bool(true)))]
        + Queries(fields, Thinned(rows))
    case Null => []
  }

  function Arrays(rows: seq<seq<Json>>): seq<Json> {
    seq(|rows|, k requires 0 <= k < |rows| => Arr(rows[k]))
  }

  function Queries(fields: seq<(string, Json)>, rows: seq<seq<Json>>): seq<Json> {
    seq(|rows|, k requires 0 <= k < |rows| => Obj(With(fields, "rows", Arr(rows[k]))))
  }

  // ---- the same, one by one ----

  /** `m` is what `n + 1` comes to in doubles: nothing is lost below 2 to the 53rd, from there on
      doubles are 2 apart and a tie goes to the multiple of 4, and from 2 to the 54th on it is lost. */
  ghost predicate OneMore(n: real, m: real) {
    if -9007199254740992.0 <= n < 9007199254740992.0 then m == n + 1.0
    else if -18014398509481984.0 < n < 18014398509481984.0 then m == if n.Floor % 4 == 0 then n else n + 2.0
    else m == n
  }

  /** The rows, but the first lacks one of its fields; an array has become an object of its other
      items under their positions. */
  ghost predicate LacksField(rows: seq<Json>, less: seq<Json>) {
    && rows != [] && |less| == |rows| && less[1..] == rows[1..] && less[0].Obj?
    && match rows[0]
       case Obj(fields) => exists k :: 0 <= k < |fields| && less[0].fields == fields[..k] + fields[k + 1..]
       case Arr(items) => exists k :: 0 <= k < |items| && LacksItem(items, k, less[0].fields)
       case _ => false
  }

  ghost predicate LacksItem(items: seq<Json>, k: nat, fields: seq<(string, Json)>) {
    && |fields| == |items| - 1
    && forall j :: 0 <= j < |fields| ==>
         var at := if j < k then j else j + 1;
         fields[j] == (Digits(at), items[at])
  }

  ghost predicate QueryCounterfactual(fields: seq<(string, Json)>, rows: seq<Json>, v: Json) {
    || v == Obj(With(With(fields, "rows", Arr([])), "truncated", Bool(false)))
    || v == Obj(With(fields, "truncated", Bool(true)))
    || exists less :: LacksField(rows, less) && v == Obj(With(fields, "rows", Arr(less)))
  }

  /** A guard recorded as `value` is tried with `v`. */
  ghost predicate Counterfactual(name: string, value: Json, v: Json) {
    match value
    case Null => false
    case Bool(b) => v == Bool(!b)
    case Text(_) => v == Text("")
    case Num(n) => v.Num? && (v.n == 0.0 || OneMore(n, v.n))
    case Arr(items) =>
      v.Arr? && (|| v.items == []
                 || (items == [] && v.items == [Null])
                 || (items != [] && v.items == items[..|items| - 1])
                 || (items != [] && v.items == items + [items[0]])
                 || LacksField(items, v.items))
    case Obj(fields) =>
      && name == "workflow.store.query" && Field(fields, "rows").Some? && Field(fields, "rows").value.Arr?
      && QueryCounterfactual(fields, Field(fields, "rows").value.items, v)
  }

  lemma {:induction false} IndexedLacks(items: seq<Json>, from: nat, k: nat)
    requires from <= |items| && k < |items|
    ensures var r := Indexed(items, from, k);
            && |r| == |items| - from - (if from <= k then 1 else 0)
            && forall j :: 0 <= j < |r| ==>
                 var at := if from <= k && from + j >= k then from + j + 1 else from + j;
                 r[j] == (Digits(at), items[at])
    decreases |items| - from
  {
    if from < |items| { IndexedLacks(items, from + 1, k); }
  }

  lemma ThinnedLacks(rows: seq<Json>, less: seq<Json>)
    ensures less in Thinned(rows) <==> LacksField(rows, less)
  {
    if rows != [] && rows[0].Obj? { ObjectThinned(rows, less); }
    if rows != [] && rows[0].Arr? { ArrayThinned(rows, less); }
  }

  lemma ObjectThinned(rows: seq<Json>, less: seq<Json>)
    requires rows != [] && rows[0].Obj?
    ensures less in Thinned(rows) <==> LacksField(rows, less)
  {
    var fields, thinned := rows[0].fields, Thinned(rows);
    assert forall k :: 0 <= k < |fields| ==> thinned[k] == [Obj(fields[..k] + fields[k + 1..])] + rows[1..];
    if LacksField(rows, less) {
      var k :| 0 <= k < |fields| && less[0].fields == fields[..k] + fields[k + 1..];
      assert less == [less[0]] + less[1..] == thinned[k];
    }
  }

  lemma ArrayThinned(rows: seq<Json>, less: seq<Json>)
    requires rows != [] && rows[0].Arr?
    ensures less in Thinned(rows) <==> LacksField(rows, less)
  {
    var items, thinned := rows[0].items, Thinned(rows);
    assert forall k :: 0 <= k < |items| ==> thinned[k] == [Obj(Indexed(items, 0, k))] + rows[1..];
    if less in thinned {
      var k :| 0 <= k < |thinned| && thinned[k] == less;
      OneLacks(items, k, Indexed(items, 0, k));
      assert less[0].fields == Indexed(items, 0, k) && less[1..] == rows[1..];
    }
    if LacksField(rows, less) {
      var k :| 0 <= k < |items| && LacksItem(items, k, less[0].fields);
      OneLacks(items, k, less[0].fields);
      assert less == [less[0]] + less[1..] == thinned[k];
    }
  }

  lemma OneLacks(items: seq<Json>, k: nat, fields: seq<(string, Json)>)
    requires k < |items|
    ensures LacksItem(items, k, fields) <==> fields == Indexed(items, 0, k)
  {
    IndexedLacks(items, 0, k);
    if LacksItem(items, k, fields) {
      assert forall j :: 0 <= j < |fields| ==> fields[j] == Indexed(items, 0, k)[j];
    }
  }

  /** These are tried, and nothing else is. */
  lemma VariantsAreCounterfactuals(name: string, value: Json)
    ensures forall v :: v in Variants(name, value) <==> Counterfactual(name, value, v)
  {
    forall v ensures v in Variants(name, value) <==> Counterfactual(name, value, v) {
      match value
      case Arr(items) => ArrayVariants(items, v);
      case Obj(fields) =>
        if name == "workflow.store.query" && Field(fields, "rows").Some? && Field(fields, "rows").value.Arr? {
          QueryVariants(fields, Field(fields, "rows").value.items, v);
        }
      case Num(n) => assert OneMore(n, PlusOne(n));
      case _ =>
    }
  }

  lemma ArrayVariants(items: seq<Json>, v: Json)
    ensures v in Variants("", Arr(items)) <==> Counterfactual("", Arr(items), v)
  {
    var thinned := Thinned(items);
    assert Variants("", Arr(items))[3..] == Arrays(thinned);
    assert v in Arrays(thinned) <==> v.Arr? && v.items in thinned by {
      assert forall k :: 0 <= k < |thinned| ==> Arrays(thinned)[k] == Arr(thinned[k]);
    }
    if v.Arr? { ThinnedLacks(items, v.items); }
  }

  lemma QueryVariants(fields: seq<(string, Json)>, rows: seq<Json>, v: Json)
    requires Field(fields, "rows") == Some(Arr(rows))
    ensures v in Variants("workflow.store.query", Obj(fields)) <==> QueryCounterfactual(fields, rows, v)
  {
    var queries := Queries(fields, Thinned(rows));
    assert Variants("workflow.store.query", Obj(fields))[2..] == queries;
    QueriesLack(fields, rows, v);
  }

  lemma QueriesLack(fields: seq<(string, Json)>, rows: seq<Json>, v: Json)
    ensures v in Queries(fields, Thinned(rows)) <==>
              exists less :: LacksField(rows, less) && v == Obj(With(fields, "rows", Arr(less)))
  {
    var queries, thinned := Queries(fields, Thinned(rows)), Thinned(rows);
    assert forall k :: 0 <= k < |thinned| ==> queries[k] == Obj(With(fields, "rows", Arr(thinned[k])));
    if v in queries {
      var k :| 0 <= k < |queries| && queries[k] == v;
      ThinnedLacks(rows, thinned[k]);
    }
    forall less | LacksField(rows, less) ensures Obj(With(fields, "rows", Arr(less))) in queries {
      ThinnedLacks(rows, less);
      var k :| 0 <= k < |thinned| && thinned[k] == less;
      assert queries[k] == Obj(With(fields, "rows", Arr(less)));
    }
  }

  function Number(digits: string): int {
    if digits == "" then 0 else Number(digits[..|digits| - 1]) * 10 + (digits[|digits| - 1] as int - '0' as int)
  }

  /** Positions are named by their decimal numerals. */
  lemma {:induction false} DigitsAreDecimal(n: nat)
    ensures Number(Digits(n)) == n && forall k :: 0 <= k < |Digits(n)| ==> '0' <= Digits(n)[k] <= '9'
    ensures Digits(n) != "" && (n >= 10 ==> Digits(n)[0] != '0')
  {
    if n >= 10 {
      DigitsAreDecimal(n / 10);
      assert Digits(n)[..|Digits(n)| - 1] == Digits(n / 10);
      if n / 10 < 10 { assert Digits(n / 10)[0] as int == '0' as int + n / 10; }
    } else {
      assert Digits(n)[..0] == "";
    }
  }

  // ---- when a changed observation is not changed at all ----

  /** The recorded contents that some counterfactual leaves as they are. A candidate cannot tell
      such a replay's observation from the recorded one. */
  predicate Indistinct(name: string, value: Json) {
    match value
    case Arr(items) => items == []
    case Text(s) => s == ""
    case Num(n) => n == 0.0 || AbsorbsOne(n)
    case Obj(fields) =>
      && name == "workflow.store.query"
      && Field(fields, "rows").Some? && Field(fields, "rows").value.Arr?
      && (Field(fields, "truncated") == Some(Bool(true))
          || (Field(fields, "rows") == Some(Arr([])) && Field(fields, "truncated") == Some(Bool(false))))
    case _ => false
  }

  lemma {:induction false} WithSame(fields: seq<(string, Json)>, name: string, value: Json)
    ensures Field(With(fields, name, value), name) == Some(value)
    ensures With(fields, name, value) == fields <==> Field(fields, name) == Some(value)
    ensures forall other :: other != name ==> Field(With(fields, name, value), other) == Field(fields, other)
  {
    if fields != [] && fields[0].0 != name {
      WithSame(fields[1..], name, value);
      var rest := With(fields[1..], name, value);
      assert With(fields, name, value)[1..] == rest;
      if rest == fields[1..] { assert fields == [fields[0]] + fields[1..]; }
    } else if fields != [] {
      var changed := With(fields, name, value);
      assert changed[0] == (name, value) && changed[1..] == fields[1..];
      if fields[0].1 == value { assert fields == [fields[0]] + fields[1..]; }
    }
  }

  lemma LackingDiffers(rows: seq<Json>)
    ensures !LacksField(rows, rows)
  {
    if rows != [] && rows[0].Obj? {
      assert forall k :: 0 <= k < |rows[0].fields| ==>
        |rows[0].fields[..k] + rows[0].fields[k + 1..]| == |rows[0].fields| - 1;
    }
  }

  lemma QueryDiffers(fields: seq<(string, Json)>, rows: seq<Json>)
    requires Field(fields, "rows") == Some(Arr(rows))
    ensures QueryCounterfactual(fields, rows, Obj(fields)) <==>
              || Field(fields, "truncated") == Some(Bool(true))
              || (rows == [] && Field(fields, "truncated") == Some(Bool(false)))
  {
    var emptied := With(fields, "rows", Arr([]));
    WithSame(fields, "rows", Arr([]));
    WithSame(emptied, "truncated", Bool(false));
    WithSame(fields, "truncated", Bool(true));
    forall less | LacksField(rows, less) ensures With(fields, "rows", Arr(less)) != fields {
      WithSame(fields, "rows", Arr(less));
      LackingDiffers(rows);
    }
  }

  /** A guard is tried on observations that differ from the recorded one, except for empty
      recordings, zeroes, numbers too large to add one to, and truncated queries: there one trial
      repeats what was recorded and still demands a hand-over. */
  lemma CounterfactualsDiffer(name: string, value: Json)
    ensures Counterfactual(name, value, value) <==> Indistinct(name, value)
  {
    match value
    case Arr(items) => LackingDiffers(items);
    case Obj(fields) =>
      if Field(fields, "rows").Some? && Field(fields, "rows").value.Arr? {
        QueryDiffers(fields, Field(fields, "rows").value.items);
      }
    case _ =>
  }
}
