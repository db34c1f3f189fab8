/** Keyed comparison of two sets of rows (packages/agent/src/dataset-verification.ts). */
module DatasetComparison {
  import opened Wrappers

  /** A value by its JSON text; strings are kept apart because only they are normalized. An
      absent field and an undefined one differ: the first is not an own property. Numbers that
      are not finite are told from null as keys, but serialize like it. */
  datatype Value = Null | Undefined | NotFinite | Text(text: string) | Other(json: string)

  function Serialized(v: Value): Value {
    if v == NotFinite then Null else v
  }

  type Row = map<string, Value>

  predicate Blank(c: char) {
    c == '\t' || c == '\r' || c == '\n'
  }

  /** Each run of tabs and line breaks becomes one space. */
  function Collapsed(text: string): string {
    if text == "" then ""
    else if !Blank(text[0]) then [text[0]] + Collapsed(text[1..])
    else if |text| > 1 && Blank(text[1]) then Collapsed(text[1..])
    else " " + Collapsed(text[1..])
  }

  function Normalized(v: Value, whitespace: bool): Value {
    if whitespace && v.Text? then Text(Collapsed(v.text)) else Serialized(v)
  }

  function KeyOf(row: Row, key: string): Option<Value> {
    if key !in row || row[key] in {Null, Undefined, Text("")} then None else Some(Serialized(row[key]))
  }

  // ---- what `verified` means ----

  predicate FieldAgrees(a: Row, b: Row, field: string, whitespace: bool) {
    field in a && field in b && Normalized(a[field], whitespace) == Normalized(b[field], whitespace)
  }

  /** Every row has a key and no two the same one. */
  ghost predicate Keyed(rows: seq<Row>, key: string) {
    && (forall i :: 0 <= i < |rows| ==> KeyOf(rows[i], key).Some?)
    && (forall i, j :: 0 <= i < j < |rows| ==> KeyOf(rows[i], key) != KeyOf(rows[j], key))
  }

  ghost predicate HasPartner(row: Row, rows: seq<Row>, key: string, fields: seq<string>, whitespace: bool) {
    exists j :: 0 <= j < |rows| && KeyOf(rows[j], key) == KeyOf(row, key)
                && forall k :: 0 <= k < |fields| ==> FieldAgrees(row, rows[j], fields[k], whitespace)
  }

  /** The two sets have the same rows, as far as key and listed fields go. */
  ghost predicate Same(a: seq<Row>, b: seq<Row>, key: string, fields: seq<string>, whitespace: bool) {
    && Keyed(a, key) && Keyed(b, key)
    && (forall i :: 0 <= i < |a| ==> HasPartner(a[i], b, key, fields, whitespace))
    && (forall i :: 0 <= i < |b| ==> HasPartner(b[i], a, key, fields, whitespace))
  }

  lemma SameIsSymmetric(a: seq<Row>, b: seq<Row>, key: string, fields: seq<string>, whitespace: bool)
    ensures Same(a, b, key, fields, whitespace) <==> Same(b, a, key, fields, whitespace)
  {
  }

  lemma PartnersCompose(row: Row, b: seq<Row>, c: seq<Row>, key: string, fields: seq<string>, whitespace: bool)
    requires HasPartner(row, b, key, fields, whitespace)
    requires forall i :: 0 <= i < |b| ==> HasPartner(b[i], c, key, fields, whitespace)
    ensures HasPartner(row, c, key, fields, whitespace)
  {
    var j :| 0 <= j < |b| && KeyOf(b[j], key) == KeyOf(row, key)
             && forall k :: 0 <= k < |fields| ==> FieldAgrees(row, b[j], fields[k], whitespace);
    assert HasPartner(b[j], c, key, fields, whitespace);
    var l :| 0 <= l < |c| && KeyOf(c[l], key) == KeyOf(b[j], key)
             && forall k :: 0 <= k < |fields| ==> FieldAgrees(b[j], c[l], fields[k], whitespace);
    forall k | 0 <= k < |fields| ensures FieldAgrees(row, c[l], fields[k], whitespace) {
      assert FieldAgrees(row, b[j], fields[k], whitespace) && FieldAgrees(b[j], c[l], fields[k], whitespace);
    }
  }

  lemma SameIsTransitive(a: seq<Row>, b: seq<Row>, c: seq<Row>, key: string, fields: seq<string>, whitespace: bool)
    requires Same(a, b, key, fields, whitespace) && Same(b, c, key, fields, whitespace)
    ensures Same(a, c, key, fields, whitespace)
  {
    forall i | 0 <= i < |a| ensures HasPartner(a[i], c, key, fields, whitespace) {
      PartnersCompose(a[i], b, c, key, fields, whitespace);
    }
    forall i | 0 <= i < |c| ensures HasPartner(c[i], a, key, fields, whitespace) {
      PartnersCompose(c[i], b, a, key, fields, whitespace);
    }
  }

  /** A set verifies against itself exactly when it is keyed and has every listed field. */
  lemma SameAsItself(a: seq<Row>, key: string, fields: seq<string>, whitespace: bool)
    ensures Same(a, a, key, fields, whitespace) <==>
              Keyed(a, key) && forall i, k :: 0 <= i < |a| && 0 <= k < |fields| ==> fields[k] in a[i]
  {
    if Same(a, a, key, fields, whitespace) {
      forall i, k | 0 <= i < |a| && 0 <= k < |fields| ensures fields[k] in a[i] {
        assert HasPartner(a[i], a, key, fields, whitespace);
        var j :| 0 <= j < |a| && forall k :: 0 <= k < |fields| ==> FieldAgrees(a[i], a[j], fields[k], whitespace);
        assert FieldAgrees(a[i], a[j], fields[k], whitespace);
      }
    }
    if Keyed(a, key) && forall i, k :: 0 <= i < |a| && 0 <= k < |fields| ==> fields[k] in a[i] {
      forall i | 0 <= i < |a| ensures HasPartner(a[i], a, key, fields, whitespace) {
        assert forall k :: 0 <= k < |fields| ==> FieldAgrees(a[i], a[i], fields[k], whitespace);
      }
    }
  }

  // ---- what is compared ----

  predicate AllBlank(text: string) {
    forall i :: 0 <= i < |text| ==> text[i] in {'\t', '\r', '\n'}
  }

  predicate NoneBlank(text: string) {
    forall i :: 0 <= i < |text| ==> text[i] !in {'\t', '\r', '\n'}
  }

  lemma {:induction false} PlainPassesThrough(plain: string, rest: string)
    requires NoneBlank(plain)
    ensures Collapsed(plain + rest) == plain + Collapsed(rest)
  {
    if plain == "" {
      assert plain + rest == rest;
    } else {
      PlainPassesThrough(plain[1..], rest);
      assert (plain + rest)[1..] == plain[1..] + rest;
      assert [plain[0]] + (plain[1..] + Collapsed(rest)) == plain + Collapsed(rest);
    }
  }

  lemma {:induction false} RunBecomesSpace(run: string, rest: string)
    requires AllBlank(run) && run != "" && (rest == "" || rest[0] !in {'\t', '\r', '\n'})
    ensures Collapsed(run + rest) == " " + Collapsed(rest)
  {
    assert (run + rest)[1..] == run[1..] + rest;
    if |run| > 1 {
      RunBecomesSpace(run[1..], rest);
    } else {
      assert run[1..] + rest == rest;
    }
  }

  /** Text without tabs and line breaks stays, and any run of them, however it is mixed, becomes
      one space: with `PlainStays` this fixes the result for every text. */
  lemma CollapsedRun(plain: string, run: string, rest: string)
    requires NoneBlank(plain) && AllBlank(run) && run != ""
    requires rest == "" || rest[0] !in {'\t', '\r', '\n'}
    ensures Collapsed(plain + run + rest) == plain + " " + Collapsed(rest)
  {
    assert plain + run + rest == plain + (run + rest);
    PlainPassesThrough(plain, run + rest);
    RunBecomesSpace(run, rest);
  }

  lemma {:induction false} PlainStays(plain: string)
    requires NoneBlank(plain)
    ensures Collapsed(plain) == plain
  {
    if plain != "" {
      PlainStays(plain[1..]);
      assert [plain[0]] + plain[1..] == plain;
    }
  }

  /** Normalizing twice is normalizing once, and nothing blank is left. */
  lemma {:induction false} CollapsedIsStable(text: string)
    ensures NoneBlank(Collapsed(text)) && Collapsed(Collapsed(text)) == Collapsed(text)
  {
    if text != "" { CollapsedIsStable(text[1..]); }
    PlainStays(Collapsed(text));
  }

  /** A row's key, and what is no key. */
  lemma KeyIs(row: Row, key: string)
    ensures KeyOf(row, key) ==
              if key !in row then None
              else match row[key]
                case Null => None
                case Undefined => None
                case NotFinite => Some(Null)
                case Text(text) => if text == "" then None else Some(row[key])
                case Other(_) => Some(row[key])
  {
  }

  /** Both rows have the field, and its values serialize alike, texts after normalization. */
  lemma FieldAgreesIff(a: Row, b: Row, field: string, whitespace: bool)
    ensures FieldAgrees(a, b, field, whitespace) <==>
              && field in a && field in b
              && (|| a[field] == b[field]
                  || (a[field] in {Null, NotFinite} && b[field] in {Null, NotFinite})
                  || (whitespace && a[field].Text? && b[field].Text?
                      && Collapsed(a[field].text) == Collapsed(b[field].text)))
  {
  }

  // ---- the comparison ----

  datatype Index = Index(byKey: map<Value, Row>, order: seq<Value>, duplicates: seq<Value>, invalid: seq<nat>)

  /** Row `i` is the one under its key, as the last with that key. */
  ghost predicate Holds(rows: seq<Row>, key: string, byKey: map<Value, Row>, v: Value, i: nat)
    requires i < |rows|
  {
    && v in byKey && rows[i] == byKey[v] && KeyOf(rows[i], key) == Some(v)
    && forall j :: i < j < |rows| ==> KeyOf(rows[j], key) != Some(v)
  }

  /** Every key is there, with a row of that key. */
  ghost predicate RowsIndexed(rows: seq<Row>, key: string, byKey: map<Value, Row>) {
    && (forall v :: v in byKey ==> exists i :: 0 <= i < |rows| && Holds(rows, key, byKey, v, i))
    && (forall i :: 0 <= i < |rows| && KeyOf(rows[i], key).Some? ==> KeyOf(rows[i], key).value in byKey)
  }

  ghost predicate Finds(rows: seq<Row>, key: string, x: Index) {
    (forall v :: v in x.byKey <==> v in x.order) && RowsIndexed(rows, key, x.byKey)
  }

  /** The index has the last row of each key, each key once, and the rows at fault. */
  ghost predicate Indexed(rows: seq<Row>, key: string, x: Index) {
    && Finds(rows, key, x)
    && (forall i, j :: 0 <= i < j < |x.order| ==> x.order[i] != x.order[j])
    && (forall v :: v in x.duplicates <==> Repeated(rows, key, v))
    && (forall i :: i in x.invalid <==> 0 <= i < |rows| && KeyOf(rows[i], key).None?)
  }

  ghost predicate Repeated(rows: seq<Row>, key: string, v: Value) {
    exists i, j :: 0 <= i < j < |rows| && KeyOf(rows[i], key) == Some(v) && KeyOf(rows[j], key) == Some(v)
  }

  lemma FaultsIffUnkeyed(rows: seq<Row>, key: string, x: Index)
    requires Indexed(rows, key, x)
    ensures x.duplicates == [] && x.invalid == [] <==> Keyed(rows, key)
  {
    NothingIn(x.duplicates);
    if !Keyed(rows, key) && x.invalid == [] {
      var i, j :| 0 <= i < j < |rows| && KeyOf(rows[i], key) == KeyOf(rows[j], key);
      assert i !in x.invalid;
      assert Repeated(rows, key, KeyOf(rows[i], key).value);
    }
    if x.invalid != [] { assert x.invalid[0] in x.invalid; }
  }

  method BuildIndex(rows: seq<Row>, key: string) returns (x: Index)
    ensures Indexed(rows, key, x)
  {
    var byKey: map<Value, Row>, order: seq<Value>, duplicates: seq<Value>, invalid: seq<nat> := map[], [], [], [];
    for i := 0 to |rows|
      invariant Indexed(rows[..i], key, Index(byKey, order, duplicates, invalid))
    {
      ghost var before := Index(byKey, order, duplicates, invalid);
      var id := KeyOf(rows[i], key);
      if id.None? {
        invalid := invalid + [i];
      } else {
        if id.value in byKey { duplicates := duplicates + [id.value]; } else { order := order + [id.value]; }
        byKey := byKey[id.value := rows[i]];
      }
      IndexedMore(rows, key, i, before, Index(byKey, order, duplicates, invalid));
    }
    assert rows[..|rows|] == rows;
    x := Index(byKey, order, duplicates, invalid);
  }

  lemma IndexedMore(rows: seq<Row>, key: string, i: nat, x: Index, x': Index)
    requires i < |rows| && Indexed(rows[..i], key, x)
    requires var id := KeyOf(rows[i], key);
             if id.None? then x' == x.(invalid := x.invalid + [i])
             else x'.byKey == x.byKey[id.value := rows[i]] && x'.invalid == x.invalid
                  && x'.duplicates == (if id.value in x.byKey then x.duplicates + [id.value] else x.duplicates)
                  && x'.order == (if id.value in x.byKey then x.order else x.order + [id.value])
    ensures Indexed(rows[..i + 1], key, x')
  {
    var a, id := rows[..i], KeyOf(rows[i], key);
    assert rows[..i + 1] == a + [rows[i]];
    RowsMore(a, rows[i], key, x.byKey);
    if id.Some? { KnownKey(rows, key, i, x.byKey, id.value); }
    DuplicatesMore(rows, key, i, x.duplicates, x'.duplicates, id.Some? && id.value in x.byKey);
    InvalidMore(rows, key, i, x.invalid);
  }

  lemma DuplicatesMore(rows: seq<Row>, key: string, i: nat, duplicates: seq<Value>, more: seq<Value>, known: bool)
    requires i < |rows| && forall v :: v in duplicates <==> Repeated(rows[..i], key, v)
    requires known <==>
               KeyOf(rows[i], key).Some? && exists j :: 0 <= j < i && KeyOf(rows[j], key) == KeyOf(rows[i], key)
    requires more == if known then duplicates + [KeyOf(rows[i], key).value] else duplicates
    ensures forall v :: v in more <==> Repeated(rows[..i + 1], key, v)
  {
    var a, b := rows[..i], rows[..i + 1];
    assert b == a + [rows[i]];
    forall v ensures Repeated(b, key, v) <==> Repeated(a, key, v) || (known && KeyOf(rows[i], key) == Some(v)) {
      if Repeated(b, key, v) && !Repeated(a, key, v) {
        var j, k :| 0 <= j < k < |b| && KeyOf(b[j], key) == Some(v) && KeyOf(b[k], key) == Some(v);
        assert b[j] == rows[j] && k == i;
      }
      if Repeated(a, key, v) {
        var j, k :| 0 <= j < k < |a| && KeyOf(a[j], key) == Some(v) && KeyOf(a[k], key) == Some(v);
        assert b[j] == a[j] && b[k] == a[k];
      }
      if known && KeyOf(rows[i], key) == Some(v) {
        var j :| 0 <= j < i && KeyOf(rows[j], key) == KeyOf(rows[i], key);
        assert b[j] == rows[j] && b[i] == rows[i];
      }
    }
  }

  lemma InvalidMore(rows: seq<Row>, key: string, i: nat, invalid: seq<nat>)
    requires i < |rows| && forall j :: j in invalid <==> 0 <= j < i && KeyOf(rows[..i][j], key).None?
    ensures var more := if KeyOf(rows[i], key).None? then invalid + [i] else invalid;
            forall j :: j in more <==> 0 <= j < i + 1 && KeyOf(rows[..i + 1][j], key).None?
  {
    assert forall j :: 0 <= j < i ==> rows[..i][j] == rows[..i + 1][j];
  }

  lemma KnownKey(rows: seq<Row>, key: string, n: nat, byKey: map<Value, Row>, v: Value)
    requires n <= |rows| && RowsIndexed(rows[..n], key, byKey)
    ensures v in byKey <==> exists j :: 0 <= j < n && KeyOf(rows[j], key) == Some(v)
  {
    var a := rows[..n];
    if v in byKey {
      var j :| 0 <= j < |a| && Holds(a, key, byKey, v, j);
      assert a[j] == rows[j];
    }
    forall j | 0 <= j < n && KeyOf(rows[j], key) == Some(v) ensures v in byKey { assert a[j] == rows[j]; }
  }

  ghost predicate HasKey(rows: seq<Row>, key: string, v: Value) {
    exists j :: 0 <= j < |rows| && KeyOf(rows[j], key) == Some(v)
  }

  lemma KnownKeys(rows: seq<Row>, key: string, byKey: map<Value, Row>)
    requires RowsIndexed(rows, key, byKey)
    ensures forall v :: v in byKey <==> HasKey(rows, key, v)
  {
    assert rows[..|rows|] == rows;
    forall v ensures v in byKey <==> HasKey(rows, key, v) { KnownKey(rows, key, |rows|, byKey, v); }
  }

  lemma RowsMore(a: seq<Row>, row: Row, key: string, byKey: map<Value, Row>)
    requires RowsIndexed(a, key, byKey)
    ensures RowsIndexed(a + [row], key, if KeyOf(row, key).Some? then byKey[KeyOf(row, key).value := row] else byKey)
  {
    var b, byKey' := a + [row], if KeyOf(row, key).Some? then byKey[KeyOf(row, key).value := row] else byKey;
    forall v | v in byKey' ensures exists j :: 0 <= j < |b| && Holds(b, key, byKey', v, j) {
      if KeyOf(row, key) == Some(v) {
        assert Holds(b, key, byKey', v, |a|);
      } else {
        var j :| 0 <= j < |a| && Holds(a, key, byKey, v, j);
        assert Holds(b, key, byKey', v, j);
      }
    }
    forall i | 0 <= i < |b| && KeyOf(b[i], key).Some? ensures KeyOf(b[i], key).value in byKey' {
      if i < |a| { assert b[i] == a[i]; }
    }
  }

  /** The faults of the expected and of the actual rows. */
  datatype Comparison = Comparison(verified: bool, missing: seq<Value>, unexpected: seq<Value>,
      mismatches: seq<(Value, string)>, duplicates: (seq<Value>, seq<Value>), invalid: (seq<nat>, seq<nat>))

  method Mismatches(a: Index, b: Index, fields: seq<string>, whitespace: bool) returns (r: seq<(Value, string)>)
    requires forall v :: v in a.order ==> v in a.byKey
    ensures forall v, f :: (v, f) in r <==>
              v in a.order && v in b.byKey && f in fields && !FieldAgrees(a.byKey[v], b.byKey[v], f, whitespace)
  {
    r := [];
    for i := 0 to |a.order|
      invariant forall v, f :: (v, f) in r <==>
        v in a.order[..i] && v in b.byKey && f in fields && !FieldAgrees(a.byKey[v], b.byKey[v], f, whitespace)
    {
      var id := a.order[i];
      ghost var before := r;
      if id in b.byKey {
        for k := 0 to |fields|
          invariant forall v, f :: (v, f) in r <==>
            ((v, f) in before || (v == id && f in fields[..k] && !FieldAgrees(a.byKey[id], b.byKey[id], f, whitespace)))
        {
          if !FieldAgrees(a.byKey[id], b.byKey[id], fields[k], whitespace) { r := r + [(id, fields[k])]; }
          assert fields[..k + 1] == fields[..k] + [fields[k]];
        }
        assert fields[..|fields|] == fields;
      }
      assert a.order[..i + 1] == a.order[..i] + [id];
    }
    assert a.order[..|a.order|] == a.order;
  }

  method Without(order: seq<Value>, byKey: map<Value, Row>) returns (r: seq<Value>)
    ensures forall v :: v in r <==> v in order && v !in byKey
  {
    r := [];
    for i := 0 to |order|
      invariant forall v :: v in r <==> v in order[..i] && v !in byKey
    {
      if order[i] !in byKey { r := r + [order[i]]; }
      assert order[..i + 1] == order[..i] + [order[i]];
    }
    assert order[..|order|] == order;
  }

  /** `verified` is exactly: the same rows. */
  method CompareDataset(expected: seq<Row>, actual: seq<Row>, key: string, fields: seq<string>,
        whitespace: bool) returns (r: Comparison)
    ensures r.verified <==> Same(expected, actual, key, fields, whitespace)
    ensures forall v :: v in r.missing <==> HasKey(expected, key, v) && !HasKey(actual, key, v)
    ensures forall v :: v in r.unexpected <==> HasKey(actual, key, v) && !HasKey(expected, key, v)
    ensures forall v, f :: (v, f) in r.mismatches <==>
              f in fields
              && exists i: nat, j: nat :: (LastOf(expected, key, v, i) && LastOf(actual, key, v, j)
                                           && !FieldAgrees(expected[i], actual[j], f, whitespace))
    ensures forall v :: v in r.duplicates.0 <==> Repeated(expected, key, v)
    ensures forall v :: v in r.duplicates.1 <==> Repeated(actual, key, v)
    ensures forall i :: i in r.invalid.0 <==> 0 <= i < |expected| && KeyOf(expected[i], key).None?
    ensures forall i :: i in r.invalid.1 <==> 0 <= i < |actual| && KeyOf(actual[i], key).None?
  {
    var a := BuildIndex(expected, key);
    var b := BuildIndex(actual, key);
    var missing := Without(a.order, b.byKey);
    var unexpected := Without(b.order, a.byKey);
    var mismatches := Mismatches(a, b, fields, whitespace);
    var verified := missing == [] && unexpected == [] && mismatches == []
                    && a.duplicates == [] && b.duplicates == [] && a.invalid == [] && b.invalid == [];
    VerdictIsSame(expected, actual, key, fields, whitespace, a, b, missing, unexpected, mismatches);
    KnownKeys(expected, key, a.byKey);
    KnownKeys(actual, key, b.byKey);
    r := Comparison(verified, missing, unexpected, mismatches, (a.duplicates, b.duplicates), (a.invalid, b.invalid));
    MismatchesAreOfLastRows(expected, actual, key, fields, whitespace, a, b, mismatches);
  }

  /** Row `i` is the last with this key. */
  ghost predicate LastOf(rows: seq<Row>, key: string, v: Value, i: nat) {
    i < |rows| && KeyOf(rows[i], key) == Some(v) && forall j :: i < j < |rows| ==> KeyOf(rows[j], key) != Some(v)
  }

  lemma MismatchesAreOfLastRows(expected: seq<Row>, actual: seq<Row>, key: string, fields: seq<string>,
      whitespace: bool, a: Index, b: Index, mismatches: seq<(Value, string)>)
    requires Indexed(expected, key, a) && Indexed(actual, key, b)
    requires forall v, f :: (v, f) in mismatches <==>
               v in a.order && v in b.byKey && f in fields && !FieldAgrees(a.byKey[v], b.byKey[v], f, whitespace)
    ensures forall v, f :: (v, f) in mismatches <==>
              f in fields
              && exists i: nat, j: nat :: (LastOf(expected, key, v, i) && LastOf(actual, key, v, j)
                                           && !FieldAgrees(expected[i], actual[j], f, whitespace))
  {
    forall v, i: nat | LastOf(expected, key, v, i) ensures v in a.byKey && a.byKey[v] == expected[i] {
      LastIsIndexed(expected, key, a.byKey, v, i);
    }
    forall v, j: nat | LastOf(actual, key, v, j) ensures v in b.byKey && b.byKey[v] == actual[j] {
      LastIsIndexed(actual, key, b.byKey, v, j);
    }
    forall v | v in a.byKey ensures exists i: nat :: LastOf(expected, key, v, i) {
      var i :| 0 <= i < |expected| && Holds(expected, key, a.byKey, v, i);
      assert LastOf(expected, key, v, i);
    }
    forall v | v in b.byKey ensures exists j: nat :: LastOf(actual, key, v, j) {
      var j :| 0 <= j < |actual| && Holds(actual, key, b.byKey, v, j);
      assert LastOf(actual, key, v, j);
    }
  }

  lemma LastIsIndexed(rows: seq<Row>, key: string, byKey: map<Value, Row>, v: Value, i: nat)
    requires RowsIndexed(rows, key, byKey) && LastOf(rows, key, v, i)
    ensures v in byKey && byKey[v] == rows[i]
  {
    var j :| 0 <= j < |rows| && Holds(rows, key, byKey, v, j);
    assert i == j;
  }

  /** With keys unique, a key's row in the index is the row itself. */
  lemma IndexHas(rows: seq<Row>, key: string, x: Index, i: nat)
    requires Finds(rows, key, x) && Keyed(rows, key) && i < |rows|
    ensures KeyOf(rows[i], key).Some? && KeyOf(rows[i], key).value in x.byKey
              && x.byKey[KeyOf(rows[i], key).value] == rows[i]
  {
    var v := KeyOf(rows[i], key).value;
    var j :| 0 <= j < |rows| && Holds(rows, key, x.byKey, v, j);
    assert j == i;
  }

  lemma NothingIn(s: seq<Value>)
    ensures s == [] <==> forall v :: v !in s
  {
    if s != [] { assert s[0] in s; }
  }

  lemma NoPairIn(s: seq<(Value, string)>)
    ensures s == [] <==> forall v, f :: (v, f) !in s
  {
    if s != [] { assert (s[0].0, s[0].1) in s; }
  }

  lemma VerdictIsSame(expected: seq<Row>, actual: seq<Row>, key: string, fields: seq<string>, whitespace: bool,
      a: Index, b: Index, missing: seq<Value>, unexpected: seq<Value>, mismatches: seq<(Value, string)>)
    requires Indexed(expected, key, a) && Indexed(actual, key, b)
    requires forall v :: v in missing <==> v in a.order && v !in b.byKey
    requires forall v :: v in unexpected <==> v in b.order && v !in a.byKey
    requires forall v, f :: (v, f) in mismatches <==>
               v in a.order && v in b.byKey && f in fields && !FieldAgrees(a.byKey[v], b.byKey[v], f, whitespace)
    ensures missing == [] && unexpected == [] && mismatches == []
            && a.duplicates == [] && b.duplicates == [] && a.invalid == [] && b.invalid == [] <==>
              Same(expected, actual, key, fields, whitespace)
  {
    FaultsIffUnkeyed(expected, key, a);
    FaultsIffUnkeyed(actual, key, b);
    if Keyed(expected, key) && Keyed(actual, key) {
      KeyedVerdictIsSame(expected, actual, key, fields, whitespace, a, b, missing, unexpected, mismatches);
    }
  }

  lemma KeyedVerdictIsSame(expected: seq<Row>, actual: seq<Row>, key: string, fields: seq<string>, whitespace: bool,
      a: Index, b: Index, missing: seq<Value>, unexpected: seq<Value>, mismatches: seq<(Value, string)>)
    requires Finds(expected, key, a) && Finds(actual, key, b) && Keyed(expected, key) && Keyed(actual, key)
    requires forall v :: v in missing <==> v in a.order && v !in b.byKey
    requires forall v :: v in unexpected <==> v in b.order && v !in a.byKey
    requires forall v, f :: (v, f) in mismatches <==>
               v in a.order && v in b.byKey && f in fields && !FieldAgrees(a.byKey[v], b.byKey[v], f, whitespace)
    ensures missing == [] && unexpected == [] && mismatches == [] <==>
              Same(expected, actual, key, fields, whitespace)
  {
    if missing == [] && unexpected == [] && mismatches == [] {
      SameFromVerdict(expected, actual, key, fields, whitespace, a, b);
    }
    if Same(expected, actual, key, fields, whitespace) {
      VerdictFromSame(expected, actual, key, fields, whitespace, a, b);
      NothingIn(missing);
      NothingIn(unexpected);
      NoPairIn(mismatches);
    }
  }

  lemma SameFromVerdict(expected: seq<Row>, actual: seq<Row>, key: string, fields: seq<string>, whitespace: bool,
        a: Index, b: Index)
    requires Finds(expected, key, a) && Finds(actual, key, b) && Keyed(expected, key) && Keyed(actual, key)
    requires forall v :: v in a.byKey <==> v in b.byKey
    requires forall v, f :: v in a.byKey && f in fields ==> FieldAgrees(a.byKey[v], b.byKey[v], f, whitespace)
    ensures Same(expected, actual, key, fields, whitespace)
  {
    forall i | 0 <= i < |expected| ensures HasPartner(expected[i], actual, key, fields, whitespace) {
      IndexHas(expected, key, a, i);
      PartnerInIndex(expected[i], actual, key, fields, whitespace, b, KeyOf(expected[i], key).value);
    }
    forall i | 0 <= i < |actual| ensures HasPartner(actual[i], expected, key, fields, whitespace) {
      IndexHas(actual, key, b, i);
      PartnerInIndex(actual[i], expected, key, fields, whitespace, a, KeyOf(actual[i], key).value);
    }
  }

  lemma PartnerInIndex(row: Row, rows: seq<Row>, key: string, fields: seq<string>, whitespace: bool, x: Index, v: Value)
    requires Finds(rows, key, x) && v in x.byKey && KeyOf(row, key) == Some(v)
    requires forall f :: f in fields ==> FieldAgrees(row, x.byKey[v], f, whitespace)
    ensures HasPartner(row, rows, key, fields, whitespace)
  {
    var j :| 0 <= j < |rows| && Holds(rows, key, x.byKey, v, j);
    forall k | 0 <= k < |fields| ensures FieldAgrees(row, rows[j], fields[k], whitespace) {
      assert fields[k] in fields;
    }
  }

  lemma PartnerIsIndexed(rows: seq<Row>, others: seq<Row>, key: string, fields: seq<string>, whitespace: bool,
        x: Index, y: Index, v: Value)
    requires Finds(rows, key, x) && Finds(others, key, y) && Keyed(others, key)
    requires forall i :: 0 <= i < |rows| ==> HasPartner(rows[i], others, key, fields, whitespace)
    requires v in x.byKey
    ensures v in y.byKey && forall f :: f in fields ==> FieldAgrees(x.byKey[v], y.byKey[v], f, whitespace)
  {
    var i :| 0 <= i < |rows| && Holds(rows, key, x.byKey, v, i);
    assert HasPartner(rows[i], others, key, fields, whitespace);
    var j :| 0 <= j < |others| && KeyOf(others[j], key) == KeyOf(rows[i], key)
             && forall k :: 0 <= k < |fields| ==> FieldAgrees(rows[i], others[j], fields[k], whitespace);
    IndexHas(others, key, y, j);
  }

  lemma VerdictFromSame(expected: seq<Row>, actual: seq<Row>, key: string, fields: seq<string>, whitespace: bool,
        a: Index, b: Index)
    requires Finds(expected, key, a) && Finds(actual, key, b) && Same(expected, actual, key, fields, whitespace)
    ensures forall v :: v in a.byKey <==> v in b.byKey
    ensures forall v, f :: v in a.byKey && f in fields ==> FieldAgrees(a.byKey[v], b.byKey[v], f, whitespace)
  {
    forall v | v in a.byKey
      ensures v in b.byKey && forall f :: f in fields ==> FieldAgrees(a.byKey[v], b.byKey[v], f, whitespace)
    {
      PartnerIsIndexed(expected, actual, key, fields, whitespace, a, b, v);
    }
    forall v | v in b.byKey ensures v in a.byKey {
      PartnerIsIndexed(actual, expected, key, fields, whitespace, b, a, v);
    }
  }
}
