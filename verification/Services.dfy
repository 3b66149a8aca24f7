/**
 * The lifecycle service: a program is stored only after its tests passed, and
 * what is executed is the stored program.
 */
module Services {
  import opened Texts
  import opened Json
  import opened Limits
  import opened Operators
  import opened Canonical
  import opened Cells
  import opened Registries
  import opened RegistryRuns
  import opened StoredPrograms
  import SchemaOrder
  import P = Programs

  const MAX_TEST_CASES := 100
  const MAX_TEST_NAME := 80
  const MAX_TOKEN_ESTIMATE := 1_000_000
  const ENGINE_VERSION := Ascii("1.0.0")
  const IR_VERSION := 1

  const CASE_NAME := Ascii("name")
  const CASE_INPUT := Ascii("input")
  const CASE_EXPECTED := Ascii("expected")

  // ----- tests -----

  /** One exact test. */
  datatype Case = Case(name: Text, input: Json, expected: Json)

  function DefaultName(i: nat): Text {
    Ascii("case_") + IntText(i + 1)
  }

  /** The i-th test of a request, if it has the right shape. */
  function CaseOf(test: Json, i: nat): Option<Case> {
    if !test.Obj? then None
    else
      var fields := test.fields;
      var input, expected := Lookup(fields, CASE_INPUT), Lookup(fields, CASE_EXPECTED);
      var name := if HasKey(fields, CASE_NAME) then Lookup(fields, CASE_NAME).value else Str(DefaultName(i));
      if (exists k :: 0 <= k < |fields| && fields[k].key !in {CASE_NAME, CASE_INPUT, CASE_EXPECTED}) then None
      else if input.None? || expected.None? then None
      else if !name.Str? || name.text == [] || |name.text| > MAX_TEST_NAME then None
      else Some(Case(name.text, input.value, expected.value))
  }

  function CasesFrom(tests: seq<Json>, i: nat): Option<seq<Case>>
    requires i <= |tests|
    decreases |tests| - i
  {
    if i == |tests| then Some([])
    else
      var first := CaseOf(tests[i], i);
      if first.None? then None
      else
        var rest := CasesFrom(tests, i + 1);
        if rest.None? then None else Some([first.value] + rest.value)
  }

  function CasesOf(tests: Json): Option<seq<Case>> {
    if !tests.Arr? || tests.items == [] || |tests.items| > MAX_TEST_CASES then None else CasesFrom(tests.items, 0)
  }

  /** `_validated_tests`, which appends the normalized cases one by one. */
  method ValidatedTests(tests: Json) returns (r: Option<seq<Case>>)
    ensures r == CasesOf(tests)
  {
    hide CaseOf;
    if !tests.Arr? || tests.items == [] || |tests.items| > MAX_TEST_CASES {
      return None;
    }
    var cases: seq<Case> := [];
    ghost var all := CasesFrom(tests.items, 0);
    assert all.Some? ==> cases + all.value == all.value;
    for i := 0 to |tests.items|
      invariant var rest := CasesFrom(tests.items, i);
                all == if rest.None? then None else Some(cases + rest.value)
    {
      var next := CaseOf(tests.items[i], i);
      if next.None? {
        return None;
      }
      var rest := CasesFrom(tests.items, i + 1);
      if rest.Some? {
        assert cases + ([next.value] + rest.value) == (cases + [next.value]) + rest.value;
      }
      cases := cases + [next.value];
    }
    assert cases + [] == cases;
    r := Some(cases);
  }

  function CaseJson(c: Case): Json {
    Obj([Field(CASE_NAME, Str(c.name)), Field(CASE_INPUT, c.input), Field(CASE_EXPECTED, c.expected)])
  }

  function CasesJson(cases: seq<Case>): (r: Json)
    ensures r.Arr? && |r.items| == |cases|
  {
    if cases == [] then Arr([]) else Arr([CaseJson(cases[0])] + CasesJson(cases[1..]).items)
  }

  /** The program maps the case's input to the expected canonical text. */
  predicate PassesCase(program: Json, input: Json, expected: Json, l: Limits, strings: Strings) {
    var r := P.Run(program, input, l, strings);
    r.Ok? && Clean(expected) && Render(r.value) == Render(expected)
  }

  predicate PassesTest(program: Json, test: Json, l: Limits, strings: Strings) {
    test.Obj? && HasKey(test.fields, CASE_INPUT) && HasKey(test.fields, CASE_EXPECTED)
    && PassesCase(program, Lookup(test.fields, CASE_INPUT).value, Lookup(test.fields, CASE_EXPECTED).value, l, strings)
  }

  /** The program passes each test of a stored test array, and there is one. */
  predicate PassesTests(program: Json, tests: Json, l: Limits, strings: Strings) {
    tests.Arr? && tests.items != [] && forall i :: 0 <= i < |tests.items| ==> PassesTest(program, tests.items[i], l, strings)
  }

  // ----- storing keeps the verdict -----

  /** A case passes on the submitted program exactly when it passes, sorted, on the stored one. */
  lemma CaseStored(program: Json, input: Json, expected: Json, l: Limits, strings: Strings)
    requires WellFormed(program) && WellFormed(input) && WellFormed(expected)
    ensures PassesCase(program, input, expected, l, strings)
            <==> PassesCase(Normalize(program), Normalize(input), Normalize(expected), l, strings)
  {
    hide P.Run, WellFormed, Clean, Normalize, Render;
    StoredProgramRuns(program, input, l, strings);
    RenderNormalizes(expected);
    SchemaOrder.CleanNormalizes(expected);
  }

  lemma TestStored(program: Json, test: Json, l: Limits, strings: Strings)
    requires WellFormed(program) && WellFormed(test)
    ensures PassesTest(program, test, l, strings) <==> PassesTest(Normalize(program), Normalize(test), l, strings)
  {
    hide PassesCase, NormalizeFields, SortByKey, Lookup;
    if test.Obj? {
      SchemaOrder.KeywordNormalizes(test.fields, CASE_INPUT);
      SchemaOrder.KeywordNormalizes(test.fields, CASE_EXPECTED);
      var input, expected := Lookup(test.fields, CASE_INPUT), Lookup(test.fields, CASE_EXPECTED);
      if input.Some? && expected.Some? {
        CaseStored(program, input.value, expected.value, l, strings);
      }
    }
  }

  lemma TestsStored(program: Json, tests: Json, l: Limits, strings: Strings)
    requires WellFormed(program) && WellFormed(tests)
    ensures PassesTests(program, tests, l, strings) <==> PassesTests(Normalize(program), Normalize(tests), l, strings)
  {
    hide PassesTest, NormalizeFields, NormalizeItems, SortByKey;
    if tests.Arr? {
      var items := tests.items;
      forall i | 0 <= i < |items|
        ensures PassesTest(program, items[i], l, strings) <==> PassesTest(Normalize(program), NormalizeItems(items)[i], l, strings)
      {
        NormalizeItemsAt(items, i);
        TestStored(program, items[i], l, strings);
      }
      assert Normalize(tests) == Arr(NormalizeItems(items));
    }
  }

  /** The cases are well-formed JSON when the tests they came from are. */
  lemma {:induction false} CasesFromWellFormed(tests: seq<Json>, i: nat)
    requires i <= |tests| && forall k :: 0 <= k < |tests| ==> WellFormed(tests[k])
    ensures var cases := CasesFrom(tests, i);
            cases.Some? ==> |cases.value| == |tests| - i && WellFormed(CasesJson(cases.value))
    decreases |tests| - i
  {
    hide WellFormed, CaseOf, CaseJson;
    if i < |tests| {
      CasesFromWellFormed(tests, i + 1);
      var first, rest := CaseOf(tests[i], i), CasesFrom(tests, i + 1);
      if first.Some? && rest.Some? {
        CaseWellFormed(tests[i], i);
        var cases := [first.value] + rest.value;
        assert cases[1..] == rest.value;
        ArrayPrepend(CaseJson(first.value), CasesJson(rest.value).items);
      }
    } else {
      RegistryRuns.EmptyWellFormed();
    }
  }

  lemma ArrayPrepend(v: Json, items: seq<Json>)
    requires WellFormed(v) && WellFormed(Arr(items))
    ensures WellFormed(Arr([v] + items))
  {
  }

  lemma CaseWellFormed(test: Json, i: nat)
    requires WellFormed(test) && CaseOf(test, i).Some?
    ensures WellFormed(CaseJson(CaseOf(test, i).value))
  {
    hide Lookup;
    LookupFindsKey(test.fields, CASE_INPUT);
    LookupFindsKey(test.fields, CASE_EXPECTED);
    CaseKeysDiffer();
    assert WellFormed(Str(CaseOf(test, i).value.name));
  }

  lemma CaseKeysDiffer()
    ensures CASE_NAME != CASE_INPUT && CASE_NAME != CASE_EXPECTED && CASE_INPUT != CASE_EXPECTED
  {
    assert |CASE_NAME| == 4 && |CASE_INPUT| == 5 && |CASE_EXPECTED| == 8;
  }

  lemma CaseFields(c: Case)
    ensures Lookup(CaseJson(c).fields, CASE_INPUT) == Some(c.input)
    ensures Lookup(CaseJson(c).fields, CASE_EXPECTED) == Some(c.expected)
  {
    CaseKeysDiffer();
    hide Lookup;
    var fields := CaseJson(c).fields;
    LookupAt(fields, 1);
    LookupAt(fields, 2);
  }
}
