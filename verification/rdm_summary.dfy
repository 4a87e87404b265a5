/**
 * The result tally of the RDM responder test tool: one pass over the tests
 * counts them per state, per category and state, and gathers their warnings;
 * a second pass over the categories derives each category's passed and run
 * numbers, skipping categories where nothing ran.
 */
module RdmTestSummary {

  /** The states a test can end in. */
  datatype TestState = Passed | Failed | Broken | NotRun

  /** What the tally reads of one test once the runner is done with it. */
  datatype TestOutcome = TestOutcome(category: string, state: TestState, warnings: seq<string>)

  /** One line of the per-category report. */
  datatype CategoryRow = CategoryRow(passed: nat, totalRun: nat)

  /** Everything the summary reports. */
  datatype Summary = Summary(
    warnings: seq<string>,
    categories: map<string, CategoryRow>,
    run: nat,
    total: nat,
    passed: nat,
    failed: nat,
    broken: nat)

  /** A dictionary lookup with default 0: an absent key counts as nothing. */
  function Get<K>(m: map<K, nat>, k: K): (r: nat)
    ensures k !in m ==> r == 0
    ensures k in m ==> r == m[k]
  {
    if k in m then m[k] else 0
  }

  /** `d[k] = d.get(k, 0) + 1`: one more occurrence of `k`, nothing else changes. */
  function Bump(m: map<TestState, nat>, k: TestState): (r: map<TestState, nat>)
    ensures r.Keys == m.Keys + {k}
    ensures forall x :: Get(r, x) == Get(m, x) + (if x == k then 1 else 0)
  {
    m[k := Get(m, k) + 1]
  }

  // Reference definitions, each built from the front of the list towards its end,
  // the order in which the tally visits the tests.

  /** How many of the tests ended in state `s`. */
  ghost function CountState(tests: seq<TestOutcome>, s: TestState): nat
  {
    if tests == [] then 0
    else CountState(tests[..|tests| - 1], s) + (if tests[|tests| - 1].state == s then 1 else 0)
  }

  /** How many of the tests are in category `c` and ended in state `s`. */
  ghost function CountIn(tests: seq<TestOutcome>, c: string, s: TestState): nat
  {
    if tests == [] then 0
    else
      var t := tests[|tests| - 1];
      CountIn(tests[..|tests| - 1], c, s) + (if t.category == c && t.state == s then 1 else 0)
  }

  /** Every test's warnings, test after test. */
  ghost function AllWarnings(tests: seq<TestOutcome>): seq<string>
  {
    if tests == [] then [] else AllWarnings(tests[..|tests| - 1]) + tests[|tests| - 1].warnings
  }

  /** The categories that at least one test belongs to. */
  ghost function CategoriesOf(tests: seq<TestOutcome>): set<string>
  {
    if tests == [] then {} else CategoriesOf(tests[..|tests| - 1]) + {tests[|tests| - 1].category}
  }

  /** The four state counts add up to the number of tests: every test has exactly one state. */
  lemma {:induction false} CountsSumToTotal(tests: seq<TestOutcome>)
    ensures CountState(tests, Passed) + CountState(tests, Failed)
          + CountState(tests, Broken) + CountState(tests, NotRun) == |tests|
  {
    if tests != [] {
      CountsSumToTotal(tests[..|tests| - 1]);
    }
  }

  /** A category is reported exactly when some test belongs to it. */
  lemma {:induction false} CategoriesMembership(tests: seq<TestOutcome>, c: string)
    ensures c in CategoriesOf(tests) <==> exists i :: 0 <= i < |tests| && tests[i].category == c
  {
    if tests != [] {
      var init := tests[..|tests| - 1];
      CategoriesMembership(init, c);
      if c in CategoriesOf(init) {
        var i :| 0 <= i < |init| && init[i].category == c;
        assert tests[i].category == c;
      }
      if exists i :: 0 <= i < |tests| && tests[i].category == c {
        var i :| 0 <= i < |tests| && tests[i].category == c;
        if i < |init| {
          assert init[i].category == c;
        }
      }
    }
  }

  /**
   * A category's count for a state never exceeds the overall count for that
   * state, and is zero for a category no test belongs to.
   */
  lemma {:induction false} CountInBounded(tests: seq<TestOutcome>, c: string, s: TestState)
    ensures CountIn(tests, c, s) <= CountState(tests, s)
    ensures c !in CategoriesOf(tests) ==> CountIn(tests, c, s) == 0
  {
    if tests != [] {
      CountInBounded(tests[..|tests| - 1], c, s);
    }
  }

  /** Warnings of two runs of tests concatenate, keeping test order. */
  lemma {:induction false} WarningsAppend(a: seq<TestOutcome>, b: seq<TestOutcome>)
    ensures AllWarnings(a + b) == AllWarnings(a) + AllWarnings(b)
    decreases |b|
  {
    if b == [] {
      assert a + b == a;
    } else {
      var init := b[..|b| - 1];
      assert (a + b)[..|a + b| - 1] == a + init;
      WarningsAppend(a, init);
    }
  }

  /** Taking one more test into the prefix adds exactly that test's contribution. */
  lemma PrefixStep(tests: seq<TestOutcome>, i: nat)
    requires i < |tests|
    ensures forall s :: CountState(tests[..i + 1], s)
                      == CountState(tests[..i], s) + (if tests[i].state == s then 1 else 0)
    ensures forall c, s :: CountIn(tests[..i + 1], c, s)
                         == CountIn(tests[..i], c, s) + (if tests[i].category == c && tests[i].state == s then 1 else 0)
    ensures CategoriesOf(tests[..i + 1]) == CategoriesOf(tests[..i]) + {tests[i].category}
    ensures AllWarnings(tests[..i + 1]) == AllWarnings(tests[..i]) + tests[i].warnings
  {
    assert tests[..i + 1][..i] == tests[..i];
  }

  /** `countByState` holds, for each state some test ended in, how many did. */
  ghost predicate StatesCounted(tests: seq<TestOutcome>, countByState: map<TestState, nat>)
  {
    && (forall s :: Get(countByState, s) == CountState(tests, s))
    && (forall s :: s in countByState <==> CountState(tests, s) > 0)
  }

  /** `byCategory` holds, for each category and each state its tests ended in, how many did. */
  ghost predicate CategoriesCounted(tests: seq<TestOutcome>, byCategory: map<string, map<TestState, nat>>)
  {
    && byCategory.Keys == CategoriesOf(tests)
    && (forall c, s :: c in byCategory ==> Get(byCategory[c], s) == CountIn(tests, c, s))
    && (forall c, s :: c in byCategory ==> (s in byCategory[c] <==> CountIn(tests, c, s) > 0))
  }

  /** What the single pass promises after the tests `tests`. */
  ghost predicate Tallied(tests: seq<TestOutcome>, countByState: map<TestState, nat>,
                          byCategory: map<string, map<TestState, nat>>, warnings: seq<string>)
  {
    StatesCounted(tests, countByState) && CategoriesCounted(tests, byCategory) && warnings == AllWarnings(tests)
  }

  /** `by_category.setdefault(c, {})`: the counts of a category, empty when it is new. */
  function CategoryCounts(byCategory: map<string, map<TestState, nat>>, c: string): (r: map<TestState, nat>)
    ensures c !in byCategory ==> r == map[]
    ensures c in byCategory ==> r == byCategory[c]
  {
    if c in byCategory then byCategory[c] else map[]
  }

  /** Counting one more test's state. */
  lemma StateStep(tests: seq<TestOutcome>, i: nat, countByState: map<TestState, nat>)
    requires i < |tests|
    requires StatesCounted(tests[..i], countByState)
    ensures StatesCounted(tests[..i + 1], Bump(countByState, tests[i].state))
  {
    PrefixStep(tests, i);
  }

  /** Counting one more test under its category. */
  lemma CategoryStep(tests: seq<TestOutcome>, i: nat, byCategory: map<string, map<TestState, nat>>)
    requires i < |tests|
    requires CategoriesCounted(tests[..i], byCategory)
    ensures CategoriesCounted(tests[..i + 1],
      byCategory[tests[i].category := Bump(CategoryCounts(byCategory, tests[i].category), tests[i].state)])
  {
    var test, prefix, next := tests[i], tests[..i], tests[..i + 1];
    PrefixStep(tests, i);
    var counts := CategoryCounts(byCategory, test.category);
    var byCategory' := byCategory[test.category := Bump(counts, test.state)];
    forall s ensures Get(counts, s) == CountIn(prefix, test.category, s)
                  && (s in counts <==> CountIn(prefix, test.category, s) > 0)
    {
      CountInBounded(prefix, test.category, s);
    }
    forall c, s | c in byCategory'
      ensures Get(byCategory'[c], s) == CountIn(next, c, s)
      ensures s in byCategory'[c] <==> CountIn(next, c, s) > 0
    {
      if c != test.category {
        assert byCategory'[c] == byCategory[c];
      }
    }
  }

  /** The single pass over the tests, updating the dictionaries in place. */
  method Tally(tests: seq<TestOutcome>)
    returns (countByState: map<TestState, nat>, byCategory: map<string, map<TestState, nat>>, warnings: seq<string>)
    ensures Tallied(tests, countByState, byCategory, warnings)
  {
    countByState, byCategory, warnings := map[], map[], [];
    var i := 0;
    while i < |tests|
      invariant 0 <= i <= |tests|
      invariant Tallied(tests[..i], countByState, byCategory, warnings)
    {
      var test := tests[i];
      StateStep(tests, i, countByState);
      CategoryStep(tests, i, byCategory);
      PrefixStep(tests, i);
      countByState := Bump(countByState, test.state);
      warnings := warnings + test.warnings;
      byCategory := byCategory[test.category := Bump(CategoryCounts(byCategory, test.category), test.state)];
      i := i + 1;
    }
    assert tests[..|tests|] == tests;
  }

  /** What one category line reports: passed, and passed plus failed. */
  function Row(counts: map<TestState, nat>): (r: CategoryRow)
    ensures r.passed == Get(counts, Passed)
    ensures r.passed <= r.totalRun
    ensures r.totalRun - r.passed == Get(counts, Failed)
  {
    CategoryRow(Get(counts, Passed), Get(counts, Passed) + Get(counts, Failed))
  }

  /**
   * The pass over the categories, in no particular order: a category gets a
   * row unless none of its tests passed or failed.
   */
  method CategoryReport(byCategory: map<string, map<TestState, nat>>) returns (rows: map<string, CategoryRow>)
    ensures rows.Keys <= byCategory.Keys
    ensures forall c :: c in byCategory ==>
      (c in rows <==> Get(byCategory[c], Passed) + Get(byCategory[c], Failed) > 0)
    ensures forall c :: c in rows ==>
      rows[c].passed == Get(byCategory[c], Passed)
      && rows[c].totalRun == Get(byCategory[c], Passed) + Get(byCategory[c], Failed)
  {
    rows := map[];
    var remaining := byCategory.Keys;
    while remaining != {}
      invariant remaining <= byCategory.Keys
      invariant rows.Keys <= byCategory.Keys - remaining
      invariant forall c :: c in byCategory && c !in remaining ==>
        (c in rows <==> Get(byCategory[c], Passed) + Get(byCategory[c], Failed) > 0)
      invariant forall c :: c in rows ==> rows[c] == Row(byCategory[c])
      decreases |remaining|
    {
      var c :| c in remaining;
      var row := Row(byCategory[c]);
      if row.totalRun != 0 {
        rows := rows[c := row];
      }
      remaining := remaining - {c};
    }
  }

  /**
   * The whole summary: warnings in test order, the per-category rows, and the
   * "run / total, passed, failed, broken" numbers, where run excludes the tests
   * that were not run.
   */
  method DisplaySummary(tests: seq<TestOutcome>) returns (summary: Summary)
    ensures summary.total == |tests|
    ensures summary.run == |tests| - CountState(tests, NotRun)
    ensures summary.passed == CountState(tests, Passed)
    ensures summary.failed == CountState(tests, Failed)
    ensures summary.broken == CountState(tests, Broken)
    ensures summary.run == summary.passed + summary.failed + summary.broken
    ensures summary.warnings == AllWarnings(tests)
    ensures forall c :: c in summary.categories <==>
      c in CategoriesOf(tests) && CountIn(tests, c, Passed) + CountIn(tests, c, Failed) > 0
    ensures forall c :: c in summary.categories ==>
      summary.categories[c]
        == CategoryRow(CountIn(tests, c, Passed), CountIn(tests, c, Passed) + CountIn(tests, c, Failed))
  {
    var countByState, byCategory, warnings := Tally(tests);
    var total := Get(countByState, Passed) + Get(countByState, Failed)
               + Get(countByState, Broken) + Get(countByState, NotRun);
    CountsSumToTotal(tests);
    var rows := CategoryReport(byCategory);
    summary := Summary(warnings, rows, total - Get(countByState, NotRun), total,
                       Get(countByState, Passed), Get(countByState, Failed), Get(countByState, Broken));
  }
}
