/**
 * The fixtures of the tests of `calculateStylesheetSizes`, with their outcomes proved on the model:
 * the lists, sizes and budget verdicts the tests expect.
 */
module StylesheetFixtures {
  import opened Wrappers
  import opened StylesheetSizes

  function Sheet(hash: string, included: bool, priority: int, originalSize: nat, finalSize: nat): Stylesheet
  {
    Stylesheet(hash, included, priority, AMP_CUSTOM_GROUP, originalSize, finalSize, false)
  }

  /** An absent or empty list gives `null`. */
  lemma NoStylesheetsGiveNull(budget: nat, warningPercentage: int)
    requires budget > 0
    ensures Account(None, budget, warningPercentage) == None
    ensures Account(Some([]), budget, warningPercentage) == None
  {
  }

  lemma AccountedCons(x: Stylesheet, rest: seq<Stylesheet>, included: bool)
    ensures Accounted([x] + rest, included) ==
      if IsAccounted(x) && x.included == included then [x] + Accounted(rest, included) else Accounted(rest, included)
  {
    assert ([x] + rest)[1..] == rest;
  }

  lemma SortCons(x: Stylesheet, rest: seq<Stylesheet>)
    ensures SortByPriority([x] + rest) == InsertByPriority(x, SortByPriority(rest))
  {
    assert ([x] + rest)[1..] == rest;
  }

  lemma HashesCons(x: Stylesheet, rest: seq<Stylesheet>)
    ensures Hashes([x] + rest) == [x.hash] + Hashes(rest)
  {
    assert ([x] + rest)[1..] == rest;
  }

  const EXCESSIVE_1 := Sheet("excessive-1", true, 10, 200, 30)
  const INCLUDED := Sheet("included", true, 1, 100, 20)
  const EXCESSIVE_2 := Sheet("excessive-2", true, 100, 100, 0)
  const EXCLUDED_3 := Sheet("excluded-3", false, 90, 200, 30)
  const EXCLUDED_1 := Sheet("excluded-1", false, 5, 100, 20)
  const EXCLUDED_2 := Sheet("excluded-2", false, 10, 100, 0)

  const SIZES_FIXTURE: seq<Stylesheet> := [EXCESSIVE_1, INCLUDED, EXCESSIVE_2, EXCLUDED_3, EXCLUDED_1, EXCLUDED_2]

  lemma SizesFixtureAccounted()
    ensures Accounted(SIZES_FIXTURE, true) == [EXCESSIVE_1, INCLUDED, EXCESSIVE_2]
    ensures Accounted(SIZES_FIXTURE, false) == [EXCLUDED_3, EXCLUDED_1, EXCLUDED_2]
  {
    var tail := [EXCLUDED_3, EXCLUDED_1, EXCLUDED_2];
    AccountedCons(EXCLUDED_2, [], true);
    AccountedCons(EXCLUDED_1, [EXCLUDED_2], true);
    AccountedCons(EXCLUDED_3, [EXCLUDED_1, EXCLUDED_2], true);
    AccountedCons(EXCLUDED_2, [], false);
    AccountedCons(EXCLUDED_1, [EXCLUDED_2], false);
    AccountedCons(EXCLUDED_3, [EXCLUDED_1, EXCLUDED_2], false);
    AccountedCons(EXCESSIVE_2, tail, true);
    AccountedCons(INCLUDED, [EXCESSIVE_2] + tail, true);
    AccountedCons(EXCESSIVE_1, [INCLUDED, EXCESSIVE_2] + tail, true);
    AccountedCons(EXCESSIVE_2, tail, false);
    AccountedCons(INCLUDED, [EXCESSIVE_2] + tail, false);
    AccountedCons(EXCESSIVE_1, [INCLUDED, EXCESSIVE_2] + tail, false);
    assert SIZES_FIXTURE == [EXCESSIVE_1] + ([INCLUDED] + ([EXCESSIVE_2] + tail));
  }

  lemma InsertInFront(x: Stylesheet, s: seq<Stylesheet>)
    requires s == [] || x.priority <= s[0].priority
    ensures InsertByPriority(x, s) == [x] + s
  {
  }

  lemma InsertPast(x: Stylesheet, y: Stylesheet, rest: seq<Stylesheet>)
    requires y.priority < x.priority
    ensures InsertByPriority(x, [y] + rest) == [y] + InsertByPriority(x, rest)
  {
    assert ([y] + rest)[1..] == rest;
  }

  lemma SizesFixtureSorted()
    ensures SortByPriority([EXCESSIVE_1, INCLUDED, EXCESSIVE_2]) == [INCLUDED, EXCESSIVE_1, EXCESSIVE_2]
    ensures SortByPriority([EXCLUDED_3, EXCLUDED_1, EXCLUDED_2]) == [EXCLUDED_1, EXCLUDED_2, EXCLUDED_3]
  {
    SortThreeBeforeLast(EXCESSIVE_1, INCLUDED, EXCESSIVE_2);
    SortThreeToEnd(EXCLUDED_3, EXCLUDED_1, EXCLUDED_2);
  }

  lemma SortTwo(y: Stylesheet, z: Stylesheet)
    requires y.priority <= z.priority
    ensures SortByPriority([y, z]) == [y, z]
  {
    SortCons(z, []);
    SortCons(y, [z]);
    InsertInFront(y, [z]);
  }

  /** Sorting three records whose middle one has the lowest priority. */
  lemma SortThree(x: Stylesheet, y: Stylesheet, z: Stylesheet)
    requires y.priority <= z.priority && y.priority < x.priority
    ensures SortByPriority([x, y, z]) == [y] + InsertByPriority(x, [z])
  {
    SortTwo(y, z);
    SortCons(x, [y, z]);
    assert [x, y, z] == [x] + [y, z];
    assert [y, z] == [y] + [z];
    InsertPast(x, y, [z]);
  }

  lemma SortThreeBeforeLast(x: Stylesheet, y: Stylesheet, z: Stylesheet)
    requires y.priority < x.priority <= z.priority
    ensures SortByPriority([x, y, z]) == [y, x, z]
  {
    SortThree(x, y, z);
    InsertBeforeOne(x, z);
    assert [y] + [x, z] == [y, x, z];
  }

  lemma InsertBeforeOne(x: Stylesheet, z: Stylesheet)
    requires x.priority <= z.priority
    ensures InsertByPriority(x, [z]) == [x, z]
  {
    InsertInFront(x, [z]);
  }

  lemma SortThreeToEnd(x: Stylesheet, y: Stylesheet, z: Stylesheet)
    requires y.priority <= z.priority < x.priority
    ensures SortByPriority([x, y, z]) == [y, z, x]
  {
    SortThree(x, y, z);
    InsertPast(x, z, []);
    InsertInFront(x, []);
  }

  /** Sizes before and after minification, and the three lists, for a budget of 25 bytes. */
  lemma SizesFixture()
    ensures var report := Account(Some(SIZES_FIXTURE), 25, 20).value;
      && report.included == Bucket(400, 50, ["included"])
      && report.excessive == ExcessiveBucket(["excessive-1", "excessive-2"])
      && report.excluded == Bucket(400, 50, ["excluded-1", "excluded-2", "excluded-3"])
  {
    SizesFixtureAccounted();
    SizesFixtureSorted();
    SizesFixtureWalk();
    SizesFixtureExcludedHashes();
    SumsOfThree(EXCESSIVE_1, INCLUDED, EXCESSIVE_2);
    SumsOfThree(EXCLUDED_3, EXCLUDED_1, EXCLUDED_2);
  }

  /** With 25 bytes, the walk keeps only the lowest-priority record of 20 bytes. */
  lemma SizesFixtureWalk()
    ensures BudgetCut([INCLUDED, EXCESSIVE_1, EXCESSIVE_2], 25) == 1
    ensures Hashes([INCLUDED, EXCESSIVE_1, EXCESSIVE_2][..1]) == ["included"]
    ensures Hashes([INCLUDED, EXCESSIVE_1, EXCESSIVE_2][1..]) == ["excessive-1", "excessive-2"]
  {
    var sortedIncluded := [INCLUDED, EXCESSIVE_1, EXCESSIVE_2];
    assert sortedIncluded[1..] == [EXCESSIVE_1] + [EXCESSIVE_2];
    assert sortedIncluded[..1] == [INCLUDED] + [];
    HashesCons(INCLUDED, []);
    HashesCons(EXCESSIVE_2, []);
    HashesCons(EXCESSIVE_1, [EXCESSIVE_2]);
  }

  lemma SizesFixtureExcludedHashes()
    ensures Hashes([EXCLUDED_1, EXCLUDED_2, EXCLUDED_3]) == ["excluded-1", "excluded-2", "excluded-3"]
  {
    HashesCons(EXCLUDED_3, []);
    HashesCons(EXCLUDED_2, [EXCLUDED_3]);
    HashesCons(EXCLUDED_1, [EXCLUDED_2, EXCLUDED_3]);
    assert [EXCLUDED_1, EXCLUDED_2, EXCLUDED_3] == [EXCLUDED_1] + ([EXCLUDED_2] + [EXCLUDED_3]);
  }

  lemma SumsOfThree(x: Stylesheet, y: Stylesheet, z: Stylesheet)
    ensures SumOriginal([x, y, z]) == x.originalSize + y.originalSize + z.originalSize
    ensures SumFinal([x, y, z]) == x.finalSize + y.finalSize + z.finalSize
  {
    assert [x, y, z][1..] == [y, z];
    assert [y, z][1..] == [z];
    assert [z][1..] == [];
    assert SumOriginal([z]) == z.originalSize && SumFinal([z]) == z.finalSize;
    assert SumOriginal([y, z]) == y.originalSize + z.originalSize && SumFinal([y, z]) == y.finalSize + z.finalSize;
  }

  const IGNORED_FIXTURE: seq<Stylesheet> := [
    INCLUDED,
    Stylesheet("ignored", true, 100, "foo-bar", 0, 0, false),
    Stylesheet("included", false, 1, AMP_CUSTOM_GROUP, 0, 0, true)]

  /** Other groups and duplicates are not listed. */
  lemma IgnoredFixture()
    ensures Account(Some(IGNORED_FIXTURE), 75000, 80).value.included.stylesheets == ["included"]
  {
    var f := IGNORED_FIXTURE;
    AccountedCons(f[2], [], true);
    AccountedCons(f[1], [f[2]], true);
    AccountedCons(f[0], [f[1], f[2]], true);
    assert f == [f[0]] + [f[1], f[2]];
    assert Accounted(f, true) == [INCLUDED];
    SortCons(INCLUDED, []);
    HashesCons(INCLUDED, []);
    assert [INCLUDED][..BudgetCut([INCLUDED], 75000)] == [INCLUDED];
  }

  const BUDGET_1 := Sheet("1", true, 10, 100, 50)
  const BUDGET_2 := Sheet("2", true, 10, 100, 50)

  lemma BudgetFixtureTotal()
    ensures SumFinal(Accounted([BUDGET_1, BUDGET_2], true)) == 100
  {
    AccountedCons(BUDGET_2, [], true);
    AccountedCons(BUDGET_1, [BUDGET_2], true);
    assert [BUDGET_1, BUDGET_2][1..] == [BUDGET_2];
    assert [BUDGET_2][1..] == [];
    assert SumFinal([BUDGET_2]) == 50;
  }

  /** 100 bytes against budgets of 50 and 200: 200% is exceeded; 50% warns at 40% and is valid at 60%. */
  lemma BudgetFixtures()
    ensures Account(Some([BUDGET_1, BUDGET_2]), 50, 80).value.budget == Budget(200, Exceeded)
    ensures Account(Some([BUDGET_1, BUDGET_2]), 200, 40).value.budget == Budget(50, Warning)
    ensures Account(Some([BUDGET_1, BUDGET_2]), 200, 60).value.budget == Budget(50, Valid)
  {
    BudgetFixtureTotal();
    assert UsagePercent(100, 50) == 200;
    assert UsagePercent(100, 200) == 50;
  }
}
