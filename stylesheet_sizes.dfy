/**
 * The stylesheet budget accountant behind `calculateStylesheetSizes(stylesheets, budget,
 * warningPercentage)`: it takes the stylesheet records of a validated page, keeps those of
 * the `amp-custom` group that are not duplicates, splits them by `included`, lists each side
 * in ascending priority, walks the included ones with a running total of their final sizes
 * to tell the ones within the byte budget from the excessive ones, and scores the page's
 * usage of the budget as a rounded percentage with a valid/warning/exceeded status.
 */
module StylesheetSizes {
  import opened Wrappers

  /** The only style group that counts against the budget. */
  const AMP_CUSTOM_GROUP := "amp-custom"

  /**
   * One stylesheet record. A record that the source leaves without sizes (those of other
   * groups and duplicates) is given sizes 0 here; they are never read.
   */
  datatype Stylesheet = Stylesheet(
    hash: string,
    included: bool,
    priority: int,
    group: string,
    originalSize: nat,
    finalSize: nat,
    duplicate: bool)

  datatype Bucket = Bucket(originalSize: nat, finalSize: nat, stylesheets: seq<string>)

  datatype ExcessiveBucket = ExcessiveBucket(stylesheets: seq<string>)

  datatype Status = Valid | Warning | Exceeded

  datatype Budget = Budget(usage: nat, status: Status)

  datatype Report = Report(included: Bucket, excessive: ExcessiveBucket, excluded: Bucket, budget: Budget)

  /** Records of other groups and duplicates take no part in the accounting. */
  predicate IsAccounted(s: Stylesheet)
  {
    s.group == AMP_CUSTOM_GROUP && !s.duplicate
  }

  /** The accounted records whose `included` flag is `included`, in input order. */
  function Accounted(sheets: seq<Stylesheet>, included: bool): (r: seq<Stylesheet>)
    ensures |r| <= |sheets|
  {
    if sheets == [] then []
    else if IsAccounted(sheets[0]) && sheets[0].included == included then [sheets[0]] + Accounted(sheets[1..], included)
    else Accounted(sheets[1..], included)
  }

  function SumOriginal(s: seq<Stylesheet>): nat
  {
    if s == [] then 0 else s[0].originalSize + SumOriginal(s[1..])
  }

  function SumFinal(s: seq<Stylesheet>): nat
  {
    if s == [] then 0 else s[0].finalSize + SumFinal(s[1..])
  }

  /** The hashes of the records, in the same order. */
  function Hashes(s: seq<Stylesheet>): (r: seq<string>)
    ensures |r| == |s| && forall i :: 0 <= i < |s| ==> r[i] == s[i].hash
  {
    if s == [] then [] else [s[0].hash] + Hashes(s[1..])
  }

  predicate SortedByPriority(s: seq<Stylesheet>)
  {
    forall i, j :: 0 <= i < j < |s| ==> s[i].priority <= s[j].priority
  }

  /** Inserts `x` before the first record whose priority is not lower than its own. */
  function InsertByPriority(x: Stylesheet, s: seq<Stylesheet>): (r: seq<Stylesheet>)
    ensures |r| == |s| + 1
  {
    if s == [] || x.priority <= s[0].priority then [x] + s
    else [s[0]] + InsertByPriority(x, s[1..])
  }

  /**
   * Stable sort by ascending priority: an earlier record is inserted in front of the
   * equal-priority records that follow it.
   */
  function SortByPriority(s: seq<Stylesheet>): (r: seq<Stylesheet>)
    ensures |r| == |s|
  {
    if s == [] then [] else InsertByPriority(s[0], SortByPriority(s[1..]))
  }

  /** The records of priority `p`, in order. */
  function WithPriority(s: seq<Stylesheet>, p: int): seq<Stylesheet>
  {
    if s == [] then []
    else if s[0].priority == p then [s[0]] + WithPriority(s[1..], p)
    else WithPriority(s[1..], p)
  }

  /** The running total of final sizes after the walk has added record `i`. */
  function RunningTotal(s: seq<Stylesheet>, i: nat): nat
    requires i < |s|
  {
    SumFinal(s[..i + 1])
  }

  /**
   * How many leading records of `s` the running total of `final_size` keeps within
   * `budget`: the walk stops at the first record that takes the total past it.
   */
  function BudgetCut(s: seq<Stylesheet>, budget: int): (k: nat)
    ensures k <= |s|
  {
    if s == [] || s[0].finalSize > budget then 0
    else 1 + BudgetCut(s[1..], budget - s[0].finalSize)
  }

  /** The usage as a whole percentage of the budget, rounded to the nearest whole number with halves rounded up. */
  function UsagePercent(finalSize: nat, budget: nat): (usage: nat)
    requires budget > 0
    ensures (2 * usage - 1) * budget <= 200 * finalSize < (2 * usage + 1) * budget
  {
    var n, d := 200 * finalSize + budget, 2 * budget;
    var q := n / d;
    assert d * q <= n < d * q + d;
    q
  }

  /**
   * The status of a usage: the three statuses are the bands above 100, from the warning
   * percentage up to 100, and below both. A warning percentage above 100 never warns.
   */
  function BudgetStatus(usage: nat, warningPercentage: int): (r: Status)
    ensures r == Exceeded <==> usage > 100
    ensures r == Warning <==> warningPercentage <= usage <= 100
    ensures r == Valid <==> usage < warningPercentage && usage <= 100
    ensures warningPercentage > 100 ==> r != Warning
  {
    if usage > 100 then Exceeded
    else if usage >= warningPercentage then Warning
    else Valid
  }

  /** The report `calculateStylesheetSizes` returns, or `None` for its `null`. */
  function Account(stylesheets: Option<seq<Stylesheet>>, budget: nat, warningPercentage: int): (r: Option<Report>)
    requires budget > 0
    ensures r.None? <==> stylesheets.None? || stylesheets.value == []
  {
    if stylesheets.None? || stylesheets.value == [] then None
    else
      var included := Accounted(stylesheets.value, true);
      var excluded := Accounted(stylesheets.value, false);
      var sortedIncluded := SortByPriority(included);
      var cut := BudgetCut(sortedIncluded, budget);
      var usage := UsagePercent(SumFinal(included), budget);
      Some(Report(
        Bucket(SumOriginal(included), SumFinal(included), Hashes(sortedIncluded[..cut])),
        ExcessiveBucket(Hashes(sortedIncluded[cut..])),
        Bucket(SumOriginal(excluded), SumFinal(excluded), Hashes(SortByPriority(excluded))),
        Budget(usage, BudgetStatus(usage, warningPercentage))))
  }

  /**
   * The cumulative-budget walk over the included records in priority order: each record's
   * final size is added to the running total, and its hash goes to `within` while the total
   * stays within the budget and to `excessive` from then on.
   */
  method SplitByBudget(sorted: seq<Stylesheet>, budget: nat) returns (within: seq<string>, excessive: seq<string>)
    ensures within == Hashes(sorted[..BudgetCut(sorted, budget)])
    ensures excessive == Hashes(sorted[BudgetCut(sorted, budget)..])
  {
    ghost var k := BudgetCut(sorted, budget);
    var total := 0;
    within, excessive := [], [];
    var i := 0;
    while i < |sorted|
      invariant 0 <= i <= |sorted|
      invariant total == SumFinal(sorted[..i])
      invariant i <= k ==> within == Hashes(sorted[..i]) && excessive == []
      invariant k < i ==> within == Hashes(sorted[..k]) && excessive == Hashes(sorted[k..i])
    {
      RunningTotalExtends(sorted, i);
      BudgetCutIsWalk(sorted, budget, i);
      total := total + sorted[i].finalSize;
      if total <= budget {
        HashesExtend(sorted, 0, i);
        within := within + [sorted[i].hash];
      } else {
        HashesExtend(sorted, k, i);
        excessive := excessive + [sorted[i].hash];
      }
      i := i + 1;
    }
    assert sorted[..|sorted|] == sorted;
  }

  /** The walk adds one record's final size at each step. */
  lemma RunningTotalExtends(s: seq<Stylesheet>, i: nat)
    requires i < |s|
    ensures RunningTotal(s, i) == SumFinal(s[..i]) + s[i].finalSize
  {
    assert s[..i + 1] == s[..i] + [s[i]];
    SumFinalAppend(s[..i], [s[i]]);
    assert [s[i]][1..] == [];
  }

  /** The hashes of a slice grow by one when the slice does. */
  lemma HashesExtend(s: seq<Stylesheet>, lo: nat, hi: nat)
    requires lo <= hi < |s|
    ensures Hashes(s[lo..hi + 1]) == Hashes(s[lo..hi]) + [s[hi].hash]
  {
    var longer, shorter := Hashes(s[lo..hi + 1]), Hashes(s[lo..hi]) + [s[hi].hash];
    assert forall j :: 0 <= j < |longer| ==> longer[j] == shorter[j];
  }

  /** `calculateStylesheetSizes(stylesheets, budget, warningPercentage)`. */
  method CalculateStylesheetSizes(stylesheets: Option<seq<Stylesheet>>, budget: nat, warningPercentage: int)
    returns (r: Option<Report>)
    requires budget > 0
    ensures r == Account(stylesheets, budget, warningPercentage)
  {
    if stylesheets.None? || |stylesheets.value| == 0 {
      return None;
    }
    var included := Accounted(stylesheets.value, true);
    var excluded := Accounted(stylesheets.value, false);
    var within, excessive := SplitByBudget(SortByPriority(included), budget);
    var usage := UsagePercent(SumFinal(included), budget);
    r := Some(Report(
      Bucket(SumOriginal(included), SumFinal(included), within),
      ExcessiveBucket(excessive),
      Bucket(SumOriginal(excluded), SumFinal(excluded), Hashes(SortByPriority(excluded))),
      Budget(usage, BudgetStatus(usage, warningPercentage))));
  }

  // ---------------------------------------------------------------------------------------
  // Properties

  lemma {:induction false} SumFinalAppend(a: seq<Stylesheet>, b: seq<Stylesheet>)
    ensures SumFinal(a + b) == SumFinal(a) + SumFinal(b)
  {
    if a == [] {
      assert a + b == b;
    } else {
      assert (a + b)[1..] == a[1..] + b;
      SumFinalAppend(a[1..], b);
    }
  }

  /**
   * The walk keeps record `i` (in priority order) within budget exactly when the running
   * total up to and including it is at most the budget.
   */
  lemma {:induction false} BudgetCutIsWalk(s: seq<Stylesheet>, budget: int, i: nat)
    requires i < |s|
    ensures RunningTotal(s, i) <= budget <==> i < BudgetCut(s, budget)
  {
    assert s[..i + 1][1..] == s[1..][..i];
    assert RunningTotal(s, i) == s[0].finalSize + SumFinal(s[1..][..i]);
    if i > 0 && s[0].finalSize <= budget {
      BudgetCutIsWalk(s[1..], budget - s[0].finalSize, i - 1);
      assert RunningTotal(s[1..], i - 1) == SumFinal(s[1..][..i]);
    }
  }

  /**
   * Once the running total has passed the budget, every later record is excessive too,
   * whatever its own size (a record of final size 0 does not return to the included list).
   */
  lemma ExcessiveStaysExcessive(s: seq<Stylesheet>, budget: int, i: nat, j: nat)
    requires i <= j < |s|
    requires RunningTotal(s, i) > budget
    ensures RunningTotal(s, j) > budget
  {
    BudgetCutIsWalk(s, budget, i);
    BudgetCutIsWalk(s, budget, j);
  }

  /** Inserting a record keeps the relative order of every priority class and puts it in front of its own. */
  lemma {:induction false} InsertIsStable(x: Stylesheet, s: seq<Stylesheet>, p: int)
    ensures WithPriority(InsertByPriority(x, s), p) == (if x.priority == p then [x] else []) + WithPriority(s, p)
  {
    if s == [] || x.priority <= s[0].priority {
      assert ([x] + s)[1..] == s;
    } else {
      var rest := InsertByPriority(x, s[1..]);
      assert ([s[0]] + rest)[1..] == rest;
      InsertIsStable(x, s[1..], p);
    }
  }

  /** The sort is stable: records of equal priority keep their input order. */
  lemma {:induction false} SortIsStable(s: seq<Stylesheet>, p: int)
    ensures WithPriority(SortByPriority(s), p) == WithPriority(s, p)
  {
    if s != [] {
      SortIsStable(s[1..], p);
      InsertIsStable(s[0], SortByPriority(s[1..]), p);
    }
  }

  lemma {:induction false} InsertPermutes(x: Stylesheet, s: seq<Stylesheet>)
    ensures multiset(InsertByPriority(x, s)) == multiset(s) + multiset{x}
  {
    if s != [] && s[0].priority < x.priority {
      InsertPermutes(x, s[1..]);
      assert s == [s[0]] + s[1..];
    }
  }

  /** Sorting only reorders the records. */
  lemma {:induction false} SortPermutes(s: seq<Stylesheet>)
    ensures multiset(SortByPriority(s)) == multiset(s)
  {
    if s != [] {
      SortPermutes(s[1..]);
      InsertPermutes(s[0], SortByPriority(s[1..]));
      assert s == [s[0]] + s[1..];
    }
  }

  /** The first record of a sorted list, being below `x`, stays below everything after it once `x` is inserted. */
  lemma InsertKeepsLowerBound(x: Stylesheet, s: seq<Stylesheet>, rest: seq<Stylesheet>)
    requires s != [] && SortedByPriority(s) && s[0].priority < x.priority
    requires multiset(rest) == multiset(s[1..]) + multiset{x}
    ensures forall j :: 0 <= j < |rest| ==> s[0].priority <= rest[j].priority
  {
    forall j | 0 <= j < |rest| ensures s[0].priority <= rest[j].priority {
      assert rest[j] in multiset(rest);
      if rest[j] != x {
        assert rest[j] in multiset(s[1..]);
        var k :| 0 <= k < |s[1..]| && s[1..][k] == rest[j];
        assert s[k + 1] == rest[j];
      }
    }
  }

  lemma {:induction false} InsertKeepsSorted(x: Stylesheet, s: seq<Stylesheet>)
    requires SortedByPriority(s)
    ensures SortedByPriority(InsertByPriority(x, s))
  {
    if s != [] && s[0].priority < x.priority {
      var rest := InsertByPriority(x, s[1..]);
      InsertKeepsSorted(x, s[1..]);
      InsertPermutes(x, s[1..]);
      InsertKeepsLowerBound(x, s, rest);
      assert InsertByPriority(x, s) == [s[0]] + rest;
    }
  }

  /** The sort puts the records in ascending priority. */
  lemma {:induction false} SortIsSorted(s: seq<Stylesheet>)
    ensures SortedByPriority(SortByPriority(s))
  {
    if s != [] {
      SortIsSorted(s[1..]);
      InsertKeepsSorted(s[0], SortByPriority(s[1..]));
    }
  }

  lemma {:induction false} InsertHashes(x: Stylesheet, s: seq<Stylesheet>)
    ensures multiset(Hashes(InsertByPriority(x, s))) == multiset(Hashes(s)) + multiset{x.hash}
  {
    if s == [] || x.priority <= s[0].priority {
      assert Hashes([x] + s) == [x.hash] + Hashes(s);
    } else {
      var rest := InsertByPriority(x, s[1..]);
      InsertHashes(x, s[1..]);
      assert Hashes([s[0]] + rest) == [s[0].hash] + Hashes(rest);
      assert Hashes(s) == [s[0].hash] + Hashes(s[1..]);
    }
  }

  /** Sorting only reorders the hashes. */
  lemma {:induction false} SortHashes(s: seq<Stylesheet>)
    ensures multiset(Hashes(SortByPriority(s))) == multiset(Hashes(s))
  {
    if s != [] {
      SortHashes(s[1..]);
      InsertHashes(s[0], SortByPriority(s[1..]));
      assert Hashes(s) == [s[0].hash] + Hashes(s[1..]);
    }
  }

  lemma {:induction false} AccountedAppend(a: seq<Stylesheet>, b: seq<Stylesheet>, included: bool)
    ensures Accounted(a + b, included) == Accounted(a, included) + Accounted(b, included)
  {
    if a == [] {
      assert a + b == b;
    } else {
      assert (a + b)[1..] == a[1..] + b;
      AccountedAppend(a[1..], b, included);
    }
  }
  /** A record is kept for a side exactly when it is accounted and on that side. */
  lemma {:induction false} AccountedMembership(sheets: seq<Stylesheet>, included: bool)
    ensures forall x :: x in Accounted(sheets, included) <==> x in sheets && IsAccounted(x) && x.included == included
  {
    if sheets != [] {
      AccountedMembership(sheets[1..], included);
      assert forall x :: x in sheets <==> x == sheets[0] || x in sheets[1..];
    }
  }


  lemma {:induction false} SumOriginalAppend(a: seq<Stylesheet>, b: seq<Stylesheet>)
    ensures SumOriginal(a + b) == SumOriginal(a) + SumOriginal(b)
  {
    if a == [] {
      assert a + b == b;
    } else {
      assert (a + b)[1..] == a[1..] + b;
      SumOriginalAppend(a[1..], b);
    }
  }

  lemma {:induction false} InsertSums(x: Stylesheet, s: seq<Stylesheet>)
    ensures SumOriginal(InsertByPriority(x, s)) == SumOriginal(s) + x.originalSize
    ensures SumFinal(InsertByPriority(x, s)) == SumFinal(s) + x.finalSize
  {
    if s == [] || x.priority <= s[0].priority {
      assert ([x] + s)[1..] == s;
    } else {
      var rest := InsertByPriority(x, s[1..]);
      assert ([s[0]] + rest)[1..] == rest;
      InsertSums(x, s[1..]);
    }
  }

  /** Sorting does not change the sizes a bucket adds up. */
  lemma {:induction false} SortKeepsSums(s: seq<Stylesheet>)
    ensures SumOriginal(SortByPriority(s)) == SumOriginal(s)
    ensures SumFinal(SortByPriority(s)) == SumFinal(s)
  {
    if s != [] {
      SortKeepsSums(s[1..]);
      InsertSums(s[0], SortByPriority(s[1..]));
    }
  }

  /**
   * Every accounted record is listed exactly once: the included ones in `included` or in
   * `excessive`, the others in `excluded`. Records of other groups and duplicates are in none.
   */
  lemma ReportPartition(sheets: seq<Stylesheet>, budget: nat, warningPercentage: int)
    requires budget > 0 && sheets != []
    ensures var report := Account(Some(sheets), budget, warningPercentage).value;
      && multiset(report.included.stylesheets + report.excessive.stylesheets) == multiset(Hashes(Accounted(sheets, true)))
      && multiset(report.excluded.stylesheets) == multiset(Hashes(Accounted(sheets, false)))
  {
    var sorted := SortByPriority(Accounted(sheets, true));
    var cut := BudgetCut(sorted, budget);
    assert Hashes(sorted[..cut]) + Hashes(sorted[cut..]) == Hashes(sorted);
    SortHashes(Accounted(sheets, true));
    SortHashes(Accounted(sheets, false));
  }

  /**
   * The included records, in ascending priority, are listed in `included` then `excessive`;
   * record `i` of that order is in `included` exactly when the running total of final sizes
   * up to and including it stays within the budget.
   */
  lemma IncludedSplitFollowsWalk(sheets: seq<Stylesheet>, budget: nat, warningPercentage: int)
    requires budget > 0 && sheets != []
    ensures var report := Account(Some(sheets), budget, warningPercentage).value;
            var sorted := SortByPriority(Accounted(sheets, true));
      && SortedByPriority(sorted)
      && report.included.stylesheets + report.excessive.stylesheets == Hashes(sorted)
      && forall i :: 0 <= i < |sorted| ==>
           (i < |report.included.stylesheets| <==> RunningTotal(sorted, i) <= budget)
  {
    var sorted := SortByPriority(Accounted(sheets, true));
    SortIsSorted(Accounted(sheets, true));
    var cut := BudgetCut(sorted, budget);
    assert Hashes(sorted[..cut]) + Hashes(sorted[cut..]) == Hashes(sorted);
    forall i | 0 <= i < |sorted| ensures i < cut <==> RunningTotal(sorted, i) <= budget {
      BudgetCutIsWalk(sorted, budget, i);
    }
  }

  /**
   * The `included` bucket's totals count every included record, the excessive ones too:
   * they are the sums over the within-budget part plus the excessive part.
   */
  lemma IncludedTotalsCoverExcessive(sheets: seq<Stylesheet>, budget: nat, warningPercentage: int)
    requires budget > 0 && sheets != []
    ensures var report := Account(Some(sheets), budget, warningPercentage).value;
            var sorted := SortByPriority(Accounted(sheets, true));
            var cut := |report.included.stylesheets|;
      && cut <= |sorted|
      && report.included.originalSize == SumOriginal(sorted[..cut]) + SumOriginal(sorted[cut..])
      && report.included.finalSize == SumFinal(sorted[..cut]) + SumFinal(sorted[cut..])
  {
    var sorted := SortByPriority(Accounted(sheets, true));
    var cut := BudgetCut(sorted, budget);
    assert sorted == sorted[..cut] + sorted[cut..];
    SortKeepsSums(Accounted(sheets, true));
    SumOriginalAppend(sorted[..cut], sorted[cut..]);
    SumFinalAppend(sorted[..cut], sorted[cut..]);
  }

  /** Nothing is excessive exactly when the included records fit the budget altogether. */
  lemma NoExcessiveIffWithinBudget(sheets: seq<Stylesheet>, budget: nat, warningPercentage: int)
    requires budget > 0 && sheets != []
    ensures var report := Account(Some(sheets), budget, warningPercentage).value;
      report.excessive.stylesheets == [] <==> report.included.finalSize <= budget
  {
    var sorted := SortByPriority(Accounted(sheets, true));
    SortKeepsSums(Accounted(sheets, true));
    if sorted != [] {
      BudgetCutIsWalk(sorted, budget, |sorted| - 1);
      assert RunningTotal(sorted, |sorted| - 1) == SumFinal(sorted) by {
        assert sorted[..|sorted|] == sorted;
      }
    }
  }

  /**
   * A record of another group or a duplicate can be added anywhere to a non-empty list
   * without changing the report.
   */
  lemma IgnoredRecordIsInvisible(a: seq<Stylesheet>, b: seq<Stylesheet>, x: Stylesheet, budget: nat, warningPercentage: int)
    requires budget > 0 && a + b != [] && !IsAccounted(x)
    ensures Account(Some(a + [x] + b), budget, warningPercentage) == Account(Some(a + b), budget, warningPercentage)
  {
    AccountedSkipsIgnored(a, b, x, true);
    AccountedSkipsIgnored(a, b, x, false);
  }

  lemma AccountedSkipsIgnored(a: seq<Stylesheet>, b: seq<Stylesheet>, x: Stylesheet, included: bool)
    requires !IsAccounted(x)
    ensures Accounted(a + [x] + b, included) == Accounted(a + b, included)
  {
    AccountedAppend(a + [x], b, included);
    AccountedAppend(a, [x], included);
    AccountedAppend(a, b, included);
    assert [x][1..] == [];
  }

  function StatusRank(s: Status): nat
  {
    match s
    case Valid => 0
    case Warning => 1
    case Exceeded => 2
  }

  /** More final bytes never give a better status. */
  lemma StatusIsMonotone(smaller: nat, larger: nat, budget: nat, warningPercentage: int)
    requires budget > 0 && smaller <= larger
    ensures UsagePercent(smaller, budget) <= UsagePercent(larger, budget)
    ensures StatusRank(BudgetStatus(UsagePercent(smaller, budget), warningPercentage))
         <= StatusRank(BudgetStatus(UsagePercent(larger, budget), warningPercentage))
  {
    var u, v := UsagePercent(smaller, budget), UsagePercent(larger, budget);
    assert (2 * u - 1) * budget < (2 * v + 1) * budget;
    if u > v {
      assert 2 * u - 1 >= 2 * v + 1;
      MultiplyMonotone(2 * v + 1, 2 * u - 1, budget);
      assert false;
    }
  }

  lemma MultiplyMonotone(a: int, b: int, c: nat)
    requires a <= b
    ensures a * c <= b * c
  {
  }

  /**
   * The status is `exceeded` exactly when the final size is at least 100.5% of the budget:
   * rounding lets a page up to half a percent over its budget keep a warning status.
   */
  lemma ExceededThreshold(finalSize: nat, budget: nat, warningPercentage: int)
    requires budget > 0
    ensures BudgetStatus(UsagePercent(finalSize, budget), warningPercentage) == Exceeded <==> 200 * finalSize >= 201 * budget
  {
    var u := UsagePercent(finalSize, budget);
    if u > 100 {
      MultiplyMonotone(201, 2 * u - 1, budget);
    } else {
      MultiplyMonotone(2 * u + 1, 201, budget);
    }
  }
}
