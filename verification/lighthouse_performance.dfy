/** The performance helpers: the performance score, the Core Web Vitals threshold checks, the mobile/desktop
    comparison, the performance budget and the LCP opportunities, each over the result of its audit run. */
module LighthousePerformance {
  import opened Wrappers
  import opened Seqs
  import opened LighthouseConstants
  import opened LighthouseTypes
  import opened LighthouseCore

  const PERFORMANCE: string := "performance"
  const LCP_METRIC: string := "largest-contentful-paint"
  const FCP_METRIC: string := "first-contentful-paint"
  const CLS_METRIC: string := "cumulative-layout-shift"
  const TBT_METRIC: string := "total-blocking-time"

  /** The run every helper here asks for, except the comparison: `["performance"]` on the device, unthrottled. */
  function PerformanceRequest(url: string, device: Device): (q: AuditRequest)
    ensures q.url == url && q.categories == Some([PERFORMANCE]) && q.device == device && !q.throttling
  {
    CategoryRequest(url, PERFORMANCE, device)
  }

  /** `categories[key]?.score || 0`: a formatted score, 0 for a missing category. */
  function CategoryScoreOf(categories: seq<(string, CategoryScore)>, key: string): int {
    match Lookup(categories, key)
    case Some(category) => category.score
    case None => 0
  }

  /** `metric?.value || 0`: a metric's value, 0 for a missing metric. */
  function MetricValueOf(metric: Option<Metric>): real {
    match metric
    case Some(m) => m.value
    case None => 0.0
  }

  /** The score read under a key from the formatted categories: that raw category's formatted score, 0 when
      it is missing. */
  lemma CategoryScoreOfRaw(categories: seq<(string, Category)>, key: string)
    ensures Lookup(categories, key).None? ==> CategoryScoreOf(CategoryScores(categories), key) == 0
    ensures Lookup(categories, key).Some? ==>
      CategoryScoreOf(CategoryScores(categories), key) == FormatCategory(Lookup(categories, key).value).score
  {
    LookupCategoryScores(categories, key);
  }

  /** A formatted category whose raw score lies in [0, 1] scores within 0..100. */
  lemma FormattedScoreBounds(category: Category)
    requires category.score.Some? && 0.0 <= category.score.value <= 1.0
    ensures 0 <= FormatCategory(category).score <= 100
  {
    RoundPercentBounds(category.score.value);
  }

  // ---------------------------------------------------------------------------------------------------
  // getPerformanceScore

  datatype PerformanceScoreReport = PerformanceScoreReport(
    url: string,
    device: Device,
    performanceScore: int,
    metrics: Dict<Metric>,
    fetchTime: string)

  /** `getPerformanceScore` over the normalised result of its run. */
  function GetPerformanceScore(result: AuditResult): PerformanceScoreReport {
    PerformanceScoreReport(
      result.url, result.device, CategoryScoreOf(result.categories, PERFORMANCE), result.metrics, result.fetchTime)
  }

  /** Over a raw result: the identity fields and the key metrics are passed on. */
  lemma PerformanceScoreFields(lhr: Lhr, device: Device)
    ensures var report := GetPerformanceScore(FormatAuditResult(lhr, device));
      report.url == lhr.finalDisplayedUrl && report.device == device && report.fetchTime == lhr.fetchTime &&
      report.metrics == KeyMetrics(lhr.audits)
  {
  }

  /** Over a raw result: the score is the formatted performance score (the rounded percentage), 0 when the
      category is missing, and within 0..100 for a raw score in [0, 1]. */
  lemma PerformanceScoreSpec(lhr: Lhr, device: Device)
    ensures var category := Lookup(lhr.categories, PERFORMANCE);
      GetPerformanceScore(FormatAuditResult(lhr, device)).performanceScore ==
        if category.Some? then FormatCategory(category.value).score else 0
    ensures var category := Lookup(lhr.categories, PERFORMANCE);
      category.Some? && category.value.score.Some? && 0.0 <= category.value.score.value <= 1.0 ==>
        0 <= GetPerformanceScore(FormatAuditResult(lhr, device)).performanceScore <= 100
  {
    assert FormatAuditResult(lhr, device).categories == CategoryScores(lhr.categories);
    CategoryScoreOfRaw(lhr.categories, PERFORMANCE);
    var category := Lookup(lhr.categories, PERFORMANCE);
    if category.Some? && category.value.score.Some? && 0.0 <= category.value.score.value <= 1.0 {
      FormattedScoreBounds(category.value);
    }
  }

  // ---------------------------------------------------------------------------------------------------
  // getCoreWebVitals

  datatype CoreWebVitals = CoreWebVitals(lcp: Option<Metric>, fcp: Option<Metric>, cls: Option<Metric>, tbt: Option<Metric>)

  /** The optional thresholds: LCP in seconds, FID in milliseconds (checked against TBT), CLS unitless. */
  datatype Thresholds = Thresholds(lcp: Option<real>, fid: Option<real>, cls: Option<real>)

  /** One verdict per threshold; `None` is the source's `null`. */
  datatype ThresholdResults = ThresholdResults(lcp: Option<bool>, fid: Option<bool>, cls: Option<bool>)

  datatype CoreWebVitalsReport = CoreWebVitalsReport(
    url: string,
    device: Device,
    coreWebVitals: CoreWebVitals,
    thresholdResults: Option<ThresholdResults>,
    fetchTime: string)

  /** A threshold is checked only when it is given and non-zero (JavaScript truthiness). */
  function CheckThreshold(actual: real, threshold: Option<real>): Option<bool> {
    if threshold.Some? && threshold.value != 0.0 then Some(actual <= threshold.value) else None
  }

  function CheckThresholds(vitals: CoreWebVitals, threshold: Thresholds): ThresholdResults {
    ThresholdResults(
      CheckThreshold(MetricValueOf(vitals.lcp) / 1000.0, threshold.lcp),
      CheckThreshold(MetricValueOf(vitals.tbt), threshold.fid),
      CheckThreshold(MetricValueOf(vitals.cls), threshold.cls))
  }

  /** `getCoreWebVitals` over the normalised result of its run. */
  function GetCoreWebVitals(result: AuditResult, threshold: Option<Thresholds>): CoreWebVitalsReport {
    var vitals := CoreWebVitals(
      Lookup(result.metrics, LCP_METRIC),
      Lookup(result.metrics, FCP_METRIC),
      Lookup(result.metrics, CLS_METRIC),
      Lookup(result.metrics, TBT_METRIC));
    CoreWebVitalsReport(
      result.url,
      result.device,
      vitals,
      if threshold.Some? then Some(CheckThresholds(vitals, threshold.value)) else None,
      result.fetchTime)
  }

  /** Without thresholds there are no verdicts. With them, each verdict is absent exactly when its threshold is
      absent or 0; otherwise LCP passes iff its milliseconds are at most 1000 times the threshold in seconds,
      FID iff total blocking time is at most its threshold, CLS iff the shift is at most its threshold, a
      missing metric counting as 0. */
  lemma CoreWebVitalsSpec(result: AuditResult, threshold: Option<Thresholds>)
    ensures var r := GetCoreWebVitals(result, threshold);
      r.url == result.url && r.device == result.device && r.fetchTime == result.fetchTime &&
      r.coreWebVitals.lcp == Lookup(result.metrics, LCP_METRIC) && r.coreWebVitals.tbt == Lookup(result.metrics, TBT_METRIC) &&
      r.coreWebVitals.fcp == Lookup(result.metrics, FCP_METRIC) && r.coreWebVitals.cls == Lookup(result.metrics, CLS_METRIC)
    ensures GetCoreWebVitals(result, threshold).thresholdResults.None? <==> threshold.None?
    ensures threshold.Some? ==>
      var t := threshold.value;
      var verdicts := GetCoreWebVitals(result, threshold).thresholdResults.value;
      (verdicts.lcp.None? <==> t.lcp.None? || t.lcp.value == 0.0) &&
      (verdicts.fid.None? <==> t.fid.None? || t.fid.value == 0.0) &&
      (verdicts.cls.None? <==> t.cls.None? || t.cls.value == 0.0)
    ensures threshold.Some? ==>
      var t := threshold.value;
      var verdicts := GetCoreWebVitals(result, threshold).thresholdResults.value;
      (verdicts.lcp.Some? ==>
        (verdicts.lcp.value <==> MetricValueOf(Lookup(result.metrics, LCP_METRIC)) <= 1000.0 * t.lcp.value)) &&
      (verdicts.fid.Some? ==>
        (verdicts.fid.value <==> MetricValueOf(Lookup(result.metrics, TBT_METRIC)) <= t.fid.value)) &&
      (verdicts.cls.Some? ==>
        (verdicts.cls.value <==> MetricValueOf(Lookup(result.metrics, CLS_METRIC)) <= t.cls.value))
  {
    if threshold.Some? && threshold.value.lcp.Some? {
      SecondsWithin(MetricValueOf(Lookup(result.metrics, LCP_METRIC)), threshold.value.lcp.value);
    }
  }

  /** Milliseconds converted to seconds are within a limit in seconds iff the milliseconds are within 1000 times it. */
  lemma SecondsWithin(milliseconds: real, limit: real)
    ensures milliseconds / 1000.0 <= limit <==> milliseconds <= 1000.0 * limit
  {
    assert milliseconds == (milliseconds / 1000.0) * 1000.0;
  }

  /** A metric the run did not report counts as 0: it meets any positive threshold and fails any negative one. */
  lemma MissingMetricCountsAsZero(result: AuditResult, t: Thresholds)
    requires Lookup(result.metrics, LCP_METRIC).None? && t.lcp.Some? && t.lcp.value != 0.0
    ensures GetCoreWebVitals(result, Some(t)).thresholdResults.value.lcp == Some(t.lcp.value > 0.0)
  {
  }

  // ---------------------------------------------------------------------------------------------------
  // compareMobileDesktop

  /** The two runs of the comparison: mobile first, then desktop, with the same url, categories and throttling. */
  function ComparisonRequests(url: string, categories: Option<seq<string>>, throttling: bool): (runs: seq<AuditRequest>)
    ensures |runs| == 2 && runs[0].device == Mobile && runs[1].device == Desktop
    ensures forall i | 0 <= i < 2 ::
      runs[i].url == url && runs[i].categories == categories && runs[i].throttling == throttling
  {
    [AuditRequest(url, categories, Mobile, throttling), AuditRequest(url, categories, Desktop, throttling)]
  }

  datatype Difference = Difference(mobile: int, desktop: int, difference: int)

  datatype Comparison = Comparison(
    url: string,
    mobileCategories: Dict<CategoryScore>,
    mobileMetrics: Dict<Metric>,
    desktopCategories: Dict<CategoryScore>,
    desktopMetrics: Dict<Metric>,
    differences: Dict<Difference>)

  function DifferenceOf(mobile: CategoryScore, desktop: CategoryScore): Difference {
    Difference(mobile.score, desktop.score, desktop.score - mobile.score)
  }

  /** Whether a run scored the category under a key. */
  function ScoredBy(categories: Dict<CategoryScore>): string -> bool {
    key => Lookup(categories, key).Some?
  }

  /** What one mobile category adds to the differences: its difference when desktop has the same key. */
  function DifferenceEntry(entry: (string, CategoryScore), desktop: Dict<CategoryScore>): (r: seq<(string, Difference)>)
    ensures Keys(r) == if Lookup(desktop, entry.0).Some? then [entry.0] else []
  {
    match Lookup(desktop, entry.0)
    case Some(d) => [(entry.0, DifferenceOf(entry.1, d))]
    case None => []
  }

  /** The differences collected over the mobile categories, in mobile order, for those desktop also has. */
  function Differences(mobile: seq<(string, CategoryScore)>, desktop: Dict<CategoryScore>): (r: seq<(string, Difference)>)
    ensures Keys(r) == Filter(Keys(mobile), ScoredBy(desktop))
  {
    if mobile == [] then []
    else
      var pre := mobile[..|mobile| - 1];
      KeysAppend(Differences(pre, desktop), DifferenceEntry(mobile[|mobile| - 1], desktop));
      assert Keys(mobile)[..|pre|] == Keys(pre);
      Differences(pre, desktop) + DifferenceEntry(mobile[|mobile| - 1], desktop)
  }

  /** The differences of a dictionary of mobile categories are a dictionary. */
  lemma DifferencesDistinct(mobile: Dict<CategoryScore>, desktop: Dict<CategoryScore>)
    ensures DistinctKeys(Differences(mobile, desktop))
  {
    DistinctKeysIff(mobile);
    FilterIsSubseq(Keys(mobile), ScoredBy(desktop));
    SubseqOfDistinct(Keys(Differences(mobile, desktop)), Keys(mobile));
    DistinctKeysIff(Differences(mobile, desktop));
  }

  /** The differences after one more mobile category are those so far followed by that category's entry. */
  lemma DifferencesAppend(mobile: seq<(string, CategoryScore)>, desktop: Dict<CategoryScore>, i: nat)
    requires i < |mobile|
    ensures Differences(mobile[..i + 1], desktop) == Differences(mobile[..i], desktop) + DifferenceEntry(mobile[i], desktop)
  {
    assert mobile[..i + 1][..i] == mobile[..i];
  }

  /** Walking the mobile categories, the next key has no difference yet. */
  lemma DifferencesFresh(mobile: Dict<CategoryScore>, desktop: Dict<CategoryScore>, i: nat)
    requires i < |mobile|
    ensures mobile[i].0 !in Keys(Differences(mobile[..i], desktop))
  {
    var prefix := mobile[..i];
    NextKeyIsNew(mobile, i);
    FilterMembers(Keys(prefix), ScoredBy(desktop));
  }

  /** One more mobile category: writing its difference, when desktop has it, appends it under a new key. */
  lemma DifferencesStep(mobile: Dict<CategoryScore>, desktop: Dict<CategoryScore>, i: nat, differences: Dict<Difference>)
    requires i < |mobile| && differences == Differences(mobile[..i], desktop)
    ensures Lookup(desktop, mobile[i].0).Some? ==>
      var d := DifferenceOf(mobile[i].1, Lookup(desktop, mobile[i].0).value);
      Put(differences, mobile[i].0, d) == differences + [(mobile[i].0, d)] == Differences(mobile[..i + 1], desktop)
    ensures Lookup(desktop, mobile[i].0).None? ==> differences == Differences(mobile[..i + 1], desktop)
  {
    DifferencesAppend(mobile, desktop, i);
    DifferencesFresh(mobile, desktop, i);
  }

  /** `compareMobileDesktop` over the normalised results of its two runs: both results are echoed, and the
      differences are collected in a loop over the mobile categories. */
  method CompareMobileDesktop(mobileResult: AuditResult, desktopResult: AuditResult) returns (comparison: Comparison)
    ensures comparison.url == mobileResult.url
    ensures comparison.mobileCategories == mobileResult.categories && comparison.mobileMetrics == mobileResult.metrics
    ensures comparison.desktopCategories == desktopResult.categories && comparison.desktopMetrics == desktopResult.metrics
    ensures comparison.differences == Differences(mobileResult.categories, desktopResult.categories)
  {
    var mobile := mobileResult.categories;
    var desktop := desktopResult.categories;
    var differences: Dict<Difference> := [];
    for i := 0 to |mobile|
      invariant differences == Differences(mobile[..i], desktop)
    {
      var (key, mobileCategory) := mobile[i];
      DifferencesStep(mobile, desktop, i, differences);
      var desktopCategory := Lookup(desktop, key);
      if desktopCategory.Some? {
        differences := Put(differences, key, DifferenceOf(mobileCategory, desktopCategory.value));
      }
    }
    assert mobile[..|mobile|] == mobile;
    comparison := Comparison(
      mobileResult.url, mobile, mobileResult.metrics, desktop, desktopResult.metrics, differences);
  }

  /** The difference a pair of scores gets when both runs scored the category, `None` otherwise. */
  function DifferenceFor(mobile: Option<CategoryScore>, desktop: Option<CategoryScore>): Option<Difference> {
    if mobile.Some? && desktop.Some? then Some(DifferenceOf(mobile.value, desktop.value)) else None
  }

  lemma LookupDifferenceEntry(entry: (string, CategoryScore), desktop: Dict<CategoryScore>, key: string)
    ensures Lookup(DifferenceEntry(entry, desktop), key) ==
      if key == entry.0 then DifferenceFor(Some(entry.1), Lookup(desktop, key)) else None
  {
  }

  /** A category has a difference exactly when both runs scored it; the difference is desktop minus mobile. */
  lemma {:induction false} LookupDifferences(mobile: seq<(string, CategoryScore)>, desktop: Dict<CategoryScore>, key: string)
    ensures Lookup(Differences(mobile, desktop), key) == DifferenceFor(Lookup(mobile, key), Lookup(desktop, key))
    decreases |mobile|
  {
    if mobile != [] {
      var pre := mobile[..|mobile| - 1];
      LookupDifferences(pre, desktop, key);
      LookupDifferenceEntry(mobile[|mobile| - 1], desktop, key);
      LookupAppend(Differences(pre, desktop), DifferenceEntry(mobile[|mobile| - 1], desktop), key);
    }
  }

  /** The difference of a category both runs scored: the two scores, and desktop minus mobile. */
  lemma DifferenceSpec(mobile: Dict<CategoryScore>, desktop: Dict<CategoryScore>, key: string)
    ensures Lookup(Differences(mobile, desktop), key).Some? <==> Lookup(mobile, key).Some? && Lookup(desktop, key).Some?
    ensures Lookup(Differences(mobile, desktop), key).Some? ==>
      var d := Lookup(Differences(mobile, desktop), key).value;
      d.mobile == Lookup(mobile, key).value.score && d.desktop == Lookup(desktop, key).value.score &&
      d.difference == d.desktop - d.mobile
  {
    LookupDifferences(mobile, desktop, key);
  }

  /** Swapping the runs keeps the same categories and negates every difference. */
  lemma DifferencesAntisymmetric(a: Dict<CategoryScore>, b: Dict<CategoryScore>, key: string)
    ensures Lookup(Differences(a, b), key).Some? <==> Lookup(Differences(b, a), key).Some?
    ensures Lookup(Differences(a, b), key).Some? ==>
      var ab := Lookup(Differences(a, b), key).value;
      var ba := Lookup(Differences(b, a), key).value;
      ab.difference == -ba.difference && ab.mobile == ba.desktop && ab.desktop == ba.mobile
  {
    LookupDifferences(a, b, key);
    LookupDifferences(b, a, key);
  }

  // ---------------------------------------------------------------------------------------------------
  // checkPerformanceBudget

  /** The budget argument: the fields it sets (`performanceScore` and the mapping keys), by name; a field
      left undefined is absent, while a field set to 0 is present. */
  type Budget = map<string, real>

  const PERFORMANCE_SCORE_KEY: string := "performanceScore"

  /** The budget keys of the mappings, in mapping order. */
  function MappingKeys(mappings: seq<BudgetMapping>): (keys: seq<string>)
    ensures |keys| == |mappings|
  {
    if mappings == [] then [] else MappingKeys(mappings[..|mappings| - 1]) + [mappings[|mappings| - 1].key]
  }

  lemma {:induction false} MappingKeysAt(mappings: seq<BudgetMapping>, i: nat)
    requires i < |mappings|
    ensures MappingKeys(mappings)[i] == mappings[i].key
    decreases |mappings|
  {
    if i < |mappings| - 1 {
      MappingKeysAt(mappings[..|mappings| - 1], i);
    }
  }

  /** The keys a budget can set: the score first, then the metric keys in mapping order. */
  const BUDGET_KEYS: seq<string> := [PERFORMANCE_SCORE_KEY] + MappingKeys(BUDGET_METRIC_MAPPINGS)

  /** `budget[key]`: the value of that field, undefined when it is not set. */
  function BudgetValue(budget: Budget, key: string): Option<real> {
    if key in budget then Some(budget[key]) else None
  }

  /** Whether the budget sets the value under a key (`!== undefined`; a budget of 0 is set). */
  function SetIn(budget: Budget): string -> bool {
    key => BudgetValue(budget, key).Some?
  }

  /** Each mapping's key differs from the score key and from the keys of the mappings before it. */
  predicate FreshKeys(mappings: seq<BudgetMapping>)
    decreases |mappings|
  {
    mappings != [] ==>
      var pre := mappings[..|mappings| - 1];
      var key := mappings[|mappings| - 1].key;
      FreshKeys(pre) && key != PERFORMANCE_SCORE_KEY && key !in MappingKeys(pre)
  }

  /** With fresh keys, the `i`-th key is neither the score key nor any earlier mapping's key. */
  lemma {:induction false} FreshKeysAt(mappings: seq<BudgetMapping>, i: nat)
    requires i < |mappings| && FreshKeys(mappings)
    ensures mappings[i].key != PERFORMANCE_SCORE_KEY && mappings[i].key !in MappingKeys(mappings[..i])
    decreases |mappings|
  {
    var pre := mappings[..|mappings| - 1];
    if i < |pre| {
      FreshKeysAt(pre, i);
      assert pre[..i] == mappings[..i];
    } else {
      assert pre == mappings[..i];
    }
  }

  /** With fresh keys, no mapping uses the score key. */
  lemma {:induction false} ScoreKeyNotMapped(mappings: seq<BudgetMapping>)
    requires FreshKeys(mappings)
    ensures PERFORMANCE_SCORE_KEY !in MappingKeys(mappings)
    decreases |mappings|
  {
    if mappings != [] {
      ScoreKeyNotMapped(mappings[..|mappings| - 1]);
    }
  }

  /** The budget keys of the five mappings. */
  lemma BudgetMappingKeys()
    ensures MappingKeys(BUDGET_METRIC_MAPPINGS) ==
      ["firstContentfulPaint", "largestContentfulPaint", "totalBlockingTime", "cumulativeLayoutShift", "speedIndex"]
  {
    var m := BUDGET_METRIC_MAPPINGS;
    var keys := ["firstContentfulPaint", "largestContentfulPaint", "totalBlockingTime", "cumulativeLayoutShift", "speedIndex"];
    for k := 0 to |m|
      invariant MappingKeys(m[..k]) == keys[..k]
    {
      assert m[..k + 1][..k] == m[..k];
    }
    assert m[..|m|] == m;
  }

  /** The five budget mappings have fresh keys. */
  lemma BudgetMappingsFresh()
    ensures FreshKeys(BUDGET_METRIC_MAPPINGS)
  {
    var m := BUDGET_METRIC_MAPPINGS;
    var keys := ["firstContentfulPaint", "largestContentfulPaint", "totalBlockingTime", "cumulativeLayoutShift", "speedIndex"];
    BudgetMappingKeys();
    for k := 0 to |m|
      invariant FreshKeys(m[..k])
    {
      assert m[..k + 1][..k] == m[..k];
      MappingKeysPrefix(m, k);
      MappingKeysAt(m, k);
      assert m[k].key == keys[k] && MappingKeys(m[..k]) == keys[..k];
    }
    assert m[..|m|] == m;
  }

  lemma {:induction false} MappingKeysPrefix(mappings: seq<BudgetMapping>, n: nat)
    requires n <= |mappings|
    ensures MappingKeys(mappings[..n]) == MappingKeys(mappings)[..n]
    decreases |mappings|
  {
    if n < |mappings| {
      var pre := mappings[..|mappings| - 1];
      assert mappings[..n] == pre[..n];
      MappingKeysPrefix(pre, n);
    } else {
      assert mappings[..n] == mappings;
    }
  }

  /** The six budget keys are distinct. */
  lemma BudgetKeysDistinct()
    ensures |BUDGET_KEYS| == 6 && Distinct(BUDGET_KEYS)
  {
    BudgetMappingKeys();
  }

  datatype BudgetCheck = BudgetCheck(actual: real, budget: real, passed: bool, unit: string)

  datatype BudgetReport = BudgetReport(
    url: string,
    device: Device,
    fetchTime: string,
    results: Dict<BudgetCheck>,
    overallPassed: bool)

  /** The score check: the performance score, 0 when missing, must reach the budget. */
  function ScoreCheck(result: AuditResult, budget: real): BudgetCheck {
    var actual := CategoryScoreOf(result.categories, PERFORMANCE) as real;
    BudgetCheck(actual, budget, actual >= budget, "score")
  }

  /** A metric check: the metric's value, 0 when missing, must not exceed the budget. */
  function MetricCheck(result: AuditResult, mapping: BudgetMapping, budget: real): BudgetCheck {
    var actual := MetricValueOf(Lookup(result.metrics, mapping.metric));
    BudgetCheck(actual, budget, actual <= budget, mapping.unit)
  }

  /** The score entry, present when the budget sets a score. */
  function ScoreChecks(result: AuditResult, budget: Budget): seq<(string, BudgetCheck)> {
    if BudgetValue(budget, PERFORMANCE_SCORE_KEY).Some? then [(PERFORMANCE_SCORE_KEY, ScoreCheck(result, BudgetValue(budget, PERFORMANCE_SCORE_KEY).value))]
    else []
  }

  /** The entry one mapping adds, present when the budget sets its key. */
  function MetricEntry(result: AuditResult, mapping: BudgetMapping, budget: Budget): seq<(string, BudgetCheck)> {
    if BudgetValue(budget, mapping.key).Some? then [(mapping.key, MetricCheck(result, mapping, BudgetValue(budget, mapping.key).value))]
    else []
  }

  /** The metric entries the loop writes over the mappings. */
  function MetricChecks(mappings: seq<BudgetMapping>, result: AuditResult, budget: Budget): seq<(string, BudgetCheck)> {
    if mappings == [] then []
    else MetricChecks(mappings[..|mappings| - 1], result, budget) + MetricEntry(result, mappings[|mappings| - 1], budget)
  }

  lemma ScoreChecksKeys(result: AuditResult, budget: Budget)
    ensures Keys(ScoreChecks(result, budget)) == Filter([PERFORMANCE_SCORE_KEY], SetIn(budget))
  {
    assert [PERFORMANCE_SCORE_KEY][..0] == [];
  }

  /** The metric entries are keyed by the set budget keys among the mapping keys, in mapping order. */
  lemma {:induction false} MetricChecksKeys(mappings: seq<BudgetMapping>, result: AuditResult, budget: Budget)
    ensures Keys(MetricChecks(mappings, result, budget)) == Filter(MappingKeys(mappings), SetIn(budget))
    decreases |mappings|
  {
    if mappings != [] {
      var pre := mappings[..|mappings| - 1];
      MetricChecksKeys(pre, result, budget);
      KeysAppend(MetricChecks(pre, result, budget), MetricEntry(result, mappings[|mappings| - 1], budget));
    }
  }

  /** The results after the score check and the metric checks of the first `n` mappings. */
  function ChecksUpTo(result: AuditResult, budget: Budget, mappings: seq<BudgetMapping>, n: nat): seq<(string, BudgetCheck)>
    requires n <= |mappings|
  {
    ScoreChecks(result, budget) + MetricChecks(mappings[..n], result, budget)
  }

  /** Every budget entry the source writes, in the order it writes them. */
  function BudgetResults(result: AuditResult, budget: Budget): seq<(string, BudgetCheck)> {
    ChecksUpTo(result, budget, BUDGET_METRIC_MAPPINGS, |BUDGET_METRIC_MAPPINGS|)
  }

  predicate AllPassed(results: seq<(string, BudgetCheck)>) {
    forall i :: 0 <= i < |results| ==> results[i].1.passed
  }

  lemma AllPassedAppend(a: seq<(string, BudgetCheck)>, b: seq<(string, BudgetCheck)>)
    ensures AllPassed(a + b) <==> AllPassed(a) && AllPassed(b)
  {
    forall i | 0 <= i < |a| ensures (a + b)[i] == a[i] { }
    forall i | 0 <= i < |b| ensures (a + b)[|a| + i] == b[i] { }
    if AllPassed(a) && AllPassed(b) {
      forall i | 0 <= i < |a + b| ensures (a + b)[i].1.passed {
        if i >= |a| {
          assert (a + b)[|a| + (i - |a|)] == b[i - |a|];
        }
      }
    }
  }

  /** The keys of the checks so far: the set keys among the score key and the first `n` mapping keys. */
  lemma ChecksUpToKeys(result: AuditResult, budget: Budget, mappings: seq<BudgetMapping>, n: nat)
    requires n <= |mappings|
    ensures Keys(ChecksUpTo(result, budget, mappings, n)) ==
      Filter([PERFORMANCE_SCORE_KEY] + MappingKeys(mappings[..n]), SetIn(budget))
  {
    ScoreChecksKeys(result, budget);
    MetricChecksKeys(mappings[..n], result, budget);
    KeysOfFiltered(
      ScoreChecks(result, budget), MetricChecks(mappings[..n], result, budget),
      [PERFORMANCE_SCORE_KEY], MappingKeys(mappings[..n]), SetIn(budget));
  }

  /** Entry lists keyed by filtered key lists, placed one after the other, are keyed by the filtered
      concatenation. */
  lemma KeysOfFiltered<V>(a: seq<(string, V)>, b: seq<(string, V)>, ka: seq<string>, kb: seq<string>, p: string -> bool)
    requires Keys(a) == Filter(ka, p) && Keys(b) == Filter(kb, p)
    ensures Keys(a + b) == Filter(ka + kb, p)
  {
    KeysAppend(a, b);
    FilterAppend(ka, kb, p);
  }

  /** The checks after one more mapping are the checks so far followed by that mapping's entry. */
  lemma ChecksAppend(result: AuditResult, budget: Budget, mappings: seq<BudgetMapping>, i: nat)
    requires i < |mappings|
    ensures ChecksUpTo(result, budget, mappings, i + 1) ==
      ChecksUpTo(result, budget, mappings, i) + MetricEntry(result, mappings[i], budget)
  {
    var score := ScoreChecks(result, budget);
    var metrics := MetricChecks(mappings[..i], result, budget);
    var entry := MetricEntry(result, mappings[i], budget);
    assert mappings[..i + 1][..i] == mappings[..i];
    assert MetricChecks(mappings[..i + 1], result, budget) == metrics + entry;
    assert score + (metrics + entry) == (score + metrics) + entry;
  }

  /** One more entry keeps every check passed iff it passes itself. */
  lemma AllPassedSnoc(results: seq<(string, BudgetCheck)>, key: string, check: BudgetCheck)
    ensures AllPassed(results + [(key, check)]) <==> AllPassed(results) && check.passed
  {
    AllPassedAppend(results, [(key, check)]);
    assert [(key, check)][0].1 == check;
  }

  /** With fresh keys, the `i`-th mapping's key is not among the keys checked before it. */
  lemma ChecksKeyFresh(result: AuditResult, budget: Budget, mappings: seq<BudgetMapping>, i: nat)
    requires i < |mappings| && FreshKeys(mappings)
    ensures mappings[i].key !in Keys(ChecksUpTo(result, budget, mappings, i))
  {
    FreshKeysAt(mappings, i);
    ChecksUpToKeys(result, budget, mappings, i);
    FilterMembers([PERFORMANCE_SCORE_KEY] + MappingKeys(mappings[..i]), SetIn(budget));
  }

  /** One more metric check: writing its entry, when the budget sets it, appends it under a new key. */
  lemma ChecksStep(result: AuditResult, budget: Budget, mappings: seq<BudgetMapping>, i: nat, results: Dict<BudgetCheck>)
    requires i < |mappings| && FreshKeys(mappings)
    requires results == ChecksUpTo(result, budget, mappings, i)
    ensures var m := mappings[i];
      BudgetValue(budget, m.key).Some? ==>
        var check := MetricCheck(result, m, BudgetValue(budget, m.key).value);
        Put(results, m.key, check) == results + [(m.key, check)] == ChecksUpTo(result, budget, mappings, i + 1)
    ensures BudgetValue(budget, mappings[i].key).None? ==> results == ChecksUpTo(result, budget, mappings, i + 1)
  {
    ChecksAppend(result, budget, mappings, i);
    ChecksKeyFresh(result, budget, mappings, i);
  }

  /** `checkPerformanceBudget` over the normalised result of its run: the score check first, then one check
      per set metric budget, clearing `overallPassed` on any failure. */
  method CheckPerformanceBudget(result: AuditResult, budget: Budget) returns (report: BudgetReport)
    ensures report.url == result.url && report.device == result.device && report.fetchTime == result.fetchTime
    ensures report.results == BudgetResults(result, budget)
    ensures report.overallPassed <==> AllPassed(report.results)
  {
    var mappings := BUDGET_METRIC_MAPPINGS;
    BudgetMappingsFresh();
    var results: Dict<BudgetCheck> := [];
    var overallPassed := true;
    if BudgetValue(budget, PERFORMANCE_SCORE_KEY).Some? {
      var check := ScoreCheck(result, BudgetValue(budget, PERFORMANCE_SCORE_KEY).value);
      AllPassedSnoc(results, PERFORMANCE_SCORE_KEY, check);
      results := Put(results, PERFORMANCE_SCORE_KEY, check);
      if !check.passed {
        overallPassed := false;
      }
    }
    assert results == ChecksUpTo(result, budget, mappings, 0) by {
      assert mappings[..0] == [];
    }
    for i := 0 to |mappings|
      invariant results == ChecksUpTo(result, budget, mappings, i)
      invariant overallPassed <==> AllPassed(results)
    {
      var mapping := mappings[i];
      ChecksStep(result, budget, mappings, i, results);
      var budgetValue := BudgetValue(budget, mapping.key);
      if budgetValue.Some? {
        var check := MetricCheck(result, mapping, budgetValue.value);
        AllPassedSnoc(results, mapping.key, check);
        results := Put(results, mapping.key, check);
        if !check.passed {
          overallPassed := false;
        }
      }
    }
    report := BudgetReport(result.url, result.device, result.fetchTime, results, overallPassed);
  }

  /** The results hold exactly the budget keys that are set, a budget of 0 included: the score first, then
      the metrics in mapping order. */
  lemma BudgetResultsKeys(result: AuditResult, budget: Budget)
    ensures Keys(BudgetResults(result, budget)) == Filter(BUDGET_KEYS, SetIn(budget))
  {
    var mappings := BUDGET_METRIC_MAPPINGS;
    ChecksUpToKeys(result, budget, mappings, |mappings|);
    assert mappings[..|mappings|] == mappings;
  }

  /** The score entry passes iff the performance score, 0 when missing, reaches its budget; its unit is "score". */
  lemma BudgetScoreEntry(result: AuditResult, budget: Budget)
    ensures Lookup(BudgetResults(result, budget), PERFORMANCE_SCORE_KEY) ==
      if BudgetValue(budget, PERFORMANCE_SCORE_KEY).Some? then Some(ScoreCheck(result, BudgetValue(budget, PERFORMANCE_SCORE_KEY).value)) else None
    ensures var r := Lookup(BudgetResults(result, budget), PERFORMANCE_SCORE_KEY);
      r.Some? ==>
        r.value.unit == "score" && r.value.actual == CategoryScoreOf(result.categories, PERFORMANCE) as real &&
        (r.value.passed <==> r.value.actual >= r.value.budget)
  {
    BudgetMappingsFresh();
    ScoreKeyNotMapped(BUDGET_METRIC_MAPPINGS);
    ScoreEntryOf(result, budget, BUDGET_METRIC_MAPPINGS);
  }

  lemma ScoreEntryOf(result: AuditResult, budget: Budget, mappings: seq<BudgetMapping>)
    requires PERFORMANCE_SCORE_KEY !in MappingKeys(mappings)
    ensures Lookup(ChecksUpTo(result, budget, mappings, |mappings|), PERFORMANCE_SCORE_KEY) ==
      if BudgetValue(budget, PERFORMANCE_SCORE_KEY).Some? then Some(ScoreCheck(result, BudgetValue(budget, PERFORMANCE_SCORE_KEY).value)) else None
  {
    var checks := MetricChecks(mappings, result, budget);
    assert mappings[..|mappings|] == mappings;
    MetricChecksKeys(mappings, result, budget);
    LookupFilteredAbsent(checks, MappingKeys(mappings), SetIn(budget), PERFORMANCE_SCORE_KEY);
    LookupAppend(ScoreChecks(result, budget), checks, PERFORMANCE_SCORE_KEY);
  }

  /** Entries keyed by a filtered key list have nothing under a key the filter drops. */
  lemma LookupFilteredAbsent<V>(m: seq<(string, V)>, ks: seq<string>, p: string -> bool, key: string)
    requires Keys(m) == Filter(ks, p) && (key !in ks || !p(key))
    ensures Lookup(m, key) == None
  {
    FilterMembers(ks, p);
  }

  /** Each metric entry is present iff the budget sets its key, a budget of 0 included, and then passes iff
      the metric's value, 0 when missing, is within the budget; its unit is the mapping's. */
  lemma BudgetMetricEntry(result: AuditResult, budget: Budget, i: nat)
    requires i < |BUDGET_METRIC_MAPPINGS|
    ensures var m := BUDGET_METRIC_MAPPINGS[i];
      Lookup(BudgetResults(result, budget), m.key) ==
        if BudgetValue(budget, m.key).Some? then Some(MetricCheck(result, m, BudgetValue(budget, m.key).value)) else None
    ensures var m := BUDGET_METRIC_MAPPINGS[i];
      var r := Lookup(BudgetResults(result, budget), m.key);
      r.Some? ==>
        r.value.unit == m.unit && r.value.actual == MetricValueOf(Lookup(result.metrics, m.metric)) &&
        (r.value.passed <==> r.value.actual <= r.value.budget)
  {
    BudgetMappingsFresh();
    MetricEntryOf(result, budget, BUDGET_METRIC_MAPPINGS, i);
  }

  lemma MetricEntryOf(result: AuditResult, budget: Budget, mappings: seq<BudgetMapping>, i: nat)
    requires i < |mappings| && FreshKeys(mappings)
    ensures Lookup(ChecksUpTo(result, budget, mappings, |mappings|), mappings[i].key) ==
      if BudgetValue(budget, mappings[i].key).Some? then
        Some(MetricCheck(result, mappings[i], BudgetValue(budget, mappings[i].key).value))
      else None
  {
    var key := mappings[i].key;
    var checks := MetricChecks(mappings, result, budget);
    assert mappings[..|mappings|] == mappings;
    FreshKeysAt(mappings, i);
    LookupAppend(ScoreChecks(result, budget), checks, key);
    if BudgetValue(budget, key).Some? {
      LookupMetricChecks(mappings, result, budget, i);
    } else {
      MetricChecksKeys(mappings, result, budget);
      LookupFilteredAbsent(checks, MappingKeys(mappings), SetIn(budget), key);
    }
  }

  /** With fresh keys, the entry under the `j`-th key is that mapping's check when its budget is set. */
  lemma {:induction false} LookupMetricChecks(mappings: seq<BudgetMapping>, result: AuditResult, budget: Budget, j: nat)
    requires j < |mappings| && FreshKeys(mappings)
    requires BudgetValue(budget, mappings[j].key).Some?
    ensures Lookup(MetricChecks(mappings, result, budget), mappings[j].key) ==
      Some(MetricCheck(result, mappings[j], BudgetValue(budget, mappings[j].key).value))
    decreases |mappings|
  {
    var pre := mappings[..|mappings| - 1];
    var last := mappings[|mappings| - 1];
    var key := mappings[j].key;
    var entry := MetricEntry(result, last, budget);
    LookupAppend(MetricChecks(pre, result, budget), entry, key);
    if j < |pre| {
      MappingKeysAt(pre, j);
      assert key != last.key;
      assert Lookup(entry, key) == None;
      LookupMetricChecks(pre, result, budget, j);
    } else {
      assert j == |mappings| - 1;
      var check := MetricCheck(result, last, BudgetValue(budget, key).value);
      assert entry == [(key, check)];
      assert Lookup(entry, key) == Some(check);
    }
  }

  /** An empty budget checks nothing and passes. */
  lemma EmptyBudgetPasses(result: AuditResult)
    ensures BudgetResults(result, map[]) == [] && AllPassed(BudgetResults(result, map[]))
  {
    var empty: Budget := map[];
    BudgetResultsKeys(result, empty);
    FilterNone(BUDGET_KEYS, SetIn(empty));
  }

  // ---------------------------------------------------------------------------------------------------
  // getLcpOpportunities

  datatype Opportunity = Opportunity(
    id: string,
    title: string,
    description: Option<string>,
    score: real,
    displayValue: Option<string>,
    numericValue: Option<real>)

  datatype LcpReport = LcpReport(
    url: string,
    device: Device,
    lcpValue: real,
    threshold: real,
    needsImprovement: bool,
    opportunities: seq<Opportunity>,
    fetchTime: string)

  /** The LCP in seconds: the audit's numeric value over 1000, 0 when the audit or its value is missing. */
  function LcpValue(audits: Dict<Audit>): real {
    match Lookup(audits, LCP_METRIC)
    case Some(audit) => audit.numericValue.GetOr(0.0) / 1000.0
    case None => 0.0
  }

  /** The `map` callback: an opportunity for an audit that exists with a score below 1, `null` otherwise. */
  function OpportunityFor(audits: Dict<Audit>, id: string): Option<Opportunity> {
    match Lookup(audits, id)
    case Some(audit) =>
      if audit.score.Some? && audit.score.value < 1.0 then
        Some(Opportunity(id, audit.title, audit.description, audit.score.value, audit.displayValue, audit.numericValue))
      else None
    case None => None
  }

  /** `.filter(Boolean)`: drops the `null`s, keeping the rest in order. */
  function Present<T>(s: seq<Option<T>>): (r: seq<T>)
    ensures |r| <= |s|
  {
    if s == [] then []
    else Present(s[..|s| - 1]) + (if s[|s| - 1].Some? then [s[|s| - 1].value] else [])
  }

  /** The `map` callback over the audits of one result. */
  function OpportunityIn(audits: Dict<Audit>): string -> Option<Opportunity> {
    id => OpportunityFor(audits, id)
  }

  function Opportunities(audits: Dict<Audit>): seq<Opportunity> {
    Present(Map(LCP_OPPORTUNITIES, OpportunityIn(audits)))
  }

  /** `getLcpOpportunities` over the raw result of its run. */
  function GetLcpOpportunities(lhr: Lhr, device: Device, threshold: real): LcpReport {
    var lcpValue := LcpValue(lhr.audits);
    LcpReport(
      lhr.finalDisplayedUrl, device, lcpValue, threshold, lcpValue > threshold, Opportunities(lhr.audits), lhr.fetchTime)
  }

  /** Whether an audit is an opportunity: it exists, and its score is set and below 1. */
  predicate Improvable(audits: Dict<Audit>, id: string) {
    Lookup(audits, id).Some? && Lookup(audits, id).value.score.Some? && Lookup(audits, id).value.score.value < 1.0
  }

  function ImprovableIn(audits: Dict<Audit>): string -> bool {
    id => Improvable(audits, id)
  }

  function IdOf(o: Opportunity): string {
    o.id
  }

  /** Dropping the `null`s of a list followed by one more value. */
  lemma PresentSnoc<T>(s: seq<Option<T>>, x: Option<T>)
    ensures Present(s + [x]) == Present(s) + (if x.Some? then [x.value] else [])
  {
    assert (s + [x])[..|s|] == s;
  }

  /** The opportunities' ids are, in the order of `ids`, exactly the improvable audits. */
  lemma {:induction false} OpportunityIds(ids: seq<string>, audits: Dict<Audit>)
    ensures Map(Present(Map(ids, OpportunityIn(audits))), IdOf) == Filter(ids, ImprovableIn(audits))
    decreases |ids|
  {
    if ids != [] {
      var pre := ids[..|ids| - 1];
      var id := ids[|ids| - 1];
      OpportunityIds(pre, audits);
      var f := OpportunityIn(audits);
      assert Map(ids, f) == Map(pre, f) + [f(id)];
      PresentSnoc(Map(pre, f), f(id));
      var ops := Present(Map(pre, f));
      var tail := if f(id).Some? then [f(id).value] else [];
      MapAppend(ops, tail, IdOf);
      OpportunityForId(audits, id);
      assert Map(tail, IdOf) == if Improvable(audits, id) then [id] else [];
    }
  }

  /** The `map` callback gives an opportunity exactly for an improvable audit, under the audit's id. */
  lemma OpportunityForId(audits: Dict<Audit>, id: string)
    ensures OpportunityFor(audits, id).Some? <==> Improvable(audits, id)
    ensures OpportunityFor(audits, id).Some? ==> OpportunityFor(audits, id).value.id == id
  {
  }

  /** Each opportunity is an improvable audit's, carrying that audit's fields. */
  lemma {:induction false} OpportunitiesImprovable(ids: seq<string>, audits: Dict<Audit>)
    ensures forall o | o in Present(Map(ids, OpportunityIn(audits))) ::
      Improvable(audits, o.id) && OpportunityFor(audits, o.id) == Some(o)
    decreases |ids|
  {
    if ids != [] {
      var pre := ids[..|ids| - 1];
      var id := ids[|ids| - 1];
      OpportunitiesImprovable(pre, audits);
      var f := OpportunityIn(audits);
      assert Map(ids, f) == Map(pre, f) + [f(id)];
      PresentSnoc(Map(pre, f), f(id));
    }
  }

  /** Over a raw result: the LCP value is the audit's milliseconds in seconds, improvement is needed iff it
      exceeds the threshold, and the opportunities are the improvable audits in `LCP_OPPORTUNITIES` order,
      each carrying its audit's fields. */
  lemma LcpOpportunitiesSpec(lhr: Lhr, device: Device, threshold: real)
    ensures var r := GetLcpOpportunities(lhr, device, threshold);
      r.url == lhr.finalDisplayedUrl && r.device == device && r.threshold == threshold && r.fetchTime == lhr.fetchTime
    ensures var r := GetLcpOpportunities(lhr, device, threshold);
      var audit := Lookup(lhr.audits, LCP_METRIC);
      (audit.None? ==> r.lcpValue == 0.0 && (r.needsImprovement <==> threshold < 0.0)) &&
      (audit.Some? ==>
        r.lcpValue == audit.value.numericValue.GetOr(0.0) / 1000.0 &&
        (r.needsImprovement <==> audit.value.numericValue.GetOr(0.0) > 1000.0 * threshold))
    ensures var r := GetLcpOpportunities(lhr, device, threshold);
      r.needsImprovement <==> r.lcpValue > threshold
    ensures var r := GetLcpOpportunities(lhr, device, threshold);
      Map(r.opportunities, IdOf) == Filter(LCP_OPPORTUNITIES, ImprovableIn(lhr.audits)) &&
      forall o | o in r.opportunities :: Improvable(lhr.audits, o.id) && OpportunityFor(lhr.audits, o.id) == Some(o)
  {
    OpportunityIds(LCP_OPPORTUNITIES, lhr.audits);
    OpportunitiesImprovable(LCP_OPPORTUNITIES, lhr.audits);
    var audit := Lookup(lhr.audits, LCP_METRIC);
    if audit.Some? {
      SecondsWithin(audit.value.numericValue.GetOr(0.0), threshold);
    }
  }
}
