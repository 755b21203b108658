/** Building the audit engine's options, the empty-result error, and normalising the raw result into
    category scores, key metrics and per-category audit lists. */
module LighthouseCore {
  import opened Wrappers
  import opened Seqs
  import opened LighthouseConstants
  import opened LighthouseTypes

  datatype ScreenEmulation = ScreenEmulation(
    mobile: bool,
    width: int,
    height: int,
    deviceScaleFactor: int,
    disabled: bool)

  /** The options object passed to the audit engine. */
  datatype LighthouseOptions = LighthouseOptions(
    logLevel: string,
    output: string,
    onlyCategories: Option<seq<string>>,
    port: int,
    formFactor: Device,
    screenEmulation: ScreenEmulation,
    throttling: Throttling)

  /** One audit run as requested by a caller: the page, the category filter, device and throttling. */
  datatype AuditRequest = AuditRequest(
    url: string,
    categories: Option<seq<string>>,
    device: Device,
    throttling: bool)

  datatype CategoryScore = CategoryScore(title: string, score: int, description: string)

  datatype Metric = Metric(title: string, value: real, displayValue: string, score: Option<int>)

  /** The normalised audit result (`LighthouseAuditResult`). */
  datatype AuditResult = AuditResult(
    url: string,
    fetchTime: string,
    version: string,
    userAgent: string,
    device: Device,
    categories: Dict<CategoryScore>,
    metrics: Dict<Metric>)

  /** One audit re-shaped for a per-category listing. */
  datatype AuditSummary = AuditSummary(
    id: string,
    title: string,
    description: Option<string>,
    score: Option<real>,
    scoreDisplayMode: Option<string>,
    displayValue: Option<string>)

  datatype DetailedAuditResults = DetailedAuditResults(lhr: Lhr, audits: seq<AuditSummary>)

  const AUDIT_FAILED_MESSAGE: string := "Failed to run Lighthouse audit"

  function GetScreenEmulation(device: Device): ScreenEmulation {
    var dimensions := ScreenDimensions(device);
    ScreenEmulation(device != Desktop, dimensions.width, dimensions.height, 1, false)
  }

  /** Mobile emulation exactly for the mobile device, at that device's fixed viewport and scale 1. */
  lemma ScreenEmulationSpec(device: Device)
    ensures GetScreenEmulation(device).mobile <==> device == Mobile
    ensures GetScreenEmulation(device).width == ScreenDimensions(device).width
    ensures GetScreenEmulation(device).height == ScreenDimensions(device).height
    ensures GetScreenEmulation(device).deviceScaleFactor == 1 && !GetScreenEmulation(device).disabled
    ensures GetScreenEmulation(Desktop) == ScreenEmulation(false, 1350, 940, 1, false)
    ensures GetScreenEmulation(Mobile) == ScreenEmulation(true, 360, 640, 1, false)
  {
  }

  function BuildLighthouseOptions(port: int, device: Device, categories: Option<seq<string>>, throttling: bool): LighthouseOptions {
    LighthouseOptions(
      "info",
      "json",
      categories,
      port,
      device,
      GetScreenEmulation(device),
      if throttling then THROTTLING_ENABLED else THROTTLING_DISABLED)
  }

  /** Port, device and category filter pass through; throttling is the enabled profile exactly when asked for. */
  lemma LighthouseOptionsSpec(port: int, device: Device, categories: Option<seq<string>>, throttling: bool)
    ensures BuildLighthouseOptions(port, device, categories, throttling).port == port
    ensures BuildLighthouseOptions(port, device, categories, throttling).formFactor == device
    ensures BuildLighthouseOptions(port, device, categories, throttling).onlyCategories == categories
    ensures BuildLighthouseOptions(port, device, categories, throttling).screenEmulation == GetScreenEmulation(device)
    ensures BuildLighthouseOptions(port, device, categories, throttling).throttling == THROTTLING_ENABLED <==> throttling
    ensures !throttling ==> BuildLighthouseOptions(port, device, categories, throttling).throttling == THROTTLING_DISABLED
    ensures BuildLighthouseOptions(port, device, categories, throttling).output == "json"
  {
  }

  /** The options one request is run with on the port of the browser launched for it. */
  function RequestOptions(port: int, request: AuditRequest): LighthouseOptions {
    BuildLighthouseOptions(port, request.device, request.categories, request.throttling)
  }

  /** `runRawLighthouseAudit` after the engine returned: an absent result is an error. */
  function RunRawLighthouseAudit(engineResult: Option<Lhr>): (r: Result<Lhr>)
    ensures r.Failure? <==> engineResult.None?
    ensures r.Failure? ==> r.message == AUDIT_FAILED_MESSAGE
    ensures r.Success? ==> r.value == engineResult.value
  {
    match engineResult
    case None => Failure(AUDIT_FAILED_MESSAGE)
    case Some(lhr) => Success(lhr)
  }

  /** A category's score rescaled to a percentage; a null or missing score counts as 0. */
  function FormatCategory(category: Category): CategoryScore {
    CategoryScore(category.title, Round(category.score.GetOr(0.0) * 100.0), category.description)
  }

  /** The formatted categories, one per raw category, in the raw order. */
  function CategoryScores(categories: seq<(string, Category)>): (r: seq<(string, CategoryScore)>)
    ensures Keys(r) == Keys(categories)
    ensures forall i :: 0 <= i < |r| ==> r[i].1 == FormatCategory(categories[i].1)
  {
    if categories == [] then []
    else
      var last := categories[|categories| - 1];
      CategoryScores(categories[..|categories| - 1]) + [(last.0, FormatCategory(last.1))]
  }

  /** `formatCategoryScores`: fills a dictionary with one formatted entry per category. */
  method FormatCategoryScores(categories: Dict<Category>) returns (scores: Dict<CategoryScore>)
    ensures scores == CategoryScores(categories)
  {
    scores := [];
    for i := 0 to |categories|
      invariant scores == CategoryScores(categories[..i])
    {
      NextKeyIsNew(categories, i);
      scores := Put(scores, categories[i].0, FormatCategory(categories[i].1));
    }
    assert categories[..|categories|] == categories;
  }

  /** Every category keeps its id and order; its score is the rounded percentage of the raw score, 0 for
      a null score, and lies in 0..100 when the raw score lies in [0, 1]. */
  lemma CategoryScoresSpec(categories: Dict<Category>)
    ensures Keys(CategoryScores(categories)) == Keys(categories)
    ensures forall i :: 0 <= i < |categories| ==>
      CategoryScores(categories)[i].1.score == Round(categories[i].1.score.GetOr(0.0) * 100.0)
    ensures forall i :: 0 <= i < |categories| && categories[i].1.score.None? ==>
      CategoryScores(categories)[i].1.score == 0
    ensures forall i | 0 <= i < |categories| && categories[i].1.score.Some? && 0.0 <= categories[i].1.score.value <= 1.0 ::
      0 <= CategoryScores(categories)[i].1.score <= 100
  {
    forall i | 0 <= i < |categories| && categories[i].1.score.Some? && 0.0 <= categories[i].1.score.value <= 1.0
      ensures 0 <= CategoryScores(categories)[i].1.score <= 100
    {
      RoundPercentBounds(categories[i].1.score.value);
    }
  }

  /** Looking a category up among the formatted scores gives the formatted category, or nothing. */
  lemma {:induction false} LookupCategoryScores(categories: seq<(string, Category)>, key: string)
    ensures Lookup(CategoryScores(categories), key) ==
      if Lookup(categories, key).Some? then Some(FormatCategory(Lookup(categories, key).value)) else None
    decreases |categories|
  {
    if categories != [] {
      var pre := categories[..|categories| - 1];
      LookupCategoryScores(pre, key);
      var r := CategoryScores(categories);
      assert r[..|r| - 1] == CategoryScores(pre);
    }
  }

  /** A metric audit re-shaped: value 0 and display "N/A" when absent; a null score stays null. */
  function FormatMetric(audit: Audit): Metric {
    Metric(
      audit.title,
      audit.numericValue.GetOr(0.0),
      if audit.displayValue.Some? && audit.displayValue.value != "" then audit.displayValue.value else "N/A",
      if audit.score.None? then None else Some(Round(audit.score.value * 100.0)))
  }

  /** The metric entries for the ids of `ids` that have an audit, in the order of `ids`. */
  function MetricsFor(ids: seq<string>, audits: seq<(string, Audit)>): (r: seq<(string, Metric)>)
    ensures Keys(r) == Filter(ids, id => id in Keys(audits))
    ensures forall i :: 0 <= i < |r| ==>
      Lookup(audits, r[i].0).Some? && r[i].1 == FormatMetric(Lookup(audits, r[i].0).value)
  {
    if ids == [] then []
    else
      var id := ids[|ids| - 1];
      var audit := Lookup(audits, id);
      MetricsFor(ids[..|ids| - 1], audits) + (if audit.Some? then [(id, FormatMetric(audit.value))] else [])
  }

  /** The key metrics of a raw result: the allowlisted metric ids it has an audit for. */
  function KeyMetrics(audits: Dict<Audit>): (r: Dict<Metric>)
  {
    var r := MetricsFor(KEY_METRICS, audits);
    KeyMetricsDistinct();
    FilterIsSubseq(KEY_METRICS, id => id in Keys(audits));
    SubseqOfDistinct(Keys(r), KEY_METRICS);
    r
  }

  /** A subsequence of a duplicate-free sequence is duplicate-free. */
  lemma {:induction false} SubseqOfDistinct(r: seq<string>, s: seq<string>)
    requires IsSubseq(r, s) && Distinct(s)
    ensures Distinct(r)
    decreases |s|
  {
    if r != [] {
      var pre := s[..|s| - 1];
      if IsSubseq(r, pre) {
        SubseqOfDistinct(r, pre);
      } else {
        SubseqOfDistinct(r[..|r| - 1], pre);
        SubseqMembers(r[..|r| - 1], pre);
        assert r[|r| - 1] == s[|s| - 1] && s[|s| - 1] !in pre;
        forall k | 0 <= k < |r| - 1 ensures r[k] != r[|r| - 1] {
          assert r[k] == r[..|r| - 1][k];
        }
      }
    }
  }

  lemma {:induction false} SubseqMembers(r: seq<string>, s: seq<string>)
    requires IsSubseq(r, s)
    ensures forall x :: x in r ==> x in s
    decreases |s|
  {
    if r != [] {
      var pre := s[..|s| - 1];
      if IsSubseq(r, pre) {
        SubseqMembers(r, pre);
      } else {
        SubseqMembers(r[..|r| - 1], pre);
        assert r == r[..|r| - 1] + [s[|s| - 1]];
      }
    }
  }

  /** The metric keys are exactly the allowlisted ids present among the audits, in allowlist order; no
      other audit is ever included, and each entry is the formatted audit of its id. */
  lemma KeyMetricsSpec(audits: Dict<Audit>)
    ensures Keys(KeyMetrics(audits)) == Filter(KEY_METRICS, id => id in Keys(audits))
    ensures forall k :: k in Keys(KeyMetrics(audits)) <==> k in KEY_METRICS && k in Keys(audits)
    ensures forall i :: 0 <= i < |KeyMetrics(audits)| ==>
      Lookup(audits, KeyMetrics(audits)[i].0).Some? &&
      KeyMetrics(audits)[i].1 == FormatMetric(Lookup(audits, KeyMetrics(audits)[i].0).value)
    ensures audits == [] ==> KeyMetrics(audits) == []
  {
    FilterMembers(KEY_METRICS, id => id in Keys(audits));
  }

  /** Per entry: value 0 and display "N/A" stand in for missing fields; a null score stays null and any
      other score becomes its rounded percentage. */
  lemma FormatMetricSpec(audit: Audit)
    ensures FormatMetric(audit).value == (if audit.numericValue.Some? then audit.numericValue.value else 0.0)
    ensures audit.displayValue.None? || audit.displayValue == Some("") ==> FormatMetric(audit).displayValue == "N/A"
    ensures FormatMetric(audit).score.None? <==> audit.score.None?
    ensures audit.score.Some? ==> FormatMetric(audit).score == Some(Round(audit.score.value * 100.0))
    ensures audit.score.Some? && 0.0 <= audit.score.value <= 1.0 ==> 0 <= FormatMetric(audit).score.value <= 100
  {
    if audit.score.Some? && 0.0 <= audit.score.value <= 1.0 {
      RoundPercentBounds(audit.score.value);
    }
  }

  /** One more key metric: its entry, if the audit exists, goes after those of the earlier ones, under a new key. */
  lemma MetricsForStep(i: nat, audits: Dict<Audit>)
    requires i < |KEY_METRICS|
    ensures MetricsFor(KEY_METRICS[..i + 1], audits) ==
      MetricsFor(KEY_METRICS[..i], audits) +
      (if Lookup(audits, KEY_METRICS[i]).Some? then [(KEY_METRICS[i], FormatMetric(Lookup(audits, KEY_METRICS[i]).value))] else [])
    ensures KEY_METRICS[i] !in Keys(MetricsFor(KEY_METRICS[..i], audits))
  {
    assert KEY_METRICS[..i + 1][..i] == KEY_METRICS[..i];
    KeyMetricsDistinct();
    assert KEY_METRICS[i] !in KEY_METRICS[..i];
    FilterMembers(KEY_METRICS[..i], id => id in Keys(audits));
  }

  /** `extractKeyMetrics`: fills a dictionary with the allowlisted metrics that are present. */
  method ExtractKeyMetrics(audits: Dict<Audit>) returns (metrics: Dict<Metric>)
    ensures metrics == KeyMetrics(audits)
  {
    metrics := [];
    for i := 0 to |KEY_METRICS|
      invariant metrics == MetricsFor(KEY_METRICS[..i], audits)
    {
      var metric := KEY_METRICS[i];
      MetricsForStep(i, audits);
      var audit := Lookup(audits, metric);
      if audit.Some? {
        metrics := Put(metrics, metric, FormatMetric(audit.value));
      }
    }
    assert KEY_METRICS[..|KEY_METRICS|] == KEY_METRICS;
  }

  /** Whether the category `categoryKey` lists audit `id` among its audit references. */
  predicate IsReferenced(categories: Dict<Category>, categoryKey: string, id: string) {
    match Lookup(categories, categoryKey)
    case None => false
    case Some(category) => category.auditRefs.Some? && id in category.auditRefs.value
  }

  function Summarize(entry: (string, Audit)): AuditSummary {
    var (id, audit) := entry;
    AuditSummary(id, audit.title, audit.description, audit.score, audit.scoreDisplayMode, audit.displayValue)
  }

  /** `filterAuditsByCategory`. */
  function FilterAuditsByCategory(lhr: Lhr, categoryKey: string): seq<AuditSummary> {
    Map(Filter(lhr.audits, (e: (string, Audit)) => IsReferenced(lhr.categories, categoryKey, e.0)), Summarize)
  }

  /** The ids listed are, in audit order, exactly the ids the category references. */
  lemma FilterAuditsByCategoryIds(lhr: Lhr, categoryKey: string)
    ensures Map(FilterAuditsByCategory(lhr, categoryKey), (a: AuditSummary) => a.id) ==
      Filter(Keys(lhr.audits), id => IsReferenced(lhr.categories, categoryKey, id))
  {
    var q := (e: (string, Audit)) => IsReferenced(lhr.categories, categoryKey, e.0);
    var key := (e: (string, Audit)) => e.0;
    var kept := Filter(lhr.audits, q);
    MapFilterCommute(lhr.audits, key, id => IsReferenced(lhr.categories, categoryKey, id), q);
    MapCompose(kept, Summarize, (a: AuditSummary) => a.id, key);
    assert Map(lhr.audits, key) == Keys(lhr.audits);
  }

  /** An audit is listed exactly when the category references it, with its fields copied; an unknown
      category, or one without references, lists nothing. */
  lemma FilterAuditsByCategoryMembers(lhr: Lhr, categoryKey: string)
    ensures forall e :: e in lhr.audits ==>
      (Summarize(e) in FilterAuditsByCategory(lhr, categoryKey) <==> IsReferenced(lhr.categories, categoryKey, e.0))
    ensures forall a :: a in FilterAuditsByCategory(lhr, categoryKey) ==>
      Lookup(lhr.audits, a.id).Some? && a == Summarize((a.id, Lookup(lhr.audits, a.id).value))
    ensures Lookup(lhr.categories, categoryKey).None? ==> FilterAuditsByCategory(lhr, categoryKey) == []
    ensures Lookup(lhr.categories, categoryKey).Some? && Lookup(lhr.categories, categoryKey).value.auditRefs.None? ==>
      FilterAuditsByCategory(lhr, categoryKey) == []
  {
    FilterAuditsListed(lhr, categoryKey);
    FilterAuditsEntries(lhr, categoryKey);
    var q := (e: (string, Audit)) => IsReferenced(lhr.categories, categoryKey, e.0);
    if Lookup(lhr.categories, categoryKey).None? || Lookup(lhr.categories, categoryKey).value.auditRefs.None? {
      assert forall e :: !q(e);
      assert Filter(lhr.audits, q) == [];
    }
  }

  /** An audit is listed exactly when the category references it. */
  lemma FilterAuditsListed(lhr: Lhr, categoryKey: string)
    ensures forall e :: e in lhr.audits ==>
      (Summarize(e) in FilterAuditsByCategory(lhr, categoryKey) <==> IsReferenced(lhr.categories, categoryKey, e.0))
  {
    var q := (e: (string, Audit)) => IsReferenced(lhr.categories, categoryKey, e.0);
    var kept := Filter(lhr.audits, q);
    var r := Map(kept, Summarize);
    FilterMembers(lhr.audits, q);
    forall e | e in lhr.audits && q(e) ensures Summarize(e) in r {
      var k :| 0 <= k < |kept| && kept[k] == e;
      assert r[k] == Summarize(e);
    }
    forall e | e in lhr.audits && Summarize(e) in r ensures q(e) {
      var k :| 0 <= k < |r| && r[k] == Summarize(e);
      assert kept[k] in kept && kept[k].0 == e.0;
    }
  }

  /** Every listed entry is the summary of the audit stored under its id. */
  lemma FilterAuditsEntries(lhr: Lhr, categoryKey: string)
    ensures forall a :: a in FilterAuditsByCategory(lhr, categoryKey) ==>
      Lookup(lhr.audits, a.id).Some? && a == Summarize((a.id, Lookup(lhr.audits, a.id).value))
  {
    var q := (e: (string, Audit)) => IsReferenced(lhr.categories, categoryKey, e.0);
    var kept := Filter(lhr.audits, q);
    var r := Map(kept, Summarize);
    FilterMembers(lhr.audits, q);
    forall a | a in r ensures Lookup(lhr.audits, a.id).Some? && a == Summarize((a.id, Lookup(lhr.audits, a.id).value)) {
      var k :| 0 <= k < |r| && r[k] == a;
      assert kept[k] in kept;
      var i :| 0 <= i < |lhr.audits| && lhr.audits[i] == kept[k];
      LookupEntry(lhr.audits, i);
    }
  }

  /** `runLighthouseAudit` after the engine returned: the failure propagates, otherwise the identity fields
      are copied, the device is echoed, and categories and metrics are normalised. */
  function RunLighthouseAudit(engineResult: Option<Lhr>, device: Device): (r: Result<AuditResult>)
    ensures r.Failure? <==> engineResult.None?
    ensures r.Failure? ==> r.message == AUDIT_FAILED_MESSAGE
    ensures r.Success? ==>
      var lhr := engineResult.value;
      r.value.url == lhr.finalDisplayedUrl && r.value.fetchTime == lhr.fetchTime &&
      r.value.version == lhr.lighthouseVersion && r.value.userAgent == lhr.userAgent &&
      r.value.device == device &&
      r.value.categories == CategoryScores(lhr.categories) &&
      r.value.metrics == KeyMetrics(lhr.audits)
  {
    match RunRawLighthouseAudit(engineResult)
    case Failure(message) => Failure(message)
    case Success(lhr) => Success(FormatAuditResult(lhr, device))
  }

  /** The formatting half of `runLighthouseAudit`. */
  function FormatAuditResult(lhr: Lhr, device: Device): AuditResult {
    AuditResult(
      lhr.finalDisplayedUrl,
      lhr.fetchTime,
      lhr.lighthouseVersion,
      lhr.userAgent,
      device,
      CategoryScores(lhr.categories),
      KeyMetrics(lhr.audits))
  }

  /** `getDetailedAuditResults` after the engine returned: the raw result with the category's audits. */
  function GetDetailedAuditResults(engineResult: Option<Lhr>, category: string): (r: Result<DetailedAuditResults>)
    ensures r.Failure? <==> engineResult.None?
    ensures r.Success? ==>
      r.value.lhr == engineResult.value && r.value.audits == FilterAuditsByCategory(engineResult.value, category)
  {
    match RunRawLighthouseAudit(engineResult)
    case Failure(message) => Failure(message)
    case Success(lhr) => Success(DetailedAuditResults(lhr, FilterAuditsByCategory(lhr, category)))
  }

  /** The single-category run that `getDetailedAuditResults` and the per-category helpers ask for:
      `runRawLighthouseAudit(url, [category], device)` with throttling left at its default, off. */
  function CategoryRequest(url: string, category: string, device: Device): (q: AuditRequest)
    ensures q.categories == Some([category]) && q.device == device && !q.throttling && q.url == url
  {
    AuditRequest(url, Some([category]), device, false)
  }
}
