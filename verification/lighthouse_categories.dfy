/** The per-category helpers: the accessibility score, the SEO analysis and the PWA readiness check. Each
    audits one category and reads its score; with details requested it runs the category again and adds the
    audits that category references. */
module LighthouseCategories {
  import opened Wrappers
  import opened LighthouseConstants
  import opened LighthouseTypes
  import opened LighthouseCore
  import opened LighthousePerformance

  const ACCESSIBILITY: string := "accessibility"
  const SEO: string := "seo"
  const PWA: string := "pwa"

  /** What a helper returns: the base fields, and `audits` only when details were requested. The score field
      is `accessibilityScore`, `seoScore` or `pwaScore` depending on the helper. */
  datatype CategoryReport = CategoryReport(
    url: string,
    device: Device,
    score: int,
    fetchTime: string,
    audits: Option<seq<AuditSummary>>)

  /** The engine runs a helper asks for: its category alone on the device, a second time with details. */
  function CategoryRuns(url: string, category: string, device: Device, includeDetails: bool): (runs: seq<AuditRequest>)
    ensures |runs| == if includeDetails then 2 else 1
    ensures forall q | q in runs ::
      q.url == url && q.categories == Some([category]) && q.device == device && !q.throttling
  {
    var q := CategoryRequest(url, category, device);
    if includeDetails then [q, q] else [q]
  }

  /** The body the three helpers share, after the engine answered `first` for the scored run and `second`
      for the detailed run (not asked for without details). A failed run fails the helper. */
  function CategoryHelper(category: string, device: Device, includeDetails: bool, first: Option<Lhr>, second: Option<Lhr>)
    : (r: Result<CategoryReport>)
    ensures r.Failure? <==> first.None? || (includeDetails && second.None?)
    ensures r.Failure? ==> r.message == AUDIT_FAILED_MESSAGE
    ensures r.Success? ==>
      var lhr := first.value;
      r.value.url == lhr.finalDisplayedUrl && r.value.device == device && r.value.fetchTime == lhr.fetchTime
    ensures r.Success? ==>
      var raw := Lookup(first.value.categories, category);
      r.value.score == if raw.Some? then FormatCategory(raw.value).score else 0
    ensures r.Success? ==>
      if includeDetails then r.value.audits == Some(FilterAuditsByCategory(second.value, category))
      else r.value.audits.None?
  {
    match RunLighthouseAudit(first, device)
    case Failure(message) => Failure(message)
    case Success(result) =>
      CategoryScoreOfRaw(first.value.categories, category);
      var base := CategoryReport(
        result.url, result.device, CategoryScoreOf(result.categories, category), result.fetchTime, None);
      if includeDetails then
        match GetDetailedAuditResults(second, category)
        case Failure(message) => Failure(message)
        case Success(details) => Success(base.(audits := Some(details.audits)))
      else Success(base)
  }

  /** `getAccessibilityScore`. */
  function GetAccessibilityScore(device: Device, includeDetails: bool, first: Option<Lhr>, second: Option<Lhr>)
    : (r: Result<CategoryReport>)
    ensures r.Success? <==> first.Some? && (includeDetails ==> second.Some?)
    ensures r.Success? ==>
      var raw := Lookup(first.value.categories, ACCESSIBILITY);
      r.value.score == if raw.Some? then FormatCategory(raw.value).score else 0
    ensures r.Success? ==>
      r.value.url == first.value.finalDisplayedUrl && r.value.device == device && r.value.fetchTime == first.value.fetchTime
    ensures r.Success? && includeDetails ==> r.value.audits == Some(FilterAuditsByCategory(second.value, ACCESSIBILITY))
    ensures r.Success? && !includeDetails ==> r.value.audits.None?
  {
    CategoryHelper(ACCESSIBILITY, device, includeDetails, first, second)
  }

  /** `getSeoAnalysis`. */
  function GetSeoAnalysis(device: Device, includeDetails: bool, first: Option<Lhr>, second: Option<Lhr>)
    : (r: Result<CategoryReport>)
    ensures r.Success? <==> first.Some? && (includeDetails ==> second.Some?)
    ensures r.Success? ==>
      var raw := Lookup(first.value.categories, SEO);
      r.value.score == if raw.Some? then FormatCategory(raw.value).score else 0
    ensures r.Success? ==>
      r.value.url == first.value.finalDisplayedUrl && r.value.device == device && r.value.fetchTime == first.value.fetchTime
    ensures r.Success? && includeDetails ==> r.value.audits == Some(FilterAuditsByCategory(second.value, SEO))
    ensures r.Success? && !includeDetails ==> r.value.audits.None?
  {
    CategoryHelper(SEO, device, includeDetails, first, second)
  }

  /** `checkPwaReadiness`. */
  function CheckPwaReadiness(device: Device, includeDetails: bool, first: Option<Lhr>, second: Option<Lhr>)
    : (r: Result<CategoryReport>)
    ensures r.Success? <==> first.Some? && (includeDetails ==> second.Some?)
    ensures r.Success? ==>
      var raw := Lookup(first.value.categories, PWA);
      r.value.score == if raw.Some? then FormatCategory(raw.value).score else 0
    ensures r.Success? ==>
      r.value.url == first.value.finalDisplayedUrl && r.value.device == device && r.value.fetchTime == first.value.fetchTime
    ensures r.Success? && includeDetails ==> r.value.audits == Some(FilterAuditsByCategory(second.value, PWA))
    ensures r.Success? && !includeDetails ==> r.value.audits.None?
  {
    CategoryHelper(PWA, device, includeDetails, first, second)
  }

  /** Asking for details keeps the base fields as they are and only adds the audits. */
  lemma DetailsOnlyAddAudits(category: string, device: Device, first: Option<Lhr>, second: Option<Lhr>)
    requires CategoryHelper(category, device, true, first, second).Success?
    ensures CategoryHelper(category, device, false, first, second).Success?
    ensures CategoryHelper(category, device, true, first, second).value.(audits := None) ==
      CategoryHelper(category, device, false, first, second).value
  {
  }

  /** A raw score in [0, 1] reads as a score within 0..100, and a missing category reads as 0. */
  lemma CategoryScoreBounds(category: string, device: Device, includeDetails: bool, first: Option<Lhr>, second: Option<Lhr>)
    requires CategoryHelper(category, device, includeDetails, first, second).Success?
    ensures var raw := Lookup(first.value.categories, category);
      var score := CategoryHelper(category, device, includeDetails, first, second).value.score;
      (raw.None? ==> score == 0) &&
      (raw.Some? && raw.value.score.Some? && 0.0 <= raw.value.score.value <= 1.0 ==> 0 <= score <= 100)
  {
    var raw := Lookup(first.value.categories, category);
    if raw.Some? && raw.value.score.Some? && 0.0 <= raw.value.score.value <= 1.0 {
      FormattedScoreBounds(raw.value);
    }
  }
}
