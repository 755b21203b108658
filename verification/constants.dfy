/** The fixed lists and numbers the launcher, the option builder and the analyses depend on. */
module LighthouseConstants {
  import opened Strings
  import opened Seqs

  datatype Device = Desktop | Mobile

  datatype Dimensions = Dimensions(width: int, height: int)

  /** A network/CPU simulation profile. */
  datatype Throttling = Throttling(rttMs: real, throughputKbps: real, cpuSlowdownMultiplier: real)

  /** Ties a budget field to the metric audit it is checked against and the unit it is reported in. */
  datatype BudgetMapping = BudgetMapping(key: string, metric: string, unit: string)

  /** Prefix shared by every flag that selects headless mode. */
  const HEADLESS_PREFIX: string := "--headless"

  const CHROME_FLAGS: seq<string> := ["--headless", "--no-sandbox", "--disable-dev-shm-usage"]

  function ScreenDimensions(device: Device): Dimensions {
    match device
    case Desktop => Dimensions(1350, 940)
    case Mobile => Dimensions(360, 640)
  }

  const THROTTLING_ENABLED: Throttling := Throttling(150.0, 1638.4, 4.0)
  const THROTTLING_DISABLED: Throttling := Throttling(0.0, 10.0 * 1024.0, 1.0)

  const KEY_METRICS: seq<string> := [
    "first-contentful-paint",
    "largest-contentful-paint",
    "total-blocking-time",
    "cumulative-layout-shift",
    "speed-index",
    "interactive"
  ]

  const LCP_OPPORTUNITIES: seq<string> := [
    "render-blocking-resources",
    "unused-css-rules",
    "unused-javascript",
    "modern-image-formats",
    "uses-optimized-images",
    "efficient-animated-content",
    "preload-lcp-image",
    "uses-text-compression"
  ]

  const SECURITY_AUDITS: seq<string> := [
    "is-on-https",
    "uses-http2",
    "no-vulnerable-libraries",
    "csp-xss",
    "external-anchors-use-rel-noopener"
  ]

  const BUDGET_METRIC_MAPPINGS: seq<BudgetMapping> := [
    BudgetMapping("firstContentfulPaint", "first-contentful-paint", "ms"),
    BudgetMapping("largestContentfulPaint", "largest-contentful-paint", "ms"),
    BudgetMapping("totalBlockingTime", "total-blocking-time", "ms"),
    BudgetMapping("cumulativeLayoutShift", "cumulative-layout-shift", "score"),
    BudgetMapping("speedIndex", "speed-index", "ms")
  ]

  const LCP_THRESHOLD: real := 2.5
  const MIN_UNUSED_JS_BYTES: real := 2048.0
  const MIN_RESOURCE_SIZE_KB: real := 0.0

  /** The default flags are three, and exactly the first one selects headless mode. */
  lemma ChromeFlagsHaveOneHeadlessFlag()
    ensures |CHROME_FLAGS| == 3 && CHROME_FLAGS[0] == HEADLESS_PREFIX
    ensures forall i :: 0 <= i < |CHROME_FLAGS| ==> (StartsWith(CHROME_FLAGS[i], HEADLESS_PREFIX) <==> i == 0)
  {
    assert !StartsWith(CHROME_FLAGS[1], HEADLESS_PREFIX) by { assert CHROME_FLAGS[1][2] != HEADLESS_PREFIX[2]; }
    assert !StartsWith(CHROME_FLAGS[2], HEADLESS_PREFIX) by { assert CHROME_FLAGS[2][2] != HEADLESS_PREFIX[2]; }
  }

  lemma ScreenDimensionValues()
    ensures ScreenDimensions(Desktop) == Dimensions(1350, 940)
    ensures ScreenDimensions(Mobile) == Dimensions(360, 640)
  {
  }

  lemma ThrottlingValues()
    ensures THROTTLING_ENABLED.rttMs == 150.0 && THROTTLING_ENABLED.throughputKbps == 1638.4
    ensures THROTTLING_ENABLED.cpuSlowdownMultiplier == 4.0
    ensures THROTTLING_DISABLED.rttMs == 0.0 && THROTTLING_DISABLED.throughputKbps == 10240.0
    ensures THROTTLING_DISABLED.cpuSlowdownMultiplier == 1.0
  {
  }

  /** The metric allowlist holds six distinct audit ids. */
  lemma KeyMetricsDistinct()
    ensures |KEY_METRICS| == 6 && Distinct(KEY_METRICS)
  {
  }

  lemma AuditListsDistinct()
    ensures Distinct(LCP_OPPORTUNITIES) && Distinct(SECURITY_AUDITS)
  {
  }

  /** Five budget mappings with distinct keys; only the layout-shift budget is a score, and every
      budgeted metric is one of the key metrics. */
  lemma BudgetMappingsWellFormed()
    ensures |BUDGET_METRIC_MAPPINGS| == 5
    ensures Distinct(Map(BUDGET_METRIC_MAPPINGS, (m: BudgetMapping) => m.key))
    ensures forall m :: m in BUDGET_METRIC_MAPPINGS ==>
      (m.unit == "score" <==> m.key == "cumulativeLayoutShift") &&
      (m.unit == "score" || m.unit == "ms") &&
      m.metric in KEY_METRICS
  {
  }

  lemma DefaultValues()
    ensures LCP_THRESHOLD == 2.5 && MIN_UNUSED_JS_BYTES == 2048.0 && MIN_RESOURCE_SIZE_KB == 0.0
  {
  }
}
