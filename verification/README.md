# lighthouse-mcp-server core, modelled in Dafny

This project models the core of lighthouse-mcp-server. The server exposes Google Lighthouse audits as MCP
tools. The model covers how it launches the browser and how it turns the audit engine's raw result
(the "LHR") into its reports. It covers these steps:

- the Chrome launch configuration that the process keeps, and the command line parsed into it;
- the composition of Chrome's flags;
- the engine options derived from a device and a throttling switch;
- the formatting of category scores and key metrics;
- the per-category listing of audits;
- the analyses:
  - unused JavaScript;
  - resources and their per-type summary;
  - the security audits;
- the performance helpers:
  - score;
  - Core Web Vitals;
  - mobile/desktop comparison;
  - budget check;
  - LCP opportunities;
- the accessibility, SEO and PWA helpers.

The audit engine and the browser are not modelled. Each operation that runs the engine receives the engine's
answer as a parameter: `Option<Lhr>` where the engine may return nothing, or an `Lhr` where the code only
reads it. The request the operation would send is given by its own function (`PerformanceRequest`,
`CategoryRuns`, `ComparisonRequests`, …).

Modules, one per source file:

| module | file | form |
|---|---|---|
| `LighthouseConstants` | constants.dfy | constants and lemmas about them |
| `ChromeConfig` | chrome_config.dfy | a class for the process-wide configuration; a method with loops for `buildChromeFlags`, proved equal to a specification function |
| `Cli` | cli.dfy | methods that update the configuration record step by step |
| `LighthouseCore` | lighthouse_core.dfy | methods with loops for the two dictionary-filling formatters; functions for the rest |
| `LighthouseAnalysis` | lighthouse_analysis.dfy | functions, plus a method with a loop for the per-type summary |
| `LighthousePerformance` | lighthouse_performance.dfy | functions, plus methods with loops for the comparison and the budget check |
| `LighthouseCategories` | lighthouse_categories.dfy | functions |

The support modules are:

- `Wrappers` (`Option`, `Result`);
- `Seqs` (`map`/`filter` on lists, first-occurrence de-duplication);
- `Strings` (`startsWith`, `includes`, ASCII `toLowerCase`, decimal digits);
- `LighthouseTypes`:
  - the raw result records;
  - JavaScript objects used as dictionaries. These are insertion-ordered entry lists with distinct keys (`Dict`). JavaScript lists integer-like keys first, in numeric order; none of the keys this core uses (category ids, metric and audit ids, resource types, budget fields) is integer-like, so for them insertion order is JavaScript's order. Assigning a key (`Put`) overwrites the entry of an existing key in place and appends a new key;
  - `Math.round`.

## Model

| member | source | states |
|---|---|---|
| LighthouseConstants.ChromeFlagsHaveOneHeadlessFlag | src/lighthouse-constants.ts:2 | the default Chrome flags are three, and only the first selects headless mode |
| LighthouseConstants.ScreenDimensionValues | src/lighthouse-constants.ts:5-8 | desktop is 1350×940, mobile 360×640 |
| LighthouseConstants.ThrottlingValues | src/lighthouse-constants.ts:11-22 | the enabled profile is 150 ms RTT, 1638.4 kbps, CPU ×4; the disabled one is 0 ms, 10240 kbps, ×1 |
| LighthouseConstants.KeyMetricsDistinct | src/lighthouse-constants.ts:25-32 | six key metrics, no repeats |
| LighthouseConstants.AuditListsDistinct | src/lighthouse-constants.ts:35-53 | the LCP-opportunity and security audit lists have no repeats |
| LighthouseConstants.BudgetMappingsWellFormed | src/lighthouse-constants.ts:56-62 | five mappings with distinct keys; only the layout-shift budget is in "score", the rest in "ms"; every mapped metric is a key metric |
| LighthouseConstants.DefaultValues | src/lighthouse-constants.ts:65-69 | LCP threshold 2.5 s, unused-JS minimum 2048 bytes, resource minimum 0 KB |
| ChromeConfig.LaunchConfigStore.constructor | src/chrome-config.ts:12-17 | the store starts with the defaults: headless on, no extra flags |
| ChromeConfig.LaunchConfigStore.SetChromeLaunchConfig | src/chrome-config.ts:19-25 | the new configuration overlays the defaults: `headless` defaults to true; the extra flags are replaced as a whole, defaulting to none; other fields are taken as given |
| ChromeConfig.LaunchConfigStore.GetChromeLaunchConfig | src/chrome-config.ts:27-32 | returns a copy equal to the stored configuration, with the flag list always present |
| ChromeConfig.LaunchConfigStore.GetChromeLaunchOptions | src/chrome-config.ts:73-81 | the launch options of the stored configuration |
| ChromeConfig.KeepFlagsMembers | src/chrome-config.ts:42-46 | a flag survives a push loop iff it is in the input and headless flags are allowed or it is not one |
| ChromeConfig.DedupeFlags | src/chrome-config.ts:93-95 | the result has no repeats and holds exactly the input's flags |
| ChromeConfig.PushKeptFlags | src/chrome-config.ts:42-46 | one push loop appends exactly the surviving flags, in order |
| ChromeConfig.BuildChromeFlags | src/chrome-config.ts:34-59 | the loops and pushes produce `ChromeFlags`: surviving defaults, then the profile flag, then surviving extra flags, de-duplicated |
| ChromeConfig.CombinedFlagsMembers | src/chrome-config.ts:34-59 | a flag is passed iff it is a surviving default, the profile flag, or a surviving extra flag |
| ChromeConfig.DefaultFlagsKeptWhenHeadless | src/chrome-config.ts:35-45 | with headless on or unset and no override, every default flag is passed |
| ChromeConfig.NoHeadlessFlagWhenDisabled | src/chrome-config.ts:38-56 | with headless off and no override, no passed flag selects headless mode |
| ChromeConfig.ProfileFlagIsNotHeadless | src/chrome-config.ts:48-50 | the profile flag never selects headless mode |
| ChromeConfig.HeadlessOverrideWins | src/chrome-config.ts:37-39 | with a headless flag among the extra flags, the headless flags passed are exactly those extra ones, whatever `headless` says |
| ChromeConfig.ProfileDirectoryFlagAdded | src/chrome-config.ts:48-50 | a set profile directory is passed as `--profile-directory=<dir>` |
| ChromeConfig.ExtraFlagsKept | src/chrome-config.ts:52-56 | every extra flag that does not select headless mode is passed |
| ChromeConfig.ChromeFlagsShape | src/chrome-config.ts:40-58 | the output has no repeats, holds only default, profile or extra flags, and keeps the order of first push |
| ChromeConfig.PortOnlyConfigIsNotProfile | src/chrome-config.ts:83-91 | a configuration naming only a port, or nothing, is not a profile configuration |
| ChromeConfig.DefaultFlagsAreNotProfileFlags | src/chrome-config.ts:90 | no default flag selects a profile |
| ChromeConfig.ProfileFlagsAreNotHeadless | src/chrome-config.ts:90 | a profile-selecting flag never selects headless mode |
| ChromeConfig.ProfileConfigIffProfileLaunch | src/chrome-config.ts:61-91 | `isProfileConfig` holds iff the launch options carry a user-data directory or a flag selecting a user-data or profile directory |
| ChromeConfig.BuildChromeLaunchOptions | src/chrome-config.ts:61-71 | the flags are `ChromeFlags`; the user-data directory is present iff set, and then equal to it |
| Cli.LastSlash | src/cli.ts:43-44 | the position of the last '/', with none after it, or none at all |
| Cli.Basename | src/cli.ts:44 | the last path component contains no '/' |
| Cli.PathSplitRoundTrip | src/cli.ts:43-44 | a path with a '/' past its start is its directory, '/', and its last component; a path without '/' is its own last component in directory "." |
| Cli.ParsePort | src/cli.ts:66-77 | a port comes only from a decimal string, and it is positive |
| Cli.ParsePortRoundTrip | src/cli.ts:66-77 | every positive number written in decimal reads back as itself; "0", "", absent and booleans give nothing |
| Cli.TextValues | src/cli.ts:58 | the string items in their order and with their repeats: mapped back to values they are exactly the filter of the string values |
| Cli.ApplyHeadless | src/cli.ts:26-32 | a boolean `--headless` is taken; a truthy `--no-headless` then forces false |
| Cli.ApplyProfile | src/cli.ts:34-45 | `--profile-path`, when a string, sets both directory and profile from its split; otherwise the two string options are taken |
| Cli.ApplyPort | src/cli.ts:47-53 | a valid `--remote-debugging-port` wins over a valid `--chrome-port`; with neither the configuration is unchanged |
| Cli.ApplyChromeFlags | src/cli.ts:55-61 | a list keeps its strings, a single string becomes a list of one, anything else changes nothing |
| Cli.ParseCliArgs | src/cli.ts:5-64 | the configuration field by field: `--no-headless` over `--headless`, `--profile-path` over the two directory options, the remote-debugging port over the Chrome port (always positive), and the extra flags |
| LighthouseCore.ScreenEmulationSpec | src/lighthouse-core.ts:14-23 | mobile emulation iff the device is mobile, at that device's size, scale 1, enabled |
| LighthouseCore.LighthouseOptionsSpec | src/lighthouse-core.ts:26-41 | port, device and category filter pass through; throttling is the enabled profile iff requested, the disabled one otherwise; output is JSON |
| LighthouseCore.RunRawLighthouseAudit | src/lighthouse-core.ts:44-64 | fails with "Failed to run Lighthouse audit" iff the engine returned nothing, else returns the engine's result |
| LighthouseCore.CategoryScores | src/lighthouse-core.ts:84-90 | one formatted entry per raw category, same keys, same order |
| LighthouseCore.FormatCategoryScores | src/lighthouse-core.ts:81-93 | the loop fills the dictionary with exactly `CategoryScores` |
| LighthouseCore.CategoryScoresSpec | src/lighthouse-core.ts:81-93 | each score is the rounded percentage of the raw score, 0 when null; a raw score in [0, 1] gives 0..100 |
| LighthouseCore.LookupCategoryScores | src/lighthouse-core.ts:84-90 | a key's formatted entry is the formatting of its raw category, absent when the category is |
| LighthouseCore.MetricsFor | src/lighthouse-core.ts:100-110 | entries exactly for the listed ids that have an audit, in list order, each the formatted audit |
| LighthouseCore.SubseqOfDistinct | src/lighthouse-core.ts:100 | a sublist of a repeat-free list is repeat-free (the metric keys are distinct) |
| LighthouseCore.SubseqMembers | src/lighthouse-core.ts:100 | a sublist holds only members of the list |
| LighthouseCore.KeyMetricsSpec | src/lighthouse-core.ts:96-114 | the metric keys are exactly the key metrics that have an audit, in key-metric order; no audits give no metrics |
| LighthouseCore.FormatMetricSpec | src/lighthouse-core.ts:103-108 | value 0 and display "N/A" for missing fields; a null score stays null, any other score is a rounded percentage, in 0..100 for [0, 1] |
| LighthouseCore.MetricsForStep | src/lighthouse-core.ts:100-110 | one more key metric appends its entry, when present, under a key not written before |
| LighthouseCore.ExtractKeyMetrics | src/lighthouse-core.ts:96-114 | the loop fills the dictionary with exactly `KeyMetrics` |
| LighthouseCore.FilterAuditsByCategoryIds | src/lighthouse-core.ts:67-78 | the listed ids are, in audit order, exactly the audits the category references |
| LighthouseCore.FilterAuditsByCategoryMembers | src/lighthouse-core.ts:67-78 | an audit is listed iff referenced, with its fields copied; an unknown category or one without references lists nothing |
| LighthouseCore.FilterAuditsListed | src/lighthouse-core.ts:68-69 | an audit is listed iff the category references it |
| LighthouseCore.FilterAuditsEntries | src/lighthouse-core.ts:70-77 | every listed entry is the summary of the audit stored under its id |
| LighthouseCore.RunLighthouseAudit | src/lighthouse-core.ts:117-135 | the engine failure propagates; otherwise url, fetch time, version, user agent and device come from the run, with formatted categories and key metrics |
| LighthouseCore.GetDetailedAuditResults | src/lighthouse-core.ts:138-146 | fails iff the engine returned nothing; otherwise the raw result and that category's audits |
| LighthouseCore.CategoryRequest | src/lighthouse-core.ts:139 | the single-category, unthrottled run on the device |
| LighthouseAnalysis.WastedPercentBounds | src/lighthouse-analysis.ts:32 | a wasted share of a positive total rounds to 0..100 |
| LighthouseAnalysis.UnusedJavaScriptRequest | src/lighthouse-analysis.ts:10 | the request is for the given URL and device, the performance category alone, without throttling |
| LighthouseAnalysis.UnusedScriptsSpec | src/lighthouse-analysis.ts:26-33 | exactly the items wasting at least the minimum are reported, in order, each with its url, sizes and rounded percentage |
| LighthouseAnalysis.TotalWastedAtLeast | src/lighthouse-analysis.ts:35 | the total of scripts each wasting at least m is at least m per script |
| LighthouseAnalysis.UnusedScriptsWasteAtLeast | src/lighthouse-analysis.ts:27 | every reported script wastes at least the minimum |
| LighthouseAnalysis.FindUnusedJavaScriptSpec | src/lighthouse-analysis.ts:5-44 | a missing audit or details report nothing with total 0; otherwise the selected scripts and their summed waste; url, device and fetch time from the run |
| LighthouseAnalysis.UnusedTotalAtLeast | src/lighthouse-analysis.ts:35-43 | the reported total is at least the minimum per reported script |
| LighthouseAnalysis.UnusedJavaScriptExample | src/lighthouse-analysis.ts:26-35 | three items with a 1000-byte minimum: two are reported, at 50 % and 19 %, totalling 6500 bytes |
| LighthouseAnalysis.ExamplePercentages | src/lighthouse-analysis.ts:32 | 5000 of 10000 bytes is 50 %, 1500 of 8000 is 19 % |
| LighthouseAnalysis.ExampleSelection | src/lighthouse-analysis.ts:27 | two of three items pass the minimum, in order |
| LighthouseAnalysis.CategorizeResourceTypeSpec | src/lighthouse-analysis.ts:47-61 | an explicit type comes back lower-cased; otherwise each of images ("image/" prefix), javascript, css and fonts is the answer iff its MIME rule is the first to match, and "other" iff the MIME type is empty or matches none |
| LighthouseAnalysis.CategorizeImageAndScript | src/lighthouse-analysis.ts:48-55 | image and script MIME types land in their buckets; an explicit type is lower-cased |
| LighthouseAnalysis.CategorizeStyleAndFont | src/lighthouse-analysis.ts:56-57 | style-sheet and font MIME types land in their buckets |
| LighthouseAnalysis.SizeKBSpec | src/lighthouse-analysis.ts:88-96 | the two-decimal kilobyte size is within 0.005 of the exact one and keeps the order of sizes |
| LighthouseAnalysis.SelectResourcesSpec | src/lighthouse-analysis.ts:86-104 | an item is reported iff it passes the size and type filters; an empty type list keeps nothing; no filters keep everything |
| LighthouseAnalysis.SummarizeByType | src/lighthouse-analysis.ts:107-120 | the loop builds exactly `SummaryOf` |
| LighthouseAnalysis.CountOfTypeSpec | src/lighthouse-analysis.ts:115 | a type is counted iff some resource has it, never more often than there are resources |
| LighthouseAnalysis.UncountedTypeHasNoSize | src/lighthouse-analysis.ts:116 | a type counted zero times has size 0 |
| LighthouseAnalysis.SummaryEntry | src/lighthouse-analysis.ts:107-120 | a type's entry holds its count and summed transfer size, and is absent when uncounted |
| LighthouseAnalysis.SummaryStep | src/lighthouse-analysis.ts:111-118 | one more resource moves a type's entry from (count, size) to the updated pair |
| LighthouseAnalysis.TallyEntry | src/lighthouse-analysis.ts:112-116 | one reduce step on a type's entry, given its count and size |
| LighthouseAnalysis.BumpEntry | src/lighthouse-analysis.ts:112-116 | bumping a type's entry, created empty when new, gives the incremented count and size |
| LighthouseAnalysis.TallyBumps | src/lighthouse-analysis.ts:112-116 | counting a resource bumps its own type's entry |
| LighthouseAnalysis.TallyOther | src/lighthouse-analysis.ts:112-116 | counting a resource leaves other types' entries alone |
| LighthouseAnalysis.SummaryKeys | src/lighthouse-analysis.ts:107-120 | the summary's keys are the types present, once each, in order of first appearance |
| LighthouseAnalysis.SummaryOfSpec | src/lighthouse-analysis.ts:107-120 | one entry per present type, in first-appearance order, holding its count and size; no entry for an absent type |
| LighthouseAnalysis.SumsUpdate | src/lighthouse-analysis.ts:115-116 | replacing one entry changes the summed counts and sizes by that entry's difference |
| LighthouseAnalysis.TallyTotals | src/lighthouse-analysis.ts:112-116 | counting one resource adds 1 to the summed counts and its size to the summed sizes |
| LighthouseAnalysis.SummaryTotals | src/lighthouse-analysis.ts:107-120 | the counts add up to the number of resources and the sizes to their total transfer size |
| LighthouseAnalysis.AnalyzeResources | src/lighthouse-analysis.ts:64-129 | url, device and fetch time from the run; no audit or details give no resources and an empty summary; otherwise the selected resources and their summary |
| LighthouseAnalysis.SecurityEntriesSpec | src/lighthouse-analysis.ts:136-149 | the reported ids are the listed ids that have an audit and pass the checks, in list order; each entry copies its audit |
| LighthouseAnalysis.ScoreSumBounds | src/lighthouse-analysis.ts:152 | scores in [0, 1], null as 0, sum to between 0 and the number of entries |
| LighthouseAnalysis.OverallScoreSpec | src/lighthouse-analysis.ts:151-158 | the overall score is undefined (NaN) iff nothing is reported, and otherwise within 0..100 |
| LighthouseAnalysis.OverallScoreExample | src/lighthouse-analysis.ts:151-158 | scores 1 and 0 (or null) average to 50 |
| LighthouseAnalysis.SecurityAuditRequest | src/lighthouse-analysis.ts:133 | the request is for the given URL and device, the best-practices category alone, without throttling |
| LighthouseAnalysis.GetSecurityAuditSpec | src/lighthouse-analysis.ts:132-162 | entries follow the security list; the overall score is their mean; an empty check list reports nothing; at most five entries |
| LighthousePerformance.PerformanceRequest | src/lighthouse-performance.ts:6 | the run is the performance category alone on the device, unthrottled |
| LighthousePerformance.CategoryScoreOfRaw | src/lighthouse-performance.ts:10 | the score read under a key is that raw category's formatted score, 0 when it is missing |
| LighthousePerformance.FormattedScoreBounds | src/lighthouse-core.ts:87 | a raw score in [0, 1] formats to 0..100 |
| LighthousePerformance.PerformanceScoreFields | src/lighthouse-performance.ts:5-14 | url, device, fetch time and the key metrics are passed on from the run |
| LighthousePerformance.PerformanceScoreSpec | src/lighthouse-performance.ts:10 | the score is the formatted performance score, 0 when missing; within 0..100 for a raw score in [0, 1] |
| LighthousePerformance.CoreWebVitalsSpec | src/lighthouse-performance.ts:17-47 | the four vitals are the matching metrics; no thresholds give no verdicts; a verdict is absent iff its threshold is absent or 0, otherwise it compares the value (LCP in seconds, TBT against FID, 0 when missing) |
| LighthousePerformance.SecondsWithin | src/lighthouse-performance.ts:34 | milliseconds over 1000 are within a limit in seconds iff the milliseconds are within 1000 times it |
| LighthousePerformance.MissingMetricCountsAsZero | src/lighthouse-performance.ts:34 | a missing LCP metric counts as 0: it meets a positive threshold and fails a negative one |
| LighthousePerformance.ComparisonRequests | src/lighthouse-performance.ts:52-53 | two runs, mobile then desktop, same url, categories and throttling |
| LighthousePerformance.DifferenceEntry | src/lighthouse-performance.ts:70-77 | one mobile category yields an entry under its key iff desktop has that key |
| LighthousePerformance.Differences | src/lighthouse-performance.ts:69-78 | the difference keys are the mobile keys desktop also has, in mobile order |
| LighthousePerformance.DifferencesDistinct | src/lighthouse-performance.ts:65-78 | the differences form a dictionary |
| LighthousePerformance.DifferencesAppend | src/lighthouse-performance.ts:69-78 | one more mobile category appends its entry |
| LighthousePerformance.DifferencesFresh | src/lighthouse-performance.ts:69-72 | the next mobile key has no difference yet |
| LighthousePerformance.DifferencesStep | src/lighthouse-performance.ts:70-77 | assigning the next difference appends it under a new key |
| LighthousePerformance.CompareMobileDesktop | src/lighthouse-performance.ts:50-81 | both runs are echoed and the loop builds exactly `Differences` |
| LighthousePerformance.LookupDifferenceEntry | src/lighthouse-performance.ts:71-76 | one entry looked up: its difference iff desktop has the key |
| LighthousePerformance.LookupDifferences | src/lighthouse-performance.ts:69-78 | a category has a difference iff both runs scored it |
| LighthousePerformance.DifferenceSpec | src/lighthouse-performance.ts:72-76 | a difference exists iff both runs scored the category; it holds both scores and desktop minus mobile |
| LighthousePerformance.DifferencesAntisymmetric | src/lighthouse-performance.ts:75 | swapping the runs keeps the categories and negates each difference |
| LighthousePerformance.MappingKeys | src/lighthouse-performance.ts:120 | one key per mapping |
| LighthousePerformance.MappingKeysAt | src/lighthouse-performance.ts:120 | the i-th key is the i-th mapping's |
| LighthousePerformance.FreshKeysAt | src/lighthouse-performance.ts:120-125 | with fresh keys, each mapping key is new when written |
| LighthousePerformance.ScoreKeyNotMapped | src/lighthouse-performance.ts:110-125 | with fresh keys, no mapping overwrites the score entry |
| LighthousePerformance.BudgetMappingKeys | src/lighthouse-constants.ts:56-62 | the five budget keys in mapping order |
| LighthousePerformance.BudgetMappingsFresh | src/lighthouse-constants.ts:56-62 | the five mappings have fresh keys |
| LighthousePerformance.MappingKeysPrefix | src/lighthouse-performance.ts:120 | the keys of a prefix are the prefix of the keys |
| LighthousePerformance.BudgetKeysDistinct | src/lighthouse-performance.ts:87-94 | the six budget keys are distinct |
| LighthousePerformance.ScoreChecksKeys | src/lighthouse-performance.ts:107-117 | the score entry exists iff the budget sets a score |
| LighthousePerformance.MetricChecksKeys | src/lighthouse-performance.ts:120-133 | the metric entries are keyed by the set mapping keys, in mapping order |
| LighthousePerformance.AllPassedAppend | src/lighthouse-performance.ts:116-131 | a joined list of checks all pass iff both parts do |
| LighthousePerformance.AllPassedSnoc | src/lighthouse-performance.ts:116-131 | one more check keeps all passing iff it passes |
| LighthousePerformance.ChecksUpToKeys | src/lighthouse-performance.ts:107-133 | the keys so far are the set keys among the score key and the mapping keys seen |
| LighthousePerformance.KeysOfFiltered | src/lighthouse-performance.ts:107-133 | entry lists keyed by filtered key lists join to one keyed by the joined filter |
| LighthousePerformance.ChecksAppend | src/lighthouse-performance.ts:120-133 | one more mapping appends its entry |
| LighthousePerformance.ChecksKeyFresh | src/lighthouse-performance.ts:125 | the next mapping key has no entry yet |
| LighthousePerformance.ChecksStep | src/lighthouse-performance.ts:121-131 | writing the next entry, when set, appends it under a new key |
| LighthousePerformance.CheckPerformanceBudget | src/lighthouse-performance.ts:84-136 | the results are exactly `BudgetResults`; `overallPassed` iff every check passed; url, device and fetch time from the run |
| LighthousePerformance.BudgetResultsKeys | src/lighthouse-performance.ts:107-133 | the result keys are the set budget keys, a budget of 0 included, score first, then in mapping order |
| LighthousePerformance.BudgetScoreEntry | src/lighthouse-performance.ts:107-117 | the score entry compares the score (0 when missing) with `>=` against the budget, in unit "score" |
| LighthousePerformance.ScoreEntryOf | src/lighthouse-performance.ts:107-133 | the metric loop never disturbs the score entry |
| LighthousePerformance.LookupFilteredAbsent | src/lighthouse-performance.ts:107-133 | a key the filter drops has no entry |
| LighthousePerformance.BudgetMetricEntry | src/lighthouse-performance.ts:120-133 | each metric entry exists iff its budget is set; it compares the value (0 when missing) with `<=`, in the mapping's unit |
| LighthousePerformance.MetricEntryOf | src/lighthouse-performance.ts:120-133 | a mapping key's entry after all checks is its metric check, or absent |
| LighthousePerformance.LookupMetricChecks | src/lighthouse-performance.ts:120-133 | with fresh keys, a set mapping key's entry is its check |
| LighthousePerformance.EmptyBudgetPasses | src/lighthouse-performance.ts:103-135 | an empty budget checks nothing and passes |
| LighthousePerformance.Present | src/lighthouse-performance.ts:163 | dropping the nulls never lengthens the list |
| LighthousePerformance.PresentSnoc | src/lighthouse-performance.ts:163 | dropping the nulls of a list with one more value |
| LighthousePerformance.OpportunityIds | src/lighthouse-performance.ts:150-163 | the opportunity ids are exactly the improvable audits, in list order |
| LighthousePerformance.OpportunityForId | src/lighthouse-performance.ts:151-162 | the callback yields an opportunity iff the audit exists with a score below 1, under that id |
| LighthousePerformance.OpportunitiesImprovable | src/lighthouse-performance.ts:150-163 | each opportunity is an improvable audit's, carrying its fields |
| LighthousePerformance.LcpOpportunitiesSpec | src/lighthouse-performance.ts:139-174 | LCP is the audit's numeric value divided by 1000 when the audit exists (a missing value counting as 0) and 0 when it does not; improvement is needed iff LCP exceeds the threshold; the opportunities are the improvable audits in list order, each carrying its audit's fields |
| LighthouseCategories.CategoryRuns | src/lighthouse-categories.ts:9-20 | one single-category run on the device, a second one with details |
| LighthouseCategories.CategoryHelper | src/lighthouse-categories.ts:4-25 | fails iff a needed run fails; url, device and fetch time from the first run; the score is the formatted category score, 0 when missing; audits iff details were asked for |
| LighthouseCategories.GetAccessibilityScore | src/lighthouse-categories.ts:4-25 | the accessibility score; URL, device and fetch time from the scored run; the category's audits from the detailed run iff details were requested |
| LighthouseCategories.GetSeoAnalysis | src/lighthouse-categories.ts:28-45 | the SEO score; URL, device and fetch time from the scored run; the category's audits from the detailed run iff details were requested |
| LighthouseCategories.CheckPwaReadiness | src/lighthouse-categories.ts:48-65 | the PWA score; URL, device and fetch time from the scored run; the category's audits from the detailed run iff details were requested |
| LighthouseCategories.DetailsOnlyAddAudits | src/lighthouse-categories.ts:19-24 | asking for details keeps the base fields and only adds the audits |
| LighthouseCategories.CategoryScoreBounds | src/lighthouse-categories.ts:15 | a missing category scores 0; a raw score in [0, 1] gives 0..100 |
| LighthouseTypes.Lookup | src/lighthouse-core.ts:101 | a key is found iff it is among the keys, and then with its stored value |
| LighthouseTypes.Put | src/lighthouse-core.ts:85 | assignment keeps an existing key's position or appends a new key; the key then holds the value |
| LighthouseTypes.LookupPutOther | src/lighthouse-analysis.ts:112-116 | assigning one key leaves every other key's value alone |
| LighthouseTypes.Round | src/lighthouse-core.ts:87 | `Math.round` lands within half of its argument |
| LighthouseTypes.RoundPercentBounds | src/lighthouse-core.ts:87 | a fraction in [0, 1] rescaled to a percentage rounds to 0..100 |
| Seqs.Dedupe | src/chrome-config.ts:94 | no repeats, and the same members as the input |
| Seqs.DedupeKeepsFirstOccurrenceOrder | src/chrome-config.ts:94 | de-duplication keeps the order of first occurrence |
| Seqs.DedupeIdempotent | src/chrome-config.ts:94 | de-duplicating twice is de-duplicating once |
| Seqs.FilterMembers | src/lighthouse-analysis.ts:100-104 | `filter` keeps exactly the members satisfying its predicate |
| Strings.ToLower | src/lighthouse-analysis.ts:49 | ASCII lower-casing: keeps the length, maps each of A-Z to its lower-case letter and every other character to itself, leaves no upper-case ASCII letter |
| Strings.DecimalRoundTrip | src/cli.ts:71 | every natural written in decimal reads back as itself |

## Left out

- The audit engine, the browser launch (`launchChrome`), killing the browser, and `await`. The engine's answer is a parameter of each operation; which request it answers is stated separately.
- The module-level `runtimeConfig` is the field of one `LaunchConfigStore` object. Sharing it between concurrent callers is not modelled.
- LaunchConfigStore.GetChromeLaunchOptions: it does not create the user-data directory (`ensureDirectory`), since that is file-system I/O.
- The node `parseArgs` tokenizer. `ParseCliArgs` takes the per-option values it produces (`ParsedValues`), each of which may be absent, a boolean, a string, or a list.
- Cli.ParsePort: `Number(value)` is modelled as a plain decimal-digit parse. The source also accepts what JavaScript's `Number` reads as a finite positive number; the model rejects these:
  - surrounding white space;
  - a leading `+`;
  - fractions such as "12.5";
  - exponents;
  - hexadecimal.
- Cli.Dirname and Cli.Basename split at the last '/'. They do not model the special cases of node's `path` module: trailing slashes, paths made only of slashes, and a leading "//" (node's `dirname("//a")` is "//", the model gives "/").
- Strings.ToLower: lower-cases the ASCII letters A-Z only. JavaScript's `toLowerCase` applies full Unicode case mapping, which can also change other letters and the length ("İ" becomes two characters); the resource types this core lower-cases are ASCII names.
- Real numbers stand in for IEEE doubles. No NaN and no infinities, no rounding of the arithmetic itself. `Math.round` is floor(x + 0.5), which is what JavaScript specifies for finite values.
- LighthouseAnalysis.WastedPercent: a missing or zero total gives `None`, standing for the source's NaN or Infinity. Non-numeric item fields (the source's unchecked `as number` casts) are not modelled.
- LighthouseAnalysis.OverallScore: `None` stands for the NaN of the mean of no entries.
- The budget argument is a map from field name to number. A field absent from the map is `undefined`.
- The per-category helpers take the two engine answers (scored run, detailed run) as independent inputs. The model does not relate them.
- Default parameter values (`device = "desktop"`, `includeDetails = false`, `minBytes`, `minSize`, `threshold`) are not modelled. Callers pass every argument; the default values themselves are the constants of `LighthouseConstants`.
- The report field holding the category score is named `score` in `CategoryReport` for all three helpers. The source names it `accessibilityScore`, `seoScore` or `pwaScore`.
- Nothing outside the core files is modelled: the MCP tool registrations, the schemas, the resources and prompts, and the older `lighthouse.ts` entry points.
