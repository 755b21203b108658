/** Analyses derived from one raw audit result: unused JavaScript, the network resources by type, and
    the security audits with their mean score. The engine run each analysis starts is an input: the
    functions below take the raw result it produced. */
module LighthouseAnalysis {
  import opened Wrappers
  import opened Seqs
  import opened Strings
  import opened LighthouseConstants
  import opened LighthouseTypes
  import opened LighthouseCore

  const UNUSED_JAVASCRIPT_AUDIT: string := "unused-javascript"
  const NETWORK_REQUESTS_AUDIT: string := "network-requests"

  /** A string option in a JavaScript condition: present and non-empty. */
  predicate Truthy(s: Option<string>) {
    s.Some? && s.value != ""
  }

  /** `details.items || []`. */
  function DetailItems(details: Details): seq<Item> {
    details.items.GetOr([])
  }

  /** The details of the audit `id`, when the audit and its details are both present. */
  function AuditDetails(lhr: Lhr, id: string): Option<Details> {
    match Lookup(lhr.audits, id)
    case None => None
    case Some(audit) => audit.details
  }

  // ---------------------------------------------------------------------------------------------
  // Unused JavaScript

  datatype UnusedScript = UnusedScript(
    url: Option<string>,
    totalBytes: Option<real>,
    wastedBytes: real,
    wastedPercent: Option<int>)

  datatype UnusedJavaScriptReport = UnusedJavaScriptReport(
    url: string,
    device: Device,
    totalUnusedBytes: real,
    items: seq<UnusedScript>,
    fetchTime: string)

  /** The item's `wastedBytes` is a number of at least `minBytes` (a missing value never compares). */
  predicate WastesAtLeast(item: Item, minBytes: real) {
    item.wastedBytes.Some? && item.wastedBytes.value >= minBytes
  }

  /** `Math.round(wasted / total * 100)`; `None` stands for the non-finite result of a missing or zero total. */
  function WastedPercent(wasted: real, total: Option<real>): Option<int> {
    if total.Some? && total.value != 0.0 then Some(Round(wasted / total.value * 100.0)) else None
  }

  /** A wasted share of a positive total rounds to a percentage in 0..100. */
  lemma WastedPercentBounds(wasted: real, total: real)
    requires 0.0 <= wasted <= total && total > 0.0
    ensures WastedPercent(wasted, Some(total)).Some?
    ensures 0 <= WastedPercent(wasted, Some(total)).value <= 100
  {
    assert 0.0 <= wasted / total <= 1.0;
    RoundPercentBounds(wasted / total);
  }

  function ToUnusedScript(item: Item): UnusedScript {
    var wasted := item.wastedBytes.GetOr(0.0);
    UnusedScript(item.url, item.totalBytes, wasted, WastedPercent(wasted, item.totalBytes))
  }

  /** The reported scripts: the items wasting at least `minBytes`, in item order. */
  function UnusedScripts(items: seq<Item>, minBytes: real): seq<UnusedScript> {
    Map(Filter(items, item => WastesAtLeast(item, minBytes)), ToUnusedScript)
  }

  /** The sum of the scripts' wasted bytes. */
  function TotalWasted(scripts: seq<UnusedScript>): real {
    if scripts == [] then 0.0 else TotalWasted(scripts[..|scripts| - 1]) + scripts[|scripts| - 1].wastedBytes
  }

  /** `findUnusedJavaScript` over the raw result of its performance run. */
  function FindUnusedJavaScript(lhr: Lhr, device: Device, minBytes: real): UnusedJavaScriptReport {
    match AuditDetails(lhr, UNUSED_JAVASCRIPT_AUDIT)
    case None => UnusedJavaScriptReport(lhr.finalDisplayedUrl, device, 0.0, [], lhr.fetchTime)
    case Some(details) =>
      var scripts := UnusedScripts(DetailItems(details), minBytes);
      UnusedJavaScriptReport(lhr.finalDisplayedUrl, device, TotalWasted(scripts), scripts, lhr.fetchTime)
  }

  /** The run `findUnusedJavaScript` starts: the performance category only, on the given device. */
  function UnusedJavaScriptRequest(url: string, device: Device): (q: AuditRequest)
    ensures q.url == url && q.categories == Some(["performance"]) && q.device == device && !q.throttling
  {
    CategoryRequest(url, "performance", device)
  }

  /** Exactly the items wasting at least `minBytes` are reported, in item order, with their url, total and
      wasted bytes copied. */
  lemma UnusedScriptsSpec(items: seq<Item>, minBytes: real)
    ensures |UnusedScripts(items, minBytes)| <= |items|
    ensures forall s :: s in UnusedScripts(items, minBytes) ==> s.wastedBytes >= minBytes
    ensures forall item :: item in items && WastesAtLeast(item, minBytes) ==>
      ToUnusedScript(item) in UnusedScripts(items, minBytes)
    ensures forall s :: s in UnusedScripts(items, minBytes) ==>
      exists item :: item in items && WastesAtLeast(item, minBytes) && s == ToUnusedScript(item)
    ensures IsSubseq(Filter(items, item => WastesAtLeast(item, minBytes)), items)
  {
    var p := (item: Item) => WastesAtLeast(item, minBytes);
    var kept := Filter(items, p);
    var r := Map(kept, ToUnusedScript);
    FilterMembers(items, p);
    forall item | item in items && p(item) ensures ToUnusedScript(item) in r {
      var k :| 0 <= k < |kept| && kept[k] == item;
      assert r[k] == ToUnusedScript(item);
    }
    forall s | s in r ensures exists item :: item in items && p(item) && s == ToUnusedScript(item) {
      var k :| 0 <= k < |r| && r[k] == s;
      assert kept[k] in kept;
    }
    FilterIsSubseq(items, p);
  }

  /** When every script wastes at least `minBytes`, the total is at least that much per script. */
  lemma {:induction false} TotalWastedAtLeast(scripts: seq<UnusedScript>, minBytes: real)
    requires forall i :: 0 <= i < |scripts| ==> scripts[i].wastedBytes >= minBytes
    ensures TotalWasted(scripts) >= |scripts| as real * minBytes
    decreases |scripts|
  {
    if scripts != [] {
      TotalWastedAtLeast(scripts[..|scripts| - 1], minBytes);
    }
  }

  /** Every reported script wastes at least `minBytes`. */
  lemma UnusedScriptsWasteAtLeast(items: seq<Item>, minBytes: real)
    ensures forall i :: 0 <= i < |UnusedScripts(items, minBytes)| ==> UnusedScripts(items, minBytes)[i].wastedBytes >= minBytes
  {
    var p := (item: Item) => WastesAtLeast(item, minBytes);
    var kept := Filter(items, p);
    FilterMembers(items, p);
    forall i | 0 <= i < |kept| ensures UnusedScripts(items, minBytes)[i].wastedBytes >= minBytes {
      assert kept[i] in kept;
    }
  }

  /** A missing audit or missing details report nothing; otherwise the report lists the selected scripts;
      the total is the sum of the listed wasted bytes, each at least `minBytes`. */
  lemma FindUnusedJavaScriptSpec(lhr: Lhr, device: Device, minBytes: real)
    ensures var r := FindUnusedJavaScript(lhr, device, minBytes);
      r.url == lhr.finalDisplayedUrl && r.device == device && r.fetchTime == lhr.fetchTime
    ensures AuditDetails(lhr, UNUSED_JAVASCRIPT_AUDIT).None? ==>
      FindUnusedJavaScript(lhr, device, minBytes).totalUnusedBytes == 0.0 &&
      FindUnusedJavaScript(lhr, device, minBytes).items == []
    ensures AuditDetails(lhr, UNUSED_JAVASCRIPT_AUDIT).Some? ==>
      var r := FindUnusedJavaScript(lhr, device, minBytes);
      r.items == UnusedScripts(DetailItems(AuditDetails(lhr, UNUSED_JAVASCRIPT_AUDIT).value), minBytes)
    ensures var r := FindUnusedJavaScript(lhr, device, minBytes);
      r.totalUnusedBytes == TotalWasted(r.items) &&
      forall i :: 0 <= i < |r.items| ==> r.items[i].wastedBytes >= minBytes
  {
    var details := AuditDetails(lhr, UNUSED_JAVASCRIPT_AUDIT);
    if details.Some? {
      var scripts := UnusedScripts(DetailItems(details.value), minBytes);
      assert FindUnusedJavaScript(lhr, device, minBytes) ==
        UnusedJavaScriptReport(lhr.finalDisplayedUrl, device, TotalWasted(scripts), scripts, lhr.fetchTime);
      UnusedScriptsWasteAtLeast(DetailItems(details.value), minBytes);
    }
  }

  /** The reported total is at least `minBytes` per reported script. */
  lemma UnusedTotalAtLeast(lhr: Lhr, device: Device, minBytes: real)
    ensures FindUnusedJavaScript(lhr, device, minBytes).totalUnusedBytes >=
      |FindUnusedJavaScript(lhr, device, minBytes).items| as real * minBytes
  {
    FindUnusedJavaScriptSpec(lhr, device, minBytes);
    TotalWastedAtLeast(FindUnusedJavaScript(lhr, device, minBytes).items, minBytes);
  }

  /** Two scripts wasting 5000 of 10000 and 1500 of 8000 bytes, and one wasting 500 bytes, with a 1000-byte
      floor: the first two are reported at 50% and 19%, for 6500 bytes in all. */
  lemma UnusedJavaScriptExample()
    ensures var items := [
        Item(Some("a.js"), Some(10000.0), Some(5000.0), None, None, None, None),
        Item(Some("b.js"), Some(8000.0), Some(1500.0), None, None, None, None),
        Item(Some("c.js"), Some(1000.0), Some(500.0), None, None, None, None)];
      var scripts := UnusedScripts(items, 1000.0);
      |scripts| == 2 &&
      scripts[0].wastedPercent == Some(50) && scripts[1].wastedPercent == Some(19) &&
      TotalWasted(scripts) == 6500.0
  {
    var a := Item(Some("a.js"), Some(10000.0), Some(5000.0), None, None, None, None);
    var b := Item(Some("b.js"), Some(8000.0), Some(1500.0), None, None, None, None);
    var c := Item(Some("c.js"), Some(1000.0), Some(500.0), None, None, None, None);
    ExampleSelection(a, b, c);
    ExamplePercentages();
    var scripts := [ToUnusedScript(a), ToUnusedScript(b)];
    assert scripts[..1] == [scripts[0]];
  }

  /** The percentages of the example: 5000 of 10000 bytes and 1500 of 8000 bytes. */
  lemma ExamplePercentages()
    ensures WastedPercent(5000.0, Some(10000.0)) == Some(50)
    ensures WastedPercent(1500.0, Some(8000.0)) == Some(19)
  {
  }

  /** The selection step of the example: two of three items pass the threshold. */
  lemma ExampleSelection(a: Item, b: Item, c: Item)
    requires WastesAtLeast(a, 1000.0) && WastesAtLeast(b, 1000.0) && !WastesAtLeast(c, 1000.0)
    ensures UnusedScripts([a, b, c], 1000.0) == [ToUnusedScript(a), ToUnusedScript(b)]
  {
    var p := (item: Item) => WastesAtLeast(item, 1000.0);
    assert [a, b, c][..2] == [a, b] && [a, b][..1] == [a] && [a][..0] == [];
    assert Filter([a], p) == [a];
    assert Filter([a, b], p) == [a, b];
    assert Filter([a, b, c], p) == [a, b];
    assert Map([a, b], ToUnusedScript)[..1] == Map([a], ToUnusedScript);
  }

  // ---------------------------------------------------------------------------------------------
  // Resources by type

  const RESOURCE_BUCKETS: seq<string> := ["images", "javascript", "css", "fonts", "other"]

  /** `categorizeResourceType`: an explicit resource type wins (lower-cased); otherwise the MIME type picks
      a bucket, first match first. */
  function CategorizeResourceType(item: Item): string {
    if Truthy(item.resourceType) then ToLower(item.resourceType.value)
    else if Truthy(item.mimeType) && StartsWith(item.mimeType.value, "image/") then "images"
    else if Truthy(item.mimeType) && Contains(item.mimeType.value, "javascript") then "javascript"
    else if Truthy(item.mimeType) && Contains(item.mimeType.value, "css") then "css"
    else if Truthy(item.mimeType) && Contains(item.mimeType.value, "font") then "fonts"
    else "other"
  }

  /** An explicit type comes back lower-cased; without one the result is one of the five buckets, and each
      bucket is chosen exactly when its MIME rule is the first to match. */
  lemma CategorizeResourceTypeSpec(item: Item)
    ensures Truthy(item.resourceType) ==> CategorizeResourceType(item) == ToLower(item.resourceType.value)
    ensures !Truthy(item.resourceType) ==> CategorizeResourceType(item) in RESOURCE_BUCKETS
    ensures !Truthy(item.resourceType) ==>
      (CategorizeResourceType(item) == "images" <==>
        Truthy(item.mimeType) && StartsWith(item.mimeType.value, "image/"))
    ensures !Truthy(item.resourceType) ==>
      (CategorizeResourceType(item) == "javascript" <==>
        Truthy(item.mimeType) && !StartsWith(item.mimeType.value, "image/") &&
        Contains(item.mimeType.value, "javascript"))
    ensures !Truthy(item.resourceType) ==>
      (CategorizeResourceType(item) == "css" <==>
        Truthy(item.mimeType) && !StartsWith(item.mimeType.value, "image/") &&
        !Contains(item.mimeType.value, "javascript") && Contains(item.mimeType.value, "css"))
    ensures !Truthy(item.resourceType) ==>
      (CategorizeResourceType(item) == "fonts" <==>
        Truthy(item.mimeType) && !StartsWith(item.mimeType.value, "image/") &&
        !Contains(item.mimeType.value, "javascript") && !Contains(item.mimeType.value, "css") &&
        Contains(item.mimeType.value, "font"))
    ensures !Truthy(item.resourceType) ==>
      (CategorizeResourceType(item) == "other" <==>
        !Truthy(item.mimeType) ||
        (!StartsWith(item.mimeType.value, "image/") && !Contains(item.mimeType.value, "javascript") &&
         !Contains(item.mimeType.value, "css") && !Contains(item.mimeType.value, "font")))
  {
  }

  /** Without an explicit type, image and script MIME types land in their buckets; an explicit type is
      lower-cased. */
  lemma CategorizeImageAndScript()
    ensures CategorizeResourceType(Item(None, None, None, None, None, Some("image/png"), None)) == "images"
    ensures CategorizeResourceType(Item(None, None, None, None, None, Some("text/javascript"), None)) == "javascript"
    ensures CategorizeResourceType(Item(None, None, None, None, None, None, Some("Script"))) == "script"
  {
    var js := "text/javascript";
    assert OccursAt(js, "javascript", 5);
    assert !StartsWith(js, "image/") by { assert js[0] != 'i'; }
    assert ToLower("Script") == "script";
  }

  /** Style-sheet and font MIME types land in their buckets, after the earlier rules fail to match. */
  lemma CategorizeStyleAndFont()
    ensures CategorizeResourceType(Item(None, None, None, None, None, Some("text/css"), None)) == "css"
    ensures CategorizeResourceType(Item(None, None, None, None, None, Some("font/woff2"), None)) == "fonts"
  {
    var css := "text/css";
    assert OccursAt(css, "css", 5);
    assert !StartsWith(css, "image/") by { assert css[0] != 'i'; }
    FirstCharAbsent(css, "javascript");
    var font := "font/woff2";
    assert OccursAt(font, "font", 0);
    assert !StartsWith(font, "image/") by { assert font[0] != 'i'; }
    FirstCharAbsent(font, "javascript");
    FirstCharAbsent(font, "css");
  }

  datatype Resource = Resource(
    url: Option<string>,
    resourceType: string,
    transferSize: real,
    resourceSize: real,
    sizeKB: real,
    mimeType: Option<string>)

  /** Kilobytes rounded to two decimals: `Math.round(bytes / 1024 * 100) / 100`. */
  function SizeKB(bytes: real): real {
    Round(bytes / 1024.0 * 100.0) as real / 100.0
  }

  /** The rounded size is within half a hundredth of a kilobyte of the exact one and keeps the order of sizes. */
  lemma SizeKBSpec(bytes: real, other: real)
    ensures bytes / 1024.0 - 0.005 < SizeKB(bytes) <= bytes / 1024.0 + 0.005
    ensures bytes <= other ==> SizeKB(bytes) <= SizeKB(other)
  {
    if bytes <= other {
      RoundMonotonic(bytes / 1024.0 * 100.0, other / 1024.0 * 100.0);
    }
  }

  /** One network request as reported: missing sizes count as 0. */
  function ToResource(item: Item): Resource {
    var transfer := item.transferSize.GetOr(0.0);
    Resource(item.url, CategorizeResourceType(item), transfer, item.resourceSize.GetOr(0.0), SizeKB(transfer), item.mimeType)
  }

  /** A resource survives unless a non-zero minimum size rejects it or a given type list lacks its type. */
  predicate KeepResource(resource: Resource, resourceTypes: Option<seq<string>>, minSize: real) {
    !(minSize != 0.0 && resource.sizeKB < minSize) &&
    !(resourceTypes.Some? && resource.resourceType !in resourceTypes.value)
  }

  /** The reported resources: every item converted, then filtered by size and type. */
  function SelectResources(items: seq<Item>, resourceTypes: Option<seq<string>>, minSize: real): seq<Resource> {
    Filter(Map(items, ToResource), r => KeepResource(r, resourceTypes, minSize))
  }

  /** A converted item is reported exactly when it passes both filters; in particular a given but empty
      type list keeps nothing, and no filters keep everything. */
  lemma SelectResourcesSpec(items: seq<Item>, resourceTypes: Option<seq<string>>, minSize: real)
    ensures forall item :: item in items ==>
      (ToResource(item) in SelectResources(items, resourceTypes, minSize) <==>
        KeepResource(ToResource(item), resourceTypes, minSize))
    ensures forall r :: r in SelectResources(items, resourceTypes, minSize) ==>
      (minSize == 0.0 || r.sizeKB >= minSize) &&
      (resourceTypes.None? || r.resourceType in resourceTypes.value)
    ensures resourceTypes == Some([]) ==> SelectResources(items, resourceTypes, minSize) == []
    ensures resourceTypes.None? && minSize == 0.0 ==> SelectResources(items, resourceTypes, minSize) == Map(items, ToResource)
  {
    var p := (r: Resource) => KeepResource(r, resourceTypes, minSize);
    var converted := Map(items, ToResource);
    var kept := Filter(converted, p);
    FilterMembers(converted, p);
    forall item | item in items && ToResource(item) in kept ensures p(ToResource(item)) {
    }
    forall item | item in items && p(ToResource(item)) ensures ToResource(item) in kept {
      var k :| 0 <= k < |items| && items[k] == item;
      assert converted[k] == ToResource(item);
    }
    if resourceTypes == Some([]) {
      FilterNone(converted, p);
    }
    if resourceTypes.None? && minSize == 0.0 {
      FilterAll(converted, p);
    }
  }

  /** One summary entry: how many resources have the type and their summed transfer size. */
  datatype TypeSummary = TypeSummary(count: nat, totalSize: real)

  function ResourceTypeOf(resource: Resource): string {
    resource.resourceType
  }

  /** The number of resources of type `t`. */
  function CountOfType(resources: seq<Resource>, t: string): nat {
    if resources == [] then 0
    else CountOfType(resources[..|resources| - 1], t) + (if resources[|resources| - 1].resourceType == t then 1 else 0)
  }

  /** The summed transfer size of the resources of type `t`. */
  function SizeOfType(resources: seq<Resource>, t: string): real {
    if resources == [] then 0.0
    else
      SizeOfType(resources[..|resources| - 1], t) +
      (if resources[|resources| - 1].resourceType == t then resources[|resources| - 1].transferSize else 0.0)
  }

  const EMPTY_SUMMARY := TypeSummary(0, 0.0)

  /** An entry after counting one more resource of its type. */
  function Bump(entry: TypeSummary, resource: Resource): TypeSummary {
    TypeSummary(entry.count + 1, entry.totalSize + resource.transferSize)
  }

  /** The summary after one more resource: its type's entry, created empty if new, counts it once more. */
  function Tally(summary: Dict<TypeSummary>, resource: Resource): Dict<TypeSummary> {
    Put(summary, resource.resourceType, Bump(Lookup(summary, resource.resourceType).GetOr(EMPTY_SUMMARY), resource))
  }

  /** The summary the `reduce` builds, one resource at a time. */
  function SummaryOf(resources: seq<Resource>): Dict<TypeSummary> {
    if resources == [] then [] else Tally(SummaryOf(resources[..|resources| - 1]), resources[|resources| - 1])
  }

  /** The summary `reduce` of `analyzeResources`. The source first stores a zero entry for a new type and
      then bumps that entry's count and size in place; here the bumped entry is written once. */
  method SummarizeByType(resources: seq<Resource>) returns (summary: Dict<TypeSummary>)
    ensures summary == SummaryOf(resources)
  {
    summary := [];
    for i := 0 to |resources|
      invariant summary == SummaryOf(resources[..i])
    {
      var resource := resources[i];
      assert resources[..i + 1][..i] == resources[..i];
      assert SummaryOf(resources[..i + 1]) == Tally(summary, resource);
      var entry := EMPTY_SUMMARY;
      var found := Lookup(summary, resource.resourceType);
      if found.Some? {
        entry := found.value;
      }
      summary := Put(summary, resource.resourceType, Bump(entry, resource));
    }
    assert resources[..|resources|] == resources;
  }

  /** A type is counted exactly when some resource has it, and never more often than there are resources. */
  lemma {:induction false} CountOfTypeSpec(resources: seq<Resource>, t: string)
    ensures CountOfType(resources, t) > 0 <==> t in Map(resources, ResourceTypeOf)
    ensures CountOfType(resources, t) <= |resources|
    decreases |resources|
  {
    if resources != [] {
      var pre := resources[..|resources| - 1];
      assert Map(resources, ResourceTypeOf)[..|pre|] == Map(pre, ResourceTypeOf);
      assert Map(resources, ResourceTypeOf)[|pre|] == resources[|pre|].resourceType;
      CountOfTypeSpec(pre, t);
    }
  }

  /** A type counted zero times has no size. */
  lemma {:induction false} UncountedTypeHasNoSize(resources: seq<Resource>, t: string)
    requires CountOfType(resources, t) == 0
    ensures SizeOfType(resources, t) == 0.0
    decreases |resources|
  {
    if resources != [] {
      UncountedTypeHasNoSize(resources[..|resources| - 1], t);
    }
  }

  /** The entry a summary holds for a type counted `count` times with `size` in all: none when uncounted. */
  function EntryFor(count: nat, size: real): Option<TypeSummary> {
    if count == 0 then None else Some(TypeSummary(count, size))
  }

  /** The summary entry of one type: that type's count and summed transfer size when some resource has the
      type, no entry otherwise. */
  lemma {:induction false} SummaryEntry(resources: seq<Resource>, t: string)
    ensures Lookup(SummaryOf(resources), t) == EntryFor(CountOfType(resources, t), SizeOfType(resources, t))
    decreases |resources|
  {
    if resources != [] {
      var pre := resources[..|resources| - 1];
      SummaryEntry(pre, t);
      if CountOfType(pre, t) == 0 {
        UncountedTypeHasNoSize(pre, t);
      }
      SummaryStep(resources, t, CountOfType(pre, t), SizeOfType(pre, t), CountOfType(resources, t), SizeOfType(resources, t));
    }
  }

  /** One step of `SummaryOf`: given the entry of type `t` before the last resource, the entry after it. */
  lemma SummaryStep(resources: seq<Resource>, t: string, count: nat, size: real, count': nat, size': real)
    requires resources != []
    requires Lookup(SummaryOf(resources[..|resources| - 1]), t) == EntryFor(count, size)
    requires count == 0 ==> size == 0.0
    requires count' == count + (if resources[|resources| - 1].resourceType == t then 1 else 0)
    requires size' == size + (if resources[|resources| - 1].resourceType == t then resources[|resources| - 1].transferSize else 0.0)
    ensures Lookup(SummaryOf(resources), t) == EntryFor(count', size')
  {
    TallyEntry(SummaryOf(resources[..|resources| - 1]), resources[|resources| - 1], t, count, size, count', size');
  }

  /** Counting one resource, given the entry of type `t` for `count` resources of `size` in all. */
  lemma TallyEntry(summary: Dict<TypeSummary>, resource: Resource, t: string, count: nat, size: real, count': nat, size': real)
    requires Lookup(summary, t) == EntryFor(count, size)
    requires count == 0 ==> size == 0.0
    requires count' == count + (if resource.resourceType == t then 1 else 0)
    requires size' == size + (if resource.resourceType == t then resource.transferSize else 0.0)
    ensures Lookup(Tally(summary, resource), t) == EntryFor(count', size')
  {
    if resource.resourceType == t {
      calc {
        Lookup(Tally(summary, resource), t);
        { TallyBumps(summary, resource); }
        Some(Bump(Lookup(summary, t).GetOr(EMPTY_SUMMARY), resource));
        Some(Bump(EntryFor(count, size).GetOr(EMPTY_SUMMARY), resource));
        { BumpEntry(count, size, resource); }
        EntryFor(count', size');
      }
    } else {
      TallyOther(summary, resource, t);
    }
  }

  /** Bumping the entry of a type counted `count` times, or an empty entry when uncounted. */
  lemma BumpEntry(count: nat, size: real, resource: Resource)
    requires count == 0 ==> size == 0.0
    ensures Some(Bump(EntryFor(count, size).GetOr(EMPTY_SUMMARY), resource)) ==
      EntryFor(count + 1, size + resource.transferSize)
  {
  }

  /** Counting a resource bumps its own type's entry, starting from an empty one. */
  lemma TallyBumps(summary: Dict<TypeSummary>, resource: Resource)
    ensures Lookup(Tally(summary, resource), resource.resourceType) ==
      Some(Bump(Lookup(summary, resource.resourceType).GetOr(EMPTY_SUMMARY), resource))
  {
  }

  /** Counting a resource leaves the entries of the other types alone. */
  lemma TallyOther(summary: Dict<TypeSummary>, resource: Resource, t: string)
    requires t != resource.resourceType
    ensures Lookup(Tally(summary, resource), t) == Lookup(summary, t)
  {
    var current := Lookup(summary, resource.resourceType).GetOr(EMPTY_SUMMARY);
    LookupPutOther(summary, resource.resourceType, Bump(current, resource), t);
  }

  /** The summary's keys are the types present, each once, in order of first appearance. */
  lemma {:induction false} SummaryKeys(resources: seq<Resource>)
    ensures Keys(SummaryOf(resources)) == Dedupe(Map(resources, ResourceTypeOf))
    decreases |resources|
  {
    if resources != [] {
      var pre := resources[..|resources| - 1];
      var last := resources[|resources| - 1];
      SummaryKeys(pre);
      var types := Map(resources, ResourceTypeOf);
      assert types[..|pre|] == Map(pre, ResourceTypeOf);
      assert types[|pre|] == last.resourceType;
      assert SummaryOf(resources) == Tally(SummaryOf(pre), last);
    }
  }

  /** The summary has one entry per type present, in order of first appearance, holding that type's count
      and summed transfer size; absent types have no entry. */
  lemma SummaryOfSpec(resources: seq<Resource>)
    ensures Keys(SummaryOf(resources)) == Dedupe(Map(resources, ResourceTypeOf))
    ensures forall t :: t in Map(resources, ResourceTypeOf) ==>
      Lookup(SummaryOf(resources), t) == Some(TypeSummary(CountOfType(resources, t), SizeOfType(resources, t)))
    ensures forall t :: t !in Map(resources, ResourceTypeOf) ==> Lookup(SummaryOf(resources), t).None?
  {
    SummaryKeys(resources);
    forall t | t in Map(resources, ResourceTypeOf)
      ensures Lookup(SummaryOf(resources), t) == Some(TypeSummary(CountOfType(resources, t), SizeOfType(resources, t)))
    {
      SummaryEntry(resources, t);
      CountOfTypeSpec(resources, t);
    }
  }

  /** The sum of the summary's counts. */
  function SumCounts(summary: seq<(string, TypeSummary)>): nat {
    if summary == [] then 0 else SumCounts(summary[..|summary| - 1]) + summary[|summary| - 1].1.count
  }

  /** The sum of the summary's sizes. */
  function SumSizes(summary: seq<(string, TypeSummary)>): real {
    if summary == [] then 0.0 else SumSizes(summary[..|summary| - 1]) + summary[|summary| - 1].1.totalSize
  }

  /** The summed transfer size of all resources. */
  function TotalTransfer(resources: seq<Resource>): real {
    if resources == [] then 0.0 else TotalTransfer(resources[..|resources| - 1]) + resources[|resources| - 1].transferSize
  }

  /** Replacing one entry changes both sums by the difference at that entry. */
  lemma {:induction false} SumsUpdate(m: seq<(string, TypeSummary)>, r: seq<(string, TypeSummary)>, k: nat)
    requires |m| == |r| && k < |m|
    requires forall i :: 0 <= i < |m| && i != k ==> r[i] == m[i]
    ensures SumCounts(r) == SumCounts(m) - m[k].1.count + r[k].1.count
    ensures SumSizes(r) == SumSizes(m) - m[k].1.totalSize + r[k].1.totalSize
    decreases |m|
  {
    var n := |m| - 1;
    if k < n {
      SumsUpdate(m[..n], r[..n], k);
    } else {
      assert r[..n] == m[..n];
    }
  }

  /** Counting one more resource adds one to the summed counts and its transfer size to the summed sizes. */
  lemma TallyTotals(summary: Dict<TypeSummary>, resource: Resource)
    ensures SumCounts(Tally(summary, resource)) == SumCounts(summary) + 1
    ensures SumSizes(Tally(summary, resource)) == SumSizes(summary) + resource.transferSize
  {
    var key := resource.resourceType;
    var current := Lookup(summary, key).GetOr(EMPTY_SUMMARY);
    var next := Tally(summary, resource);
    if key in Keys(summary) {
      var k := FirstIndex(Keys(summary), key);
      LookupEntry(summary, k);
      PutExisting(summary, key, Bump(current, resource));
      forall i | 0 <= i < |summary| && i != k ensures next[i] == summary[i] {
        assert summary[i].0 != summary[k].0;
      }
      SumsUpdate(summary, next, k);
    } else {
      assert next == summary + [(key, Bump(EMPTY_SUMMARY, resource))];
      assert next[..|summary|] == summary;
    }
  }

  /** The counts add up to the number of resources, and the sizes to their total transfer size. */
  lemma {:induction false} SummaryTotals(resources: seq<Resource>)
    ensures SumCounts(SummaryOf(resources)) == |resources|
    ensures SumSizes(SummaryOf(resources)) == TotalTransfer(resources)
    decreases |resources|
  {
    if resources != [] {
      var pre := resources[..|resources| - 1];
      SummaryTotals(pre);
      TallyTotals(SummaryOf(pre), resources[|resources| - 1]);
    }
  }

  datatype ResourceReport = ResourceReport(
    url: string,
    device: Device,
    resources: seq<Resource>,
    summary: Dict<TypeSummary>,
    fetchTime: string)

  /** `analyzeResources` over the raw result of its performance run. */
  method AnalyzeResources(lhr: Lhr, device: Device, resourceTypes: Option<seq<string>>, minSize: real)
    returns (report: ResourceReport)
    ensures report.url == lhr.finalDisplayedUrl && report.device == device && report.fetchTime == lhr.fetchTime
    ensures AuditDetails(lhr, NETWORK_REQUESTS_AUDIT).None? ==> report.resources == [] && report.summary == []
    ensures AuditDetails(lhr, NETWORK_REQUESTS_AUDIT).Some? ==>
      report.resources == SelectResources(DetailItems(AuditDetails(lhr, NETWORK_REQUESTS_AUDIT).value), resourceTypes, minSize)
    ensures report.summary == SummaryOf(report.resources)
  {
    var details := AuditDetails(lhr, NETWORK_REQUESTS_AUDIT);
    if details.None? {
      return ResourceReport(lhr.finalDisplayedUrl, device, [], [], lhr.fetchTime);
    }
    var resources := SelectResources(DetailItems(details.value), resourceTypes, minSize);
    var summary := SummarizeByType(resources);
    report := ResourceReport(lhr.finalDisplayedUrl, device, resources, summary, lhr.fetchTime);
  }

  // ---------------------------------------------------------------------------------------------
  // Security audits

  datatype SecurityReport = SecurityReport(
    url: string,
    device: Device,
    overallScore: Option<int>,
    audits: seq<AuditSummary>,
    fetchTime: string)

  /** No checks given, or some check occurs inside the audit id. */
  predicate Selected(id: string, checks: Option<seq<string>>) {
    checks.None? || exists check :: check in checks.value && Contains(id, check)
  }

  /** The entries for the ids of `ids` that have an audit and are selected, in the order of `ids`. */
  function SecurityEntries(ids: seq<string>, audits: Dict<Audit>, checks: Option<seq<string>>): seq<AuditSummary> {
    if ids == [] then []
    else
      var id := ids[|ids| - 1];
      var audit := Lookup(audits, id);
      SecurityEntries(ids[..|ids| - 1], audits, checks) +
      (if audit.Some? && Selected(id, checks) then [Summarize((id, audit.value))] else [])
  }

  function EntryId(entry: AuditSummary): string {
    entry.id
  }

  /** The ids reported are the listed ids that have an audit and are selected, in list order, and each entry
      carries that audit's fields. */
  lemma {:induction false} SecurityEntriesSpec(ids: seq<string>, audits: Dict<Audit>, checks: Option<seq<string>>)
    ensures Map(SecurityEntries(ids, audits, checks), EntryId) ==
      Filter(ids, id => Lookup(audits, id).Some? && Selected(id, checks))
    ensures forall e :: e in SecurityEntries(ids, audits, checks) ==>
      Lookup(audits, e.id).Some? && e == Summarize((e.id, Lookup(audits, e.id).value))
    decreases |ids|
  {
    if ids != [] {
      var pre := ids[..|ids| - 1];
      SecurityEntriesSpec(pre, audits, checks);
      var id := ids[|ids| - 1];
      var audit := Lookup(audits, id);
      var entries := SecurityEntries(ids, audits, checks);
      if audit.Some? && Selected(id, checks) {
        assert entries == SecurityEntries(pre, audits, checks) + [Summarize((id, audit.value))];
        assert entries[..|entries| - 1] == SecurityEntries(pre, audits, checks);
      } else {
        assert entries == SecurityEntries(pre, audits, checks);
      }
    }
  }

  /** The summed scores, a null score counting as 0. */
  function ScoreSum(entries: seq<AuditSummary>): real {
    if entries == [] then 0.0 else ScoreSum(entries[..|entries| - 1]) + entries[|entries| - 1].score.GetOr(0.0)
  }

  /** `Math.round(mean * 100)`; `None` stands for the NaN of an empty mean. */
  function OverallScore(entries: seq<AuditSummary>): Option<int> {
    if entries == [] then None else Some(Round(ScoreSum(entries) / |entries| as real * 100.0))
  }

  /** Scores in [0, 1] sum to at most one per entry. */
  lemma {:induction false} ScoreSumBounds(entries: seq<AuditSummary>)
    requires forall i :: 0 <= i < |entries| && entries[i].score.Some? ==> 0.0 <= entries[i].score.value <= 1.0
    ensures 0.0 <= ScoreSum(entries) <= |entries| as real
    decreases |entries|
  {
    if entries != [] {
      ScoreSumBounds(entries[..|entries| - 1]);
    }
  }

  /** With at least one entry whose scores lie in [0, 1], the overall score is a percentage in 0..100; with
      none it is undefined. */
  lemma OverallScoreSpec(entries: seq<AuditSummary>)
    requires forall i :: 0 <= i < |entries| && entries[i].score.Some? ==> 0.0 <= entries[i].score.value <= 1.0
    ensures OverallScore(entries).None? <==> entries == []
    ensures OverallScore(entries).Some? ==> 0 <= OverallScore(entries).value <= 100
  {
    if entries != [] {
      ScoreSumBounds(entries);
      var n := |entries| as real;
      assert 0.0 <= ScoreSum(entries) / n <= 1.0;
      RoundPercentBounds(ScoreSum(entries) / n);
    }
  }

  /** Scores of 1 and 0 average to 50; a null score counts as 0. */
  lemma OverallScoreExample(a: AuditSummary, b: AuditSummary)
    requires a.score == Some(1.0) && (b.score == Some(0.0) || b.score.None?)
    ensures OverallScore([a, b]) == Some(50)
  {
    assert [a, b][..1] == [a] && [a][..0] == [];
    assert ScoreSum([a]) == 1.0;
    assert ScoreSum([a, b]) == ScoreSum([a]) + b.score.GetOr(0.0);
  }

  /** `getSecurityAudit` over the raw result of its best-practices run. */
  function GetSecurityAudit(lhr: Lhr, device: Device, checks: Option<seq<string>>): SecurityReport {
    var entries := SecurityEntries(SECURITY_AUDITS, lhr.audits, checks);
    SecurityReport(lhr.finalDisplayedUrl, device, OverallScore(entries), entries, lhr.fetchTime)
  }

  /** The run `getSecurityAudit` starts: the best-practices category only, on the given device. */
  function SecurityAuditRequest(url: string, device: Device): (q: AuditRequest)
    ensures q.url == url && q.categories == Some(["best-practices"]) && q.device == device && !q.throttling
  {
    CategoryRequest(url, "best-practices", device)
  }

  /** Entries follow the security list, one per present and selected audit; a given but empty check list
      selects nothing, so the score is undefined. */
  lemma GetSecurityAuditSpec(lhr: Lhr, device: Device, checks: Option<seq<string>>)
    ensures Map(GetSecurityAudit(lhr, device, checks).audits, EntryId) ==
      Filter(SECURITY_AUDITS, id => Lookup(lhr.audits, id).Some? && Selected(id, checks))
    ensures GetSecurityAudit(lhr, device, checks).overallScore == OverallScore(GetSecurityAudit(lhr, device, checks).audits)
    ensures checks == Some([]) ==>
      GetSecurityAudit(lhr, device, checks).audits == [] && GetSecurityAudit(lhr, device, checks).overallScore.None?
    ensures |GetSecurityAudit(lhr, device, checks).audits| <= |SECURITY_AUDITS|
  {
    var entries := SecurityEntries(SECURITY_AUDITS, lhr.audits, checks);
    SecurityEntriesSpec(SECURITY_AUDITS, lhr.audits, checks);
    var p := (id: string) => Lookup(lhr.audits, id).Some? && Selected(id, checks);
    assert |entries| == |Map(entries, EntryId)|;
    if checks == Some([]) {
      FilterNone(SECURITY_AUDITS, p);
    }
  }
}
