/** The three store-signal detectors of the scan: the theme in use, the
    trust pages the store publishes, and the tracking markers in the
    theme's files. */
module Signals {
  import opened Store
  import opened Seqs
  import opened Text

  // ---------------------------------------------------------------- theme

  datatype ThemeInsight = Scanning | Outdated(name: string) | UpToDate(name: string)

  /** The theme part of `uxSpeedSignals` (the app count and names are not
      part of this model). */
  datatype UxSignals = UxSignals(theme: string, themeRole: string, insight: ThemeInsight)

  const InitialUx := UxSignals("Unknown", "unknown", Scanning)

  const OutdatedThemes: seq<string> := ["Debut", "Brooklyn", "Simple", "Minimal", "Supply", "Narrative"]

  /** `themes.find(t => t.role === "main")`, as an index. */
  function FirstMain(themes: seq<Theme>): (r: Option<nat>)
    ensures r.Some? ==> (r.value < |themes| && themes[r.value].role == "main"
      && forall j :: 0 <= j < r.value ==> themes[j].role != "main")
    ensures r.None? ==> forall j :: 0 <= j < |themes| ==> themes[j].role != "main"
    decreases |themes|
  {
    if themes == [] then None
    else if themes[0].role == "main" then Some(0)
    else match FirstMain(themes[1..])
      case None => None
      case Some(j) => Some(j + 1)
  }

  /** `mainTheme?.name || themes[0]?.name || "Custom"`. */
  function ThemeName(themes: seq<Theme>): (name: string)
    ensures name != ""
    ensures name == "Custom" || exists i :: 0 <= i < |themes| && themes[i].name == name
  {
    var main := FirstMain(themes);
    if main.Some? && themes[main.value].name != "" then themes[main.value].name
    else if themes != [] && themes[0].name != "" then themes[0].name
    else "Custom"
  }

  /** The main theme's name wins whenever it has one; otherwise the first
      theme's; "Custom" only when neither has a name. */
  lemma ThemeNamePriority(themes: seq<Theme>, i: nat)
    requires i < |themes| && themes[i].role == "main"
    requires forall j :: 0 <= j < i ==> themes[j].role != "main"
    ensures themes[i].name != "" ==> ThemeName(themes) == themes[i].name
    ensures themes[i].name == "" ==>
      ThemeName(themes) == (if themes[0].name != "" then themes[0].name else "Custom")
  {
    assert FirstMain(themes) == Some(i);
  }

  /** Without a main theme the first theme's name is used, when it has
      one, and "Custom" otherwise. */
  lemma ThemeNameWithoutMain(themes: seq<Theme>)
    requires forall j :: 0 <= j < |themes| ==> themes[j].role != "main"
    ensures ThemeName(themes) == (if |themes| > 0 && themes[0].name != "" then themes[0].name else "Custom")
  {
    assert FirstMain(themes).None?;
  }

  /** The theme step. A failing query leaves the initial values in place. */
  function ThemeSignals(query: Query<seq<Theme>>): (u: UxSignals)
    ensures query.Threw? ==> u == InitialUx
  {
    match query
    case Threw => InitialUx
    case Returned(themes) =>
      var main := FirstMain(themes);
      var name := ThemeName(themes);
      var role := if main.Some? then "main" else "unknown";
      UxSignals(name, role, if name in OutdatedThemes then Outdated(name) else UpToDate(name))
  }

  /** A returned theme list: the reported name is the chosen theme's, the
      role says whether a main theme exists, and the insight calls the
      theme outdated exactly when its name is on the outdated list. */
  lemma ThemeSignalsMeaning(themes: seq<Theme>)
    ensures var u := ThemeSignals(Returned(themes));
      && u.theme == ThemeName(themes)
      && (u.themeRole == "main" <==> exists i :: 0 <= i < |themes| && themes[i].role == "main")
      && (u.themeRole == "main" || u.themeRole == "unknown")
      && (u.insight == Outdated(u.theme) <==> u.theme in OutdatedThemes)
      && (u.insight == UpToDate(u.theme) <==> u.theme !in OutdatedThemes)
  {
    var u := ThemeSignals(Returned(themes));
    if FirstMain(themes).None? {
      assert u.themeRole == "unknown";
      assert "unknown" != "main" by { assert "unknown"[0] != "main"[0]; }
    }
  }

  // ---------------------------------------------------------------- trust pages

  /** One trust category: its record's name and severity, the lower-case
      keywords a page title is searched for, and the advice shown when no
      title matches. */
  datatype TrustCheck = TrustCheck(issue: string, severity: Severity, keywords: seq<string>, advice: string)

  const TrustChecks: seq<TrustCheck> := [
    TrustCheck("Shipping policy", High, ["shipping", "delivery"],
      "\U{2717} Missing - Add shipping policy to build trust"),
    TrustCheck("Return policy", High, ["return", "refund"],
      "\U{2717} Missing - Add return policy to reduce purchase anxiety"),
    TrustCheck("Privacy policy", High, ["privacy"],
      "\U{2717} Missing - Privacy policy is legally required"),
    TrustCheck("About Us page", Medium, ["about"],
      "\U{2717} Missing - Add About Us page to build brand trust"),
    TrustCheck("FAQ page", Medium, ["faq", "questions"],
      "\U{2717} Missing - FAQ page answers common questions")
  ]

  const FoundText := "\U{2713} Found"

  /** `t.includes(k1) || t.includes(k2) ...`. */
  function ContainsAny(t: string, keywords: seq<string>): (b: bool)
    ensures b <==> exists k :: 0 <= k < |keywords| && Contains(t, keywords[k])
    decreases |keywords|
  {
    if keywords == [] then false
    else if Contains(t, keywords[0]) then true
    else
      var b := ContainsAny(t, keywords[1..]);
      assert forall k :: 1 <= k < |keywords| ==> keywords[k] == keywords[1..][k - 1];
      b
  }

  /** `pageTitles.some(...)` over the lower-cased titles. */
  function SomeTitleMatches(pages: seq<Page>, keywords: seq<string>): (b: bool)
    ensures b <==> exists p :: 0 <= p < |pages| && ContainsAny(Lower(pages[p].title), keywords)
    decreases |pages|
  {
    if pages == [] then false
    else if ContainsAny(Lower(pages[0].title), keywords) then true
    else
      var b := SomeTitleMatches(pages[1..], keywords);
      assert forall p :: 1 <= p < |pages| ==> pages[p] == pages[1..][p - 1];
      b
  }

  function TrustRecord(pages: seq<Page>, check: TrustCheck): Signal {
    var found := SomeTitleMatches(pages, check.keywords);
    Signal(check.issue, check.severity, found, if found then FoundText else check.advice)
  }

  /** The trust step: five records in fixed order, or none at all when
      the pages query fails. */
  function TrustSignals(query: Query<seq<Page>>): (r: seq<Signal>)
    ensures query.Threw? ==> r == []
    ensures query.Returned? ==> |r| == 5
  {
    match query
    case Threw => []
    case Returned(pages) =>
      seq(5, i requires 0 <= i < 5 => TrustRecord(pages, TrustChecks[i]))
  }

  /** Each of the five records: its name, high severity for the three
      policies and medium for the two pages, found exactly when some
      lower-cased title contains one of its keywords, and the matching
      details text. */
  lemma TrustSignalsMeaning(pages: seq<Page>, i: nat)
    requires i < 5
    ensures var r := TrustSignals(Returned(pages));
      && r[i].issue == TrustChecks[i].issue
      && r[i].severity == (if i < 3 then High else Medium)
      && (r[i].found <==> exists p, k :: 0 <= p < |pages| && 0 <= k < |TrustChecks[i].keywords|
                                  && Contains(Lower(pages[p].title), TrustChecks[i].keywords[k]))
      && r[i].details == (if r[i].found then FoundText else TrustChecks[i].advice)
  {
    var r := TrustSignals(Returned(pages));
    assert r[i] == TrustRecord(pages, TrustChecks[i]);
    var kws := TrustChecks[i].keywords;
    if r[i].found {
      var p :| 0 <= p < |pages| && ContainsAny(Lower(pages[p].title), kws);
      var k :| 0 <= k < |kws| && Contains(Lower(pages[p].title), kws[k]);
    }
  }

  // ---------------------------------------------------------------- tracking

  predicate HasPixelMarker(body: string) {
    Contains(body, "fbq(") || Contains(body, "connect.facebook.net")
  }

  predicate HasPurchaseMarker(body: string) {
    Contains(body, "Purchase") || Contains(body, "AddPaymentInfo")
  }

  /** Some theme file carries the Meta Pixel's code or script address. */
  predicate PixelInstalled(files: seq<ThemeFile>) {
    exists i :: 0 <= i < |files| && HasPixelMarker(files[i].body)
  }

  /** Some theme file mentions a purchase or payment-info event. */
  predicate PurchaseTracked(files: seq<ThemeFile>) {
    exists i :: 0 <= i < |files| && HasPurchaseMarker(files[i].body)
  }

  /** The `for` loop over the theme files, raising each flag as soon as a
      file carries its marker. */
  method FindTrackingMarkers(files: seq<ThemeFile>) returns (hasPixel: bool, hasPurchaseEvent: bool)
    ensures hasPixel == PixelInstalled(files)
    ensures hasPurchaseEvent == PurchaseTracked(files)
  {
    hasPixel := false;
    hasPurchaseEvent := false;
    for n := 0 to |files|
      invariant hasPixel <==> exists i :: 0 <= i < n && HasPixelMarker(files[i].body)
      invariant hasPurchaseEvent <==> exists i :: 0 <= i < n && HasPurchaseMarker(files[i].body)
    {
      var content := files[n].body;
      if HasPixelMarker(content) {
        hasPixel := true;
      }
      if HasPurchaseMarker(content) {
        hasPurchaseEvent := true;
      }
    }
  }

  const PixelIssue := "Meta Pixel"
  const PixelFound := "\U{2713} Detected in theme"
  const PixelMissing := "\U{2717} Not detected - Install Meta Pixel for better ad tracking"
  const PurchaseIssue := "Purchase events"
  const PurchaseFound := "\U{2713} Purchase events detected"
  const PurchaseMissing := "\U{2717} Not found - Check tracking setup"

  function PixelRecord(found: bool): Signal {
    Signal(PixelIssue, High, found, if found then PixelFound else PixelMissing)
  }

  function PurchaseRecord(found: bool): Signal {
    Signal(PurchaseIssue, High, found, if found then PurchaseFound else PurchaseMissing)
  }

  const PixelUnverified := Signal("Meta Pixel", Medium, false, "Unable to verify - manually check tracking setup")

  const CapiRecord := Signal("Conversion API (CAPI)", Medium, false, "CAPI not configured - Recommended for accurate tracking")

  // ---------------------------------------------------------------- missing high-severity records

  predicate IsMissingHigh(s: Signal) {
    !s.found && s.severity == High
  }

  function MissingHighIn(): Signal -> bool {
    s => IsMissingHigh(s)
  }

  /** `issues.filter(i => !i.found && i.severity === "high").length`. */
  function MissingHigh(signals: seq<Signal>): nat {
    Count(signals, MissingHighIn())
  }

  function Indicator(b: bool): nat {
    if b then 1 else 0
  }

  lemma MissingHighAppend(a: seq<Signal>, b: seq<Signal>)
    ensures MissingHigh(a + b) == MissingHigh(a) + MissingHigh(b)
  {
    CountAppend(a, b, MissingHighIn());
  }

  lemma MissingHighOne(s: Signal)
    ensures MissingHigh([s]) == Indicator(IsMissingHigh(s))
  {
    assert [s][1..] == [];
  }

  /** A record list of three entries misses as many high-severity records
      as its entries do. */
  lemma MissingHighThree(a: Signal, b: Signal, c: Signal)
    ensures MissingHigh([a, b, c]) == Indicator(IsMissingHigh(a)) + Indicator(IsMissingHigh(b)) + Indicator(IsMissingHigh(c))
  {
    assert [a, b, c] == [a] + [b] + [c];
    MissingHighAppend([a] + [b], [c]);
    MissingHighAppend([a], [b]);
    MissingHighOne(a);
    MissingHighOne(b);
    MissingHighOne(c);
  }

  lemma MissingHighFive(r: seq<Signal>)
    requires |r| == 5
    ensures MissingHigh(r) == Indicator(IsMissingHigh(r[0])) + Indicator(IsMissingHigh(r[1]))
      + Indicator(IsMissingHigh(r[2])) + Indicator(IsMissingHigh(r[3])) + Indicator(IsMissingHigh(r[4]))
  {
    assert r == [r[0], r[1], r[2]] + [r[3]] + [r[4]];
    MissingHighAppend([r[0], r[1], r[2]] + [r[3]], [r[4]]);
    MissingHighAppend([r[0], r[1], r[2]], [r[3]]);
    MissingHighThree(r[0], r[1], r[2]);
    MissingHighOne(r[3]);
    MissingHighOne(r[4]);
  }

  /** The tracking records a query outcome leads to. */
  function TrackingRecords(query: Query<seq<ThemeFile>>): seq<Signal> {
    match query
    case Threw => [PixelUnverified, CapiRecord]
    case Returned(files) => [PixelRecord(PixelInstalled(files)), PurchaseRecord(PurchaseTracked(files)), CapiRecord]
  }

  /** The tracking records cost one high-severity miss per marker not
      found, and nothing when the theme-files query fails; the list always
      ends with the unfound, medium CAPI record. */
  lemma TrackingMissingHigh(query: Query<seq<ThemeFile>>)
    ensures var r := TrackingRecords(query);
      && |r| >= 2 && r[|r| - 1] == CapiRecord && !r[|r| - 1].found && r[|r| - 1].severity == Medium
      && (query.Threw? ==> MissingHigh(r) == 0)
      && (query.Returned? ==>
            MissingHigh(r) == Indicator(!PixelInstalled(query.data)) + Indicator(!PurchaseTracked(query.data)))
      && MissingHigh(r) <= 2
  {
    match query {
      case Threw =>
        MissingHighAppend([PixelUnverified], [CapiRecord]);
        MissingHighOne(PixelUnverified);
        MissingHighOne(CapiRecord);
        assert [PixelUnverified] + [CapiRecord] == TrackingRecords(query);
      case Returned(files) =>
        MissingHighThree(PixelRecord(PixelInstalled(files)), PurchaseRecord(PurchaseTracked(files)), CapiRecord);
    }
  }

  /** The tracking step: the pixel and purchase-event records (or a single
      medium "unable to verify" record when the query fails), always
      followed by the CAPI record, which is never found. */
  method TrackingSignals(query: Query<seq<ThemeFile>>) returns (r: seq<Signal>)
    ensures r == TrackingRecords(query)
    ensures |r| >= 2 && r[|r| - 1] == CapiRecord && !r[|r| - 1].found && r[|r| - 1].severity == Medium
    ensures query.Threw? ==> r == [PixelUnverified, CapiRecord] && MissingHigh(r) == 0
    ensures query.Returned? ==>
      && r == [PixelRecord(PixelInstalled(query.data)), PurchaseRecord(PurchaseTracked(query.data)), CapiRecord]
      && MissingHigh(r) == Indicator(!PixelInstalled(query.data)) + Indicator(!PurchaseTracked(query.data))
  {
    r := [];
    match query {
      case Threw =>
        r := r + [PixelUnverified];
        MissingHighAppend([PixelUnverified], [CapiRecord]);
        MissingHighOne(PixelUnverified);
        MissingHighOne(CapiRecord);
      case Returned(files) =>
        var hasPixel, hasPurchaseEvent := FindTrackingMarkers(files);
        r := r + [PixelRecord(hasPixel)];
        r := r + [PurchaseRecord(hasPurchaseEvent)];
        MissingHighThree(PixelRecord(hasPixel), PurchaseRecord(hasPurchaseEvent), CapiRecord);
    }
    r := r + [CapiRecord];
  }

  /** The trust records cost one high-severity miss per policy page
      (shipping, returns, privacy) that no title matches, and nothing when
      the pages query fails. */
  lemma TrustMissingHigh(query: Query<seq<Page>>)
    ensures query.Threw? ==> MissingHigh(TrustSignals(query)) == 0
    ensures query.Returned? ==> (MissingHigh(TrustSignals(query)) ==
      Indicator(!SomeTitleMatches(query.data, TrustChecks[0].keywords))
      + Indicator(!SomeTitleMatches(query.data, TrustChecks[1].keywords))
      + Indicator(!SomeTitleMatches(query.data, TrustChecks[2].keywords)))
    ensures MissingHigh(TrustSignals(query)) <= 3
  {
    match query
    case Threw =>
    case Returned(pages) =>
      var r := TrustSignals(query);
      assert r == seq(5, i requires 0 <= i < 5 => TrustRecord(pages, TrustChecks[i]));
      MissingHighFive(r);
      assert r[0] == TrustRecord(pages, TrustChecks[0]);
      assert r[1] == TrustRecord(pages, TrustChecks[1]);
      assert r[2] == TrustRecord(pages, TrustChecks[2]);
      assert r[3].severity == Medium && r[4].severity == Medium;
  }
}
