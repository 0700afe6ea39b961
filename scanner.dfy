/** The scan as a whole: one result record, seeded with defaults and
    filled in section by section. A failure of the shop, product or order
    query ends the scan with the sections filled so far; the optional
    sections (checkouts, themes, pages, tracking) fall back on their own. */
module Scanner {
  import opened Store
  import opened Seqs
  import opened Products
  import opened Checkouts
  import opened Signals
  import opened Scoring
  import opened Ranking

  /** The outcome of each Admin API query the scan makes. */
  datatype ScanInputs = ScanInputs(
    shop: Query<Option<Shop>>,
    products: Query<seq<Product>>,
    orders: Query<seq<Order>>,
    checkouts: Query<seq<Checkout>>,
    themes: Query<seq<Theme>>,
    pages: Query<seq<Page>>,
    themeFiles: Query<seq<ThemeFile>>)

  datatype Metrics = Metrics(
    shopName: string,
    plan: string,
    totalProducts: nat,
    totalProductsWithImages: nat,
    totalProductsWithoutImages: nat,
    totalProductsWithDescription: nat,
    totalProductsWithoutDescription: nat,
    totalOrders: nat,
    totalRevenue: nat,
    totalAbandonedCheckouts: nat,
    score: int,
    grade: string,
    estimatedMonthlyLoss: nat,
    cartAnalytics: CartAnalytics,
    checkoutFunnel: Funnel)

  datatype ScanResult = ScanResult(
    scanned: bool,
    error: Option<string>,
    metrics: Metrics,
    trafficConversionIssues: seq<TrafficIssue>,
    checkoutAbandonmentIssues: seq<CheckoutIssue>,
    uxSpeedSignals: UxSignals,
    trustGapIssues: seq<Signal>,
    trackingHealthIssues: seq<Signal>,
    topIssues: seq<TopIssue>)

  const InitialMetrics := Metrics("", "Unknown", 0, 0, 0, 0, 0, 0, 0, 0, 0, "C", 0, DefaultCartAnalytics, DefaultFunnel)

  const InitialResult := ScanResult(true, None, InitialMetrics, [], [], InitialUx, [], [], [])

  const FailureMessage := "Failed to scan store. Please try again."

  /** `{ ...scanResult, scanned: false, error }`. */
  function Failed(r: ScanResult): (f: ScanResult)
    ensures !f.scanned && f.error == Some(FailureMessage)
    ensures f.metrics == r.metrics && f.trafficConversionIssues == r.trafficConversionIssues
  {
    r.(scanned := false, error := Some(FailureMessage))
  }

  /** `plan?.displayName || "Basic Shopify"`. */
  function PlanName(s: Shop): (plan: string)
    ensures plan != ""
  {
    if s.planDisplayName != "" then s.planDisplayName else "Basic Shopify"
  }

  /** The shop section: nothing changes when the query returns no shop. */
  function ShopStep(r: ScanResult, shop: Option<Shop>): ScanResult {
    match shop
    case None => r
    case Some(s) => r.(metrics := r.metrics.(shopName := s.name, plan := PlanName(s)))
  }

  /** The product section's five counters. */
  function ProductStep(r: ScanResult, products: seq<Product>): ScanResult {
    var c := Classify(products);
    r.(metrics := r.metrics.(
      totalProducts := c.total,
      totalProductsWithoutImages := c.withoutImages,
      totalProductsWithImages := c.withImages,
      totalProductsWithoutDescription := c.withoutDescription,
      totalProductsWithDescription := c.withDescription))
  }

  /** Processed strictly after now - 30 days. */
  predicate IsRecentOrder(now: int, o: Order) {
    o.processedAt > WindowStart(now)
  }

  function RecentOrderIn(now: int): Order -> bool {
    o => IsRecentOrder(now, o)
  }

  function OrderCents(orders: seq<Order>): nat
    decreases |orders|
  {
    if orders == [] then 0 else OrderCents(orders[..|orders| - 1]) + orders[|orders| - 1].totalCents
  }

  /** `Math.round` of the exact sum of the totals of the orders of the last 30 days. */
  function MonthlyRevenue(orders: seq<Order>, now: int): nat {
    RoundToUnits(OrderCents(Filter(orders, RecentOrderIn(now))))
  }

  /** What the scorer reads from the result. */
  function ScoreInputsOf(r: ScanResult): ScoreInputs {
    ScoreInputs(
      r.metrics.totalProductsWithoutImages,
      r.metrics.totalProductsWithoutDescription,
      r.trustGapIssues,
      RateValue(r.metrics.cartAnalytics.abandonmentRate),
      r.trackingHealthIssues,
      r.uxSpeedSignals.theme)
  }

  /** What the ranker reads from the result. */
  function RankInputsOf(r: ScanResult): RankInputs {
    RankInputs(
      r.metrics.cartAnalytics.abandonmentRate,
      r.metrics.cartAnalytics.potentialRevenue,
      r.metrics.cartAnalytics.recentAbandonedCarts,
      r.metrics.totalProductsWithoutImages,
      r.metrics.totalProductsWithoutDescription,
      r.trustGapIssues)
  }

  /** Sections 9 and 10 of the scan: score, grade and loss, then the top
      issues, all read back from the result built so far. */
  method ScoreAndRank(r: ScanResult) returns (s: ScanResult)
    requires MissingHigh(r.trustGapIssues) <= 3 && MissingHigh(r.trackingHealthIssues) <= 2
    ensures s == r.(metrics := s.metrics, topIssues := s.topIssues)
    ensures s.trackingHealthIssues == r.trackingHealthIssues
    ensures s.metrics == r.metrics.(score := s.metrics.score, grade := s.metrics.grade,
                                    estimatedMonthlyLoss := s.metrics.estimatedMonthlyLoss)
    ensures s.metrics.score == Clamp(100 - TotalPenalty(ScoreInputsOf(r)))
    ensures 1 <= s.metrics.score <= 100
    ensures s.metrics.grade == GradeLetters[GradeRank(s.metrics.score)]
    ensures s.metrics.estimatedMonthlyLoss == MonthlyLoss(r.metrics.totalRevenue, s.metrics.score)
    ensures Ranked(RankInputsOf(r), s.topIssues, 5)
  {
    var score := ComputeScore(ScoreInputsOf(r));
    var grade := GradeFor(score);
    var loss := MonthlyLoss(r.metrics.totalRevenue, score);
    s := r.(metrics := r.metrics.(score := score, grade := grade, estimatedMonthlyLoss := loss));
    var top := RankTopIssues(RankInputsOf(s));
    s := s.(topIssues := top);
  }

  /** Section 3: the order counters and the no-sale issues. */
  method OrdersStep(r: ScanResult, products: seq<Product>, orders: seq<Order>, shop: Option<Shop>, now: int)
    returns (s: ScanResult)
    ensures s == r.(metrics := r.metrics.(totalOrders := |orders|, totalRevenue := MonthlyRevenue(orders, now)),
                    trafficConversionIssues := NoSaleIssues(products, Tally(Flatten(orders)), shop))
  {
    s := r.(metrics := r.metrics.(totalOrders := |orders|, totalRevenue := MonthlyRevenue(orders, now)));
    var purchases := TallyPurchases(orders);
    s := s.(trafficConversionIssues := NoSaleIssues(products, purchases, shop));
  }

  /** Section 4: the abandoned-checkout figures and issue. */
  method CheckoutsStep(r: ScanResult, query: Query<seq<Checkout>>, completed: nat, now: int) returns (s: ScanResult)
    ensures s == r.(metrics := s.metrics, checkoutAbandonmentIssues := s.checkoutAbandonmentIssues)
    ensures s.metrics == r.metrics.(totalAbandonedCheckouts := s.metrics.totalAbandonedCheckouts,
                                    checkoutFunnel := s.metrics.checkoutFunnel,
                                    cartAnalytics := s.metrics.cartAnalytics)
    ensures |s.checkoutAbandonmentIssues| <= 1
    ensures |s.metrics.cartAnalytics.topAbandonedProducts| <= 5
    ensures |s.metrics.cartAnalytics.recentAbandonedCarts| <= 10
    ensures query.Threw? ==>
      && s.metrics.totalAbandonedCheckouts == 0
      && s.metrics.checkoutFunnel == DefaultFunnel
      && s.metrics.cartAnalytics == DefaultCartAnalytics
      && s.checkoutAbandonmentIssues == []
    ensures query.Returned? ==>
      var recent := RecentAbandoned(query.data, now);
      var starts := completed + |recent|;
      && s.metrics.totalAbandonedCheckouts == |recent|
      && (s.checkoutAbandonmentIssues != [] <==> starts > 0 && 2000 * |recent| >= 601 * starts)
    ensures var section := CheckoutSectionOf(query, completed, now);
      && s.metrics.totalAbandonedCheckouts == section.totalAbandonedCheckouts
      && s.metrics.checkoutFunnel == section.funnel
      && s.metrics.cartAnalytics == section.cart
      && s.checkoutAbandonmentIssues == section.issues
  {
    var section := AnalyzeCheckouts(query, completed, now);
    CheckoutSectionFacts(query, completed, now);
    s := r.(
      metrics := r.metrics.(
        totalAbandonedCheckouts := section.totalAbandonedCheckouts,
        checkoutFunnel := section.funnel,
        cartAnalytics := section.cart),
      checkoutAbandonmentIssues := section.issues);
  }

  /** Sections 5, 7 and 8: theme, trust pages and tracking. */
  method SignalsStep(r: ScanResult, themes: Query<seq<Theme>>, pages: Query<seq<Page>>, files: Query<seq<ThemeFile>>)
    returns (s: ScanResult)
    ensures s == r.(uxSpeedSignals := s.uxSpeedSignals, trustGapIssues := s.trustGapIssues,
                    trackingHealthIssues := s.trackingHealthIssues)
    ensures s.uxSpeedSignals == ThemeSignals(themes)
    ensures s.trustGapIssues == TrustSignals(pages)
    ensures s.trackingHealthIssues == TrackingRecords(files)
    ensures |s.trackingHealthIssues| >= 2 && s.trackingHealthIssues[|s.trackingHealthIssues| - 1] == CapiRecord
    ensures MissingHigh(s.trustGapIssues) <= 3 && MissingHigh(s.trackingHealthIssues) <= 2
  {
    s := r.(uxSpeedSignals := ThemeSignals(themes));
    s := s.(trustGapIssues := TrustSignals(pages));
    TrustMissingHigh(pages);
    var tracking := TrackingSignals(files);
    s := s.(trackingHealthIssues := tracking);
  }

  /** The result carries the checkout section's counters, funnel,
      analytics and issues. */
  predicate SectionIs(result: ScanResult, section: CheckoutSection) {
    && result.metrics.totalAbandonedCheckouts == section.totalAbandonedCheckouts
    && result.metrics.checkoutFunnel == section.funnel
    && result.metrics.cartAnalytics == section.cart
    && result.checkoutAbandonmentIssues == section.issues
  }

  /** What the scan holds once sections 1 to 8 are filled in. */
  predicate Filled(inputs: ScanInputs, now: int, result: ScanResult) {
    && inputs.shop.Returned? && inputs.products.Returned? && inputs.orders.Returned?
    && var shop, products, orders := inputs.shop.data, inputs.products.data, inputs.orders.data;
    var m := result.metrics;
    && result.scanned && result.error.None?
    && (shop.None? ==> m.shopName == "" && m.plan == "Unknown")
    && (shop.Some? ==> m.shopName == shop.value.name && m.plan == PlanName(shop.value))
    && m.totalProducts == |products|
    && m.totalProductsWithImages + m.totalProductsWithoutImages == |products|
    && m.totalProductsWithoutImages == Count(products, LacksImage)
    && m.totalProductsWithDescription + m.totalProductsWithoutDescription == |products|
    && m.totalProductsWithoutDescription == Count(products, LacksDescription)
    && m.totalOrders == |orders|
    && m.totalRevenue == MonthlyRevenue(orders, now)
    && result.trafficConversionIssues == NoSaleIssues(products, Tally(Flatten(orders)), shop)
    && |result.checkoutAbandonmentIssues| <= 1
    && |m.cartAnalytics.topAbandonedProducts| <= 5
    && |m.cartAnalytics.recentAbandonedCarts| <= 10
    && (inputs.checkouts.Returned? ==>
          var recent := RecentAbandoned(inputs.checkouts.data, now);
          var starts := |orders| + |recent|;
          && m.totalAbandonedCheckouts == |recent|
          && (result.checkoutAbandonmentIssues != [] <==> starts > 0 && 2000 * |recent| >= 601 * starts))
    && (inputs.checkouts.Threw? ==>
          && m.totalAbandonedCheckouts == 0
          && m.checkoutFunnel == DefaultFunnel
          && m.cartAnalytics == DefaultCartAnalytics
          && result.checkoutAbandonmentIssues == [])
    && SectionIs(result, CheckoutSectionOf(inputs.checkouts, |orders|, now))
    && result.uxSpeedSignals == ThemeSignals(inputs.themes)
    && result.trustGapIssues == TrustSignals(inputs.pages)
    && result.trackingHealthIssues == TrackingRecords(inputs.themeFiles)
    && |result.trackingHealthIssues| >= 2
    && result.trackingHealthIssues[|result.trackingHealthIssues| - 1] == CapiRecord
  }

  /** What sections 9 and 10 add: score, grade, loss and top issues, all
      computed from the result itself. */
  predicate Scored(result: ScanResult) {
    var m := result.metrics;
    && m.score == Clamp(100 - TotalPenalty(ScoreInputsOf(result)))
    && 1 <= m.score <= 100
    && m.grade == GradeLetters[GradeRank(m.score)]
    && m.estimatedMonthlyLoss == MonthlyLoss(m.totalRevenue, m.score)
    && Ranked(RankInputsOf(result), result.topIssues, 5)
  }

  /** What the scorer reads, computed from the query outcomes alone. */
  function ScanScoreInputs(inputs: ScanInputs, now: int): ScoreInputs
    requires inputs.products.Returned? && inputs.orders.Returned?
  {
    var section := CheckoutSectionOf(inputs.checkouts, |inputs.orders.data|, now);
    ScoreInputs(
      Count(inputs.products.data, LacksImage),
      Count(inputs.products.data, LacksDescription),
      TrustSignals(inputs.pages),
      RateValue(section.cart.abandonmentRate),
      TrackingRecords(inputs.themeFiles),
      ThemeSignals(inputs.themes).theme)
  }

  /** What the ranker reads, computed from the query outcomes alone. */
  function ScanRankInputs(inputs: ScanInputs, now: int): RankInputs
    requires inputs.products.Returned? && inputs.orders.Returned?
  {
    var section := CheckoutSectionOf(inputs.checkouts, |inputs.orders.data|, now);
    RankInputs(
      section.cart.abandonmentRate,
      section.cart.potentialRevenue,
      section.cart.recentAbandonedCarts,
      Count(inputs.products.data, LacksImage),
      Count(inputs.products.data, LacksDescription),
      TrustSignals(inputs.pages))
  }

  /** Once sections 1 to 8 are filled in, everything the scorer and the
      ranker read is fixed by the query outcomes. */
  lemma FilledFixesInputs(inputs: ScanInputs, now: int, result: ScanResult)
    requires Filled(inputs, now, result)
    ensures ScoreInputsOf(result) == ScanScoreInputs(inputs, now)
    ensures RankInputsOf(result) == ScanRankInputs(inputs, now)
  {
  }

  /** Sections 3 to 8, once the shop and product sections are filled. */
  method FillSections(inputs: ScanInputs, now: int, r: ScanResult) returns (result: ScanResult)
    requires inputs.shop.Returned? && inputs.products.Returned? && inputs.orders.Returned?
    requires r == ProductStep(ShopStep(InitialResult, inputs.shop.data), inputs.products.data)
    ensures Filled(inputs, now, result)
    ensures MissingHigh(result.trustGapIssues) <= 3 && MissingHigh(result.trackingHealthIssues) <= 2
  {
    var orders := inputs.orders.data;
    result := OrdersStep(r, inputs.products.data, orders, inputs.shop.data, now);

    // 4. abandoned checkouts
    result := CheckoutsStep(result, inputs.checkouts, |orders|, now);

    // 5. theme, 7. trust pages, 8. tracking
    result := SignalsStep(result, inputs.themes, inputs.pages, inputs.themeFiles);
  }

  /** Scoring and ranking change none of what sections 1 to 8 filled in. */
  lemma ScoringKeepsFilled(inputs: ScanInputs, now: int, r: ScanResult, s: ScanResult)
    requires Filled(inputs, now, r)
    requires s == r.(metrics := s.metrics, topIssues := s.topIssues)
    requires s.metrics == r.metrics.(score := s.metrics.score, grade := s.metrics.grade,
                                     estimatedMonthlyLoss := s.metrics.estimatedMonthlyLoss)
    ensures Filled(inputs, now, s)
  {
  }

  /** A result scored and ranked from what it read before the update is
      scored: scoring and ranking leave what they read as it was. */
  lemma ScoringIsScored(r: ScanResult, s: ScanResult)
    requires s == r.(metrics := s.metrics, topIssues := s.topIssues)
    requires s.metrics == r.metrics.(score := s.metrics.score, grade := s.metrics.grade,
                                     estimatedMonthlyLoss := s.metrics.estimatedMonthlyLoss)
    requires s.metrics.score == Clamp(100 - TotalPenalty(ScoreInputsOf(r)))
    requires 1 <= s.metrics.score <= 100
    requires s.metrics.grade == GradeLetters[GradeRank(s.metrics.score)]
    requires s.metrics.estimatedMonthlyLoss == MonthlyLoss(r.metrics.totalRevenue, s.metrics.score)
    requires Ranked(RankInputsOf(r), s.topIssues, 5)
    ensures Scored(s)
  {
    assert ScoreInputsOf(s) == ScoreInputsOf(r) && RankInputsOf(s) == RankInputsOf(r);
  }

  /** Sections 9 and 10 on a filled result: it stays filled, is scored,
      and its score and top issues are those of the query outcomes. */
  method ScoreFilled(inputs: ScanInputs, now: int, filled: ScanResult) returns (result: ScanResult)
    requires Filled(inputs, now, filled)
    requires MissingHigh(filled.trustGapIssues) <= 3 && MissingHigh(filled.trackingHealthIssues) <= 2
    ensures Filled(inputs, now, result) && Scored(result)
    ensures result.metrics.score == Clamp(100 - TotalPenalty(ScanScoreInputs(inputs, now)))
    ensures Ranked(ScanRankInputs(inputs, now), result.topIssues, 5)
  {
    result := ScoreAndRank(filled);
    ScoringIsScored(filled, result);
    ScoringKeepsFilled(inputs, now, filled, result);
    FilledFixesInputs(inputs, now, result);
  }

  /** The whole scan. */
  method Scan(inputs: ScanInputs, now: int) returns (result: ScanResult)
    ensures result.scanned <==> inputs.shop.Returned? && inputs.products.Returned? && inputs.orders.Returned?
    ensures !result.scanned ==> result.error == Some(FailureMessage)
    ensures inputs.shop.Threw? ==> result == Failed(InitialResult)
    ensures inputs.shop.Returned? && inputs.products.Threw? ==>
      result == Failed(ShopStep(InitialResult, inputs.shop.data))
    ensures inputs.shop.Returned? && inputs.products.Returned? && inputs.orders.Threw? ==>
      result == Failed(ProductStep(ShopStep(InitialResult, inputs.shop.data), inputs.products.data))
    ensures result.scanned ==> Filled(inputs, now, result) && Scored(result)
    ensures inputs.products.Returned? && inputs.orders.Returned? && result.scanned ==>
      && result.metrics.score == Clamp(100 - TotalPenalty(ScanScoreInputs(inputs, now)))
      && Ranked(ScanRankInputs(inputs, now), result.topIssues, 5)
  {
    result := InitialResult;

    // 1. shop
    if inputs.shop.Threw? {
      result := Failed(result);
      return;
    }
    result := ShopStep(result, inputs.shop.data);

    // 2. products
    if inputs.products.Threw? {
      result := Failed(result);
      return;
    }
    result := ProductStep(result, inputs.products.data);

    // 3. orders and purchases
    if inputs.orders.Threw? {
      result := Failed(result);
      return;
    }
    // 3 to 8
    var filled := FillSections(inputs, now, result);

    // 9. score, grade, loss and 10. top issues
    result := ScoreFilled(inputs, now, filled);
  }
}
