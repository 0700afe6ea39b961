# Revenue-leak scan, modelled in Dafny

This project models the scan-and-score pass of the revenue-leak scanner, a
Shopify app. The pass is the `POST` branch of the `action` in
`app/routes/app._index.tsx`. It reads the shop, products, orders, abandoned
checkouts, themes, pages and theme files through the Admin API and fills one
`scanResult` record section by section:

- product counters;
- purchase correlation and the "hasn't sold yet" traffic issues;
- the 30-day abandoned-checkout analytics;
- theme, trust-page and tracking signals.

It then computes a score out of 100, a letter grade, an estimated monthly
loss, and up to five top issues.

The model keeps the program's structure:

- `Store`: the API records as datatypes. Each query's outcome is `Query<T>`, which either `Threw` or `Returned(data)`.
- `Products`: classification, the purchase tally (the two nested `forEach` loops, as methods), the storefront URL and the no-sale issues.
- `Checkouts`: the recent-abandoned filter, rates in tenths of a percent, and the per-product dictionary. The dictionary is a method over a `seq` of entries that updates them in place, proved equal to the fold `Group`. Also here: the stable sort and top five, the ten recent carts, and the whole section (`AnalyzeCheckouts`).
- `Signals`: the theme choice, the five trust-page records, and the tracking-marker `for` loop with its records.
- `Scoring`: the `let score` decrements as a method proved equal to `Clamp(100 - TotalPenalty)`, the `let grade` if-chain, and the loss formula.
- `Ranking`: the five conditional `push`es of the top issues.
- `Scanner`: the result record, the failure path and the whole scan, `Scanner.Scan`.
- `Seqs`, `Text`, `Arith`: `filter`, count and subsequence facts; JavaScript's `trim`, `includes`, `toLowerCase` and UTF-16 `length`; small arithmetic lemmas.

Conventions:

- A string field holding `""` stands for a JSON `null`, a missing field or an empty string. The scan tests all three alike with `||` and `!`.
- Money is integer cents, and sums of amounts are exact. `Math.round` of an exact sum is `(cents + 50) / 100`. The source adds the amounts as doubles, which can differ (see "## Left out").
- A rate `(a / t * 100).toFixed(1)` is a natural number of tenths of a percent: `(2000a + t) / (2t)`.
- The clock is a parameter `now` in milliseconds. The window start is `now - 30 days`, the same instant for the orders and the checkouts.
- `Object.values` of the abandoned-products dictionary lists entries in insertion order. The keys are product GIDs or `custom-…`, never array-index-like strings, so this is the order JavaScript uses.

Two behaviours of the code worth knowing:

- When the shop, products or orders query fails, the result keeps the sections filled so far (`{ ...scanResult, scanned: false, error }`), see `Scanner.Scan`.
- Two imageless products, three short descriptions, one missing policy, 45.0% abandonment, one missing tracking record and the Debut theme score 55, grade "D+", because 45.0% abandonment costs 10 points (`Scoring.ExampleScore`).

## Model

| member | source | states |
|---|---|---|
| Store.RoundToUnits | app/routes/app._index.tsx:380 | `Math.round` of cents to units: it rounds to the nearest unit, with half-way cases rounding up |
| Text.TrimIsInfix | app/routes/app._index.tsx:324 | `trim()` returns a contiguous span of the text; everything before and after that span is whitespace |
| Text.TrimFacts | app/routes/app._index.tsx:324 | the trimmed text neither starts nor ends with whitespace and is no longer than the text |
| Text.Utf16Length | app/routes/app._index.tsx:324 | `.length` counts UTF-16 code units: between the number of characters and twice that, and equal to it for text in the Basic Multilingual Plane |
| Text.Contains | app/routes/app._index.tsx:674 | `includes` holds exactly when the keyword occurs at some position of the text |
| Text.Lower | app/routes/app._index.tsx:672 | lower-casing keeps the length and maps each ASCII capital to its small letter, leaving every other character as it is |
| Products.Classify | app/routes/app._index.tsx:315-327 | the five product counters: total is the number of products; with + without equals total for images and for descriptions; each "without" count is the number of products lacking an image, or lacking an adequate description (absent, or under 20 UTF-16 units once trimmed) |
| Products.PaddingDoesNotChangeDescription | app/routes/app._index.tsx:323-325 | surrounding a description with whitespace never changes whether it counts as missing |
| Products.Bump | app/routes/app._index.tsx:397 | `(x \|\| 0) + quantity \|\| 1` never stores zero and stores the sum otherwise |
| Products.TallyKeys | app/routes/app._index.tsx:391-400 | the purchase map's keys are exactly the product ids some order line names, and no stored count is zero |
| Products.TallyOrderLines | app/routes/app._index.tsx:394-399 | the inner `forEach` over one order's lines extends the purchase map exactly as the fold over those lines does |
| Products.TallyPurchases | app/routes/app._index.tsx:391-400 | the nested loops build the fold of all order lines; its keys are the purchased ids and no count is zero |
| Products.NotPurchasedMeansNoLine | app/routes/app._index.tsx:403-405 | `!productPurchases[id]` holds exactly when no order line names the product |
| Products.ProductUrl | app/routes/app._index.tsx:411 | intended storefront URL: the product's own URL when it has one, otherwise exactly `https://` + the shop's domain + `/products/` + the handle |
| Products.ProductUrlAsWrittenIgnoresShop | app/routes/app._index.tsx:411 | as written, the link never depends on the shop |
| Products.ProductUrlAsWrittenWrongHost | app/routes/app._index.tsx:411 | for a product without its own URL, the link as written equals the intended one exactly when the shop's domain is the text "undefined" |
| Products.ProductUrlAsWrittenBrokenLink | app/routes/app._index.tsx:411 | for the shop `acme.myshopify.com`, the link as written differs from the storefront URL |
| Products.IssueAsWrittenDiffersInLink | app/routes/app._index.tsx:408-417 | the model's traffic issue and the issue as written differ only in the link, and are equal exactly when the product has its own URL or the shop's domain is the text "undefined" |
| Products.NoSaleIssuesInOrder | app/routes/app._index.tsx:403-418 | at most three issues, exactly min(3, number of unsold products), in product order |
| Products.NoSaleIssuesUnsold | app/routes/app._index.tsx:403-418 | the i-th issue is built from the i-th unsold product, which has no entry in the purchase map |
| Products.NoSaleIssuesComplete | app/routes/app._index.tsx:403-405 | fewer than three issues means every unsold product got one |
| Checkouts.RecentAbandoned | app/routes/app._index.tsx:478-480 | the recent list has one entry per checkout passing the filter |
| Checkouts.RecentAbandonedMembers | app/routes/app._index.tsx:478-480 | every kept checkout has no completion time and was abandoned after now - 30 days; every such checkout is kept; the order is the query's |
| Checkouts.PercentTenths | app/routes/app._index.tsx:490 | the rate in tenths of a percent is 1000·part/total rounded half-way up, and at most 1000 when part ≤ total |
| Checkouts.PercentAbove | app/routes/app._index.tsx:576 | `parseFloat(rate) > p` holds exactly when 2000·part ≥ (20p + 1)·total |
| Checkouts.RatesOfSplitSum | app/routes/app._index.tsx:565 | the recovery rate and the abandonment rate of one split of the starts add to 100.0%, or to 100.1% when both are exact half-way cases |
| Checkouts.Units | app/routes/app._index.tsx:535 | `quantity \|\| 1` is never zero and is the quantity when that is nonzero |
| Checkouts.IndexOfKey | app/routes/app._index.tsx:524 | the dictionary lookup finds an entry with the key, or reports that none has it |
| Checkouts.RecordAbandonedLine | app/routes/app._index.tsx:521-537 | the loop body applied to the dictionary: the entry is created if missing, then its units, value and count are increased |
| Checkouts.AggregateAbandonedProducts | app/routes/app._index.tsx:517-539 | the nested loops build the fold of all recent lines; keys are distinct and are exactly the lines' keys; each entry's count, units and value are the totals over the lines with its key |
| Checkouts.GroupKeys | app/routes/app._index.tsx:517-539 | the dictionary's keys are distinct and are exactly the keys of the lines |
| Checkouts.GroupTotals | app/routes/app._index.tsx:535-537 | each entry's abandon count, quantity and total value are the totals over the lines carrying its key |
| Checkouts.GroupFirstSeen | app/routes/app._index.tsx:524-533 | entries are in the order their keys first appear; name and unit price come from that first line |
| Checkouts.SortIsPermutation | app/routes/app._index.tsx:570 | the sort is a permutation of the entries |
| Checkouts.SortIsSorted | app/routes/app._index.tsx:570 | the sort puts entries in non-increasing total value |
| Checkouts.SortIsStable | app/routes/app._index.tsx:570 | for every value, entries of that value keep their dictionary order |
| Checkouts.TopAbandonedProducts | app/routes/app._index.tsx:569-571 | the top list has min(5, entries) elements |
| Checkouts.TopAbandonedMeaning | app/routes/app._index.tsx:569-571 | the top list is sorted by value, is drawn from the dictionary, keeps ties in dictionary order, and nothing left out is worth more than anything kept |
| Checkouts.CustomerName | app/routes/app._index.tsx:545-547 | a name is present exactly when the checkout has a customer with a first name |
| Checkouts.Summarize | app/routes/app._index.tsx:543-558 | a cart summary carries the checkout's id, time, total and logged-in flag, and one item per line with the line's product and total and a nonzero quantity |
| Checkouts.RecentCarts | app/routes/app._index.tsx:542 | the first min(10, recent) checkouts in order, each summarised |
| Checkouts.LoggedInCountOfRecent | app/routes/app._index.tsx:548 | the logged-in cart count is at most ten, and positive exactly when one of the first ten recent checkouts has a customer id |
| Checkouts.CartFigures | app/routes/app._index.tsx:560-572 | the cart analytics: starts, completed and abandoned counts, the recovery and abandonment rates, rounded potential revenue, the top five products, and the recent carts |
| Checkouts.CheckoutSectionFacts | app/routes/app._index.tsx:478-583 | the section holds the recent count, at most one issue (emitted exactly when there are starts and the rate rounds above 30%), at most five top products and ten recent carts, and the initial values when the query fails |
| Checkouts.CheckoutSectionFields | app/routes/app._index.tsx:484-575 | the section field by field: initial values on failure or without starts; otherwise the funnel (completion and conversion rates 100% minus the abandonment rate) and every cart figure |
| Checkouts.AnalyzeCheckouts | app/routes/app._index.tsx:423-587 | the step's updates produce exactly the section of the query outcome: a failing query leaves the initial values; otherwise the counters, the funnel and the analytics are filled once there is a start, and an issue is emitted exactly when the rate rounds above 30% |
| Signals.FirstMain | app/routes/app._index.tsx:610 | `find(role === "main")`: the first theme whose role is main, or none |
| Signals.ThemeName | app/routes/app._index.tsx:611 | the theme name is never empty and is "Custom" or the name of some theme |
| Signals.ThemeNamePriority | app/routes/app._index.tsx:611 | the main theme's name wins when it has one, then the first theme's, then "Custom" |
| Signals.ThemeNameWithoutMain | app/routes/app._index.tsx:611 | with no main theme, the first theme's name when it has one, otherwise "Custom" |
| Signals.ThemeSignals | app/routes/app._index.tsx:592-622 | a failing themes query leaves the initial theme signals |
| Signals.ThemeSignalsMeaning | app/routes/app._index.tsx:610-619 | the role is "main" exactly when some theme is main (otherwise "unknown"), and the insight says outdated exactly when the name is on the outdated list |
| Signals.ContainsAny | app/routes/app._index.tsx:674 | a title matches exactly when it contains one of the keywords |
| Signals.SomeTitleMatches | app/routes/app._index.tsx:672-674 | `pageTitles.some(...)` holds exactly when some lower-cased title contains one of the keywords |
| Signals.TrustSignals | app/routes/app._index.tsx:654-716 | a failing pages query gives no records; otherwise exactly five |
| Signals.TrustSignalsMeaning | app/routes/app._index.tsx:672-712 | record i names its check, is high for the three policies and medium otherwise, found exactly when some lower-cased title contains one of its keywords, with the matching details |
| Signals.TrustMissingHigh | app/routes/app._index.tsx:797 | missing high-severity trust records: none on failure, otherwise one per policy not found, at most three |
| Signals.FindTrackingMarkers | app/routes/app._index.tsx:742-753 | the loop's flags say exactly whether some file carries a pixel marker or a purchase-event marker |
| Signals.TrackingMissingHigh | app/routes/app._index.tsx:806 | the tracking records end with the unfound medium CAPI record and cost nothing on failure, otherwise one high-severity miss per marker not found, at most two |
| Signals.TrackingSignals | app/routes/app._index.tsx:721-783 | the records are exactly the ones of the query outcome; the list always ends with the unfound medium CAPI record; on failure only a medium record precedes it and nothing counts as missing-high; otherwise the pixel and purchase records, and one missing-high per marker not found |
| Scoring.ImagePenalty | app/routes/app._index.tsx:789-791 | at most 15, at most two per product, and zero exactly when no product lacks an image |
| Scoring.DescriptionPenalty | app/routes/app._index.tsx:793-795 | at most 10, at most one per product, and zero exactly when none lacks a description |
| Scoring.AbandonmentPenalty | app/routes/app._index.tsx:800-804 | at most 20 and a multiple of 5 |
| Scoring.AbandonmentPenaltyOfCounts | app/routes/app._index.tsx:800-804 | stated on the counts: 20, ≥15, ≥10 and ≥5 points exactly when the abandoned share rounds above 70%, 50%, 30% and 20% |
| Scoring.AbandonmentPenaltyMonotone | app/routes/app._index.tsx:800-804 | a higher rate never costs fewer points |
| Scoring.ThemePenalty | app/routes/app._index.tsx:809-811 | the theme penalty is 0 or 10 |
| Scoring.Clamp | app/routes/app._index.tsx:813 | the clamped score lies in [0, 100] and is unchanged when already there |
| Scoring.ComputeScore | app/routes/app._index.tsx:787-813 | the decrements leave 100 minus the total penalty, clamped to [0, 100]: exactly that when the penalty is at most 100, and 0 when it is 100 or more |
| Scoring.ScoreAntitone | app/routes/app._index.tsx:787-813 | a larger total penalty never gives a higher score |
| Scoring.GradeRank | app/routes/app._index.tsx:815-825 | the grade's position, at most 9 |
| Scoring.GradeRankMonotone | app/routes/app._index.tsx:815-825 | a higher score never gets a lower grade |
| Scoring.GradeRankBetween | app/routes/app._index.tsx:815-825 | a score between the k-th threshold (50, 60, 65, …, 95) and the next gets grade k |
| Scoring.GradeFor | app/routes/app._index.tsx:815-825 | the if-chain's grade is the letter at the score's position among the thresholds |
| Scoring.MonthlyLoss | app/routes/app._index.tsx:830-831 | the loss is revenue·(100 - score)/100 rounded; it lies in [0, revenue], is 0 at score 100 and the whole revenue at score 0 |
| Scoring.LossAntitone | app/routes/app._index.tsx:830-831 | a higher score never means a larger loss |
| Scoring.ExampleScore | app/routes/app._index.tsx:787-825 | two imageless products, three short descriptions, one missing policy, 45.0% abandonment, one missing tracking record and the Debut theme give 55, grade "D+" |
| Ranking.MissingPolicyNames | app/routes/app._index.tsx:852-855 | at most two names, one per missing high-severity trust record in order, with " policy" removed |
| Ranking.MissingPolicyNamesAreMissing | app/routes/app._index.tsx:852-855 | each name comes from a trust record that is of high severity and not found |
| Ranking.PoliciesMessageNames | app/routes/app._index.tsx:857-858 | for the one or two names of a missing-policies entry, the message is "Missing <name> policies" or "Missing <first> & <second> policies" |
| Ranking.PushKeepsRanked | app/routes/app._index.tsx:836-859 | one conditional push keeps the list in priority order, faithful, with one entry per condition that holds |
| Ranking.PushWhen | app/routes/app._index.tsx:836-859 | `if (condition) topIssues.push(entry)` keeps the ranking invariant |
| Ranking.RankTopIssues | app/routes/app._index.tsx:836-861 | the five pushes and the `slice(0, 5)` give a complete ranking |
| Ranking.RankedMeaning | app/routes/app._index.tsx:836-861 | at most five entries, in the fixed order, each carrying the result's numbers; each kind is present exactly when its condition holds (rate > 30%, a logged-in cart, an imageless product, a missing description, a missing high-severity policy) |
| Scanner.Failed | app/routes/app._index.tsx:870-877 | the failure result is not scanned, carries the error message and keeps what was filled |
| Scanner.PlanName | app/routes/app._index.tsx:275 | the plan name is never empty |
| Scanner.OrdersStep | app/routes/app._index.tsx:366-418 | the order section sets the order count, the 30-day revenue and the no-sale issues of the purchase tally, nothing else |
| Scanner.CheckoutsStep | app/routes/app._index.tsx:423-587 | the checkout step changes only its own fields and sets the counter, funnel, analytics and issues to the section of the query outcome; on failure they keep their initial values; otherwise it records the recent count and emits an issue exactly when there are starts and the rate rounds above 30% |
| Scanner.SignalsStep | app/routes/app._index.tsx:592-783 | the theme, trust and tracking steps change only their own fields and set them to the signals and records of their query outcomes |
| Scanner.ScoreAndRank | app/routes/app._index.tsx:787-861 | score, grade, loss and top issues are computed from the result so far; every other field is unchanged; the score is at least 1 because the penalties add to at most 99 |
| Scanner.FillSections | app/routes/app._index.tsx:366-783 | sections 3 to 8 fill the result from the query outcomes: shop and product counters, order count and revenue, no-sale issues, the whole checkout section, theme signals, trust records and tracking records |
| Scanner.FilledFixesInputs | app/routes/app._index.tsx:787-861 | once sections 1 to 8 are filled, everything the scorer and the ranker read is a function of the query outcomes and the clock |
| Scanner.ScoringKeepsFilled | app/routes/app._index.tsx:787-861 | scoring and ranking leave sections 1 to 8 as they were |
| Scanner.ScoringIsScored | app/routes/app._index.tsx:787-861 | a result whose score, grade, loss and top issues were computed from its state before the update satisfies the scoring relations on its own fields, because the update leaves what the scorer and ranker read unchanged |
| Scanner.ScoreFilled | app/routes/app._index.tsx:787-861 | scoring a filled result keeps it filled, makes it scored, and gives the score and the top issues that the query outcomes determine |
| Scanner.Scan | app/routes/app._index.tsx:194-877 | the scan succeeds exactly when the shop, products and orders queries return; each structural failure returns the partial result with the error; a success is filled section by section and scored, its score and top issues computed from the query outcomes |

## Left out

- The Admin API calls, `authenticate.admin` and the JSON plumbing are inputs to this model. Each query's outcome is a parameter of type `Query<T>`.
- PDF generation, the React dashboard, its progress timer, and the other routes are presentation code, not part of the scan.
- The installed-apps section (count and names) only copies the query's result. It feeds nothing else.
- The clock is a parameter. `scanDate` is not modelled. Daylight-saving shifts of `setDate(-30)` are not modelled: the window is a fixed 30 × 24 hours.
- Several figures exist only to be displayed, are specific to floating point, and feed nothing else:
  - `averageOrderValue`;
  - the synthetic `checkoutSteps` funnel and its drop-off strings;
  - `purchasesAfterReminder` (× 0.18);
  - `recoverableRevenue` (× 0.2);
  - `dailyFunnel`.
- Scanner.OrdersStep: `totalRevenue` rounds the exact sum of the 30-day order totals. The source adds the totals as doubles, left to right, and the sum can fall just below a half: orders of 309.50, 427.03, 248.79, 137.60 and 61.58 add up to 1184.4999999999998, so the source reports 1184 where the model gives 1185.
- Checkouts.CartFigures: `potentialRevenue` and each entry's `totalValue` are exact sums in cents, while the source adds doubles. The rounded potential revenue, and with it the checkout issue and the top-issue figure, can then differ by one. The top-five order can differ too: a product X with one line of 0.30, seen first, and a product Y with lines of 0.10 and 0.20 are worth 0.3 and 0.30000000000000004 in the source, which puts Y first; in the model both are worth 30 cents, and the stable sort keeps X first.
- Scanner.Scan: one instant `now` serves both 30-day windows. The source reads the clock twice, once for the orders and once for the checkouts, so the two windows can start a few milliseconds apart.
- Scoring.MonthlyLoss: computed over exact rationals. The source multiplies by the double `(100 - score) / 100`, and the product can fall just below a half: revenue 50 at score 71 gives 14.499999999999998, so the source reports 14 where the model gives 15.
- Products.IssueFor: the scan's no-sale issues use the corrected storefront URL (`Products.ProductUrl`). For a product without its own URL the source emits `https://undefined/products/<handle>` (see Findings); `Products.IssueAsWrittenDiffersInLink` relates the two issues.
- Scanner.OrdersStep: its no-sale issues carry the corrected link, as `Products.IssueFor` builds them, not the source's `https://undefined/products/<handle>`.
- Checkouts.LineKey: a null line title is not told apart from an empty one. For a line without a product, JavaScript's template literal gives the key `custom-null` for a null title and `custom-` for an empty one; the model gives `custom-` for both, so a line with a null title and one with an empty title share an entry in the model but not in the source.
- Checkouts.PercentTenths: stated over exact rationals. A binary double whose decimal expansion sits exactly at a `toFixed` half-way point may round the other way.
- Cart summaries and dictionary entries keep `totalPrice` and the unit price in cents. The unit price is an exact fraction, not a double.
- Text.Lower: only ASCII letters are lowered. The trust matches are unaffected. The only non-ASCII characters whose lower case holds ASCII letters are U+0130, which lowers to "i" followed by U+0307, and the Kelvin sign, which lowers to "k". No keyword contains "k", and every "i" in a keyword is followed by an ASCII letter, never by U+0307.
- Message texts built with `toLocaleString` (the checkout insight and the top-issue strings) are kept as the numbers they are built from. `Ranking.PoliciesMessage` is the one text built out.
- Checkouts.AnalyzeCheckouts: a rate that is still the initial text `"0%"` is `None`. It reads as 0 wherever the scan calls `parseFloat` on it.
- Signals.TrustSignals: the five records are pushed one after another inside one `try`. A failure between pushes would leave some records. The only failure modelled is the query's, which leaves none.

## Findings

| source | as written | input that shows it | evidently intended | confidence | as-written member | corrected member |
|---|---|---|---|---|---|---|
| app/routes/app._index.tsx:411 | the fallback product URL uses `shop?.myshopifyDomain`, but the shop query (lines 259-268) selects only `name` and `plan`, so the host is always the text "undefined" | shop `acme.myshopify.com`, product with handle `mug` and no online-store URL: link `https://undefined/products/mug` | `https://acme.myshopify.com/products/mug`, built from the shop's own domain | not executed | Products.ProductUrlAsWrittenBrokenLink | Products.ProductUrl |
