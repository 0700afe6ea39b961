/** The abandoned-checkout section of the scan: the 30-day filter, the
    abandonment and recovery rates, the per-product aggregation with its
    top five by value, the ten most recent carts, and the checkout
    abandonment issue. */
module Checkouts {
  import opened Store
  import opened Seqs
  import opened Text
  import opened Arith

  // ---------------------------------------------------------------- filter

  /** No completion timestamp, abandoned strictly after now - 30 days. */
  predicate IsRecentAbandoned(now: int, c: Checkout) {
    c.completedAt.None? && c.abandonedAt > WindowStart(now)
  }

  function RecentIn(now: int): Checkout -> bool {
    c => IsRecentAbandoned(now, c)
  }

  function RecentAbandoned(checkouts: seq<Checkout>, now: int): (r: seq<Checkout>)
    ensures |r| == Count(checkouts, RecentIn(now))
  {
    FilterLength(checkouts, RecentIn(now));
    Filter(checkouts, RecentIn(now))
  }

  /** The recent list holds exactly the open checkouts abandoned within
      the window, in their original order. */
  lemma RecentAbandonedMembers(checkouts: seq<Checkout>, now: int)
    ensures var r := RecentAbandoned(checkouts, now);
      && (forall i :: 0 <= i < |r| ==> r[i].completedAt.None? && r[i].abandonedAt > WindowStart(now))
      && (forall i :: 0 <= i < |checkouts| && IsRecentAbandoned(now, checkouts[i]) ==> checkouts[i] in r)
      && IsSubsequence(r, checkouts)
  {
    var r := RecentAbandoned(checkouts, now);
    FilterMembers(checkouts, RecentIn(now));
    FilterIsSubsequence(checkouts, RecentIn(now));
    assert forall i :: 0 <= i < |r| ==> RecentIn(now)(r[i]);
    assert forall i :: 0 <= i < |checkouts| && IsRecentAbandoned(now, checkouts[i]) ==> RecentIn(now)(checkouts[i]);
  }

  // ---------------------------------------------------------------- rates

  /** `(part / total * 100).toFixed(1)` as an integer number of tenths of
      a percent: 1000 * part / total rounded half-way up. */
  function PercentTenths(part: nat, total: nat): (t: nat)
    requires total > 0
    ensures total * (2 * t) <= 2000 * part + total < total * (2 * t + 2)
    ensures part <= total ==> t <= 1000
  {
    DivBounds(2000 * part + total, 2 * total);
    PercentAtMostHundred(part, total);
    (2000 * part + total) / (2 * total)
  }

  lemma PercentAtMostHundred(part: nat, total: nat)
    requires total > 0
    ensures part <= total ==> (2000 * part + total) / (2 * total) <= 1000
  {
    if part <= total {
      DivBelow(2000 * part + total, 2 * total, 1001);
    }
  }

  /** `parseFloat(rate) > p` for a whole percentage `p`: the rate rounded to
      one decimal exceeds p exactly when 2000 * part >= (20p + 1) * total. */
  lemma PercentAbove(part: nat, total: nat, p: nat)
    requires total > 0
    ensures PercentTenths(part, total) > 10 * p <==> 2000 * part >= (20 * p + 1) * total
  {
    var t := PercentTenths(part, total);
    if t > 10 * p {
      assert t >= 10 * p + 1;
      assert total * (2 * t) >= total * (20 * p + 2) by {
        MulMonotone(total, 20 * p + 2, 2 * t);
      }
    } else {
      assert 2 * t + 2 <= 20 * p + 2;
      assert total * (2 * t + 2) <= total * (20 * p + 2) by {
        MulMonotone(total, 2 * t + 2, 20 * p + 2);
      }
    }
  }

  /** The two rates of one split of `total` into `part` and `total - part`
      add up to 100.0%, or to 100.1% when both are exact half-way cases. */
  lemma RatesOfSplitSum(part: nat, total: nat)
    requires 0 < total && part <= total
    ensures var s := PercentTenths(part, total) + PercentTenths(total - part, total);
      s == 1000 || (s == 1001 && (2000 * part + total) % (2 * total) == 0)
  {
    var x := 2000 * part + total;
    var y := 2000 * (total - part) + total;
    var d := 2 * total;
    assert x + y == 1001 * d;
    SplitDivSum(x, y, d, 1001);
  }

  // ---------------------------------------------------------------- per-product aggregation

  /** One entry of the abandoned-products dictionary. The unit price is
      the first line's total divided by its units, kept as the exact
      fraction `priceCents / priceUnits`. */
  datatype ProductTally = ProductTally(
    productId: string,
    productName: string,
    quantity: int,
    priceCents: nat,
    priceUnits: int,
    totalValue: nat,
    abandonCount: nat)

  /** `product?.id || "custom-" + title`. */
  function LineKey(l: CheckoutLine): string {
    if l.productId != "" then l.productId else "custom-" + l.title
  }

  /** `quantity || 1`. */
  function Units(quantity: int): (u: int)
    ensures u != 0
    ensures quantity != 0 ==> u == quantity
  {
    if quantity == 0 then 1 else quantity
  }

  /** `product?.title || title`. */
  function LineName(l: CheckoutLine): string {
    if l.productTitle != "" then l.productTitle else l.title
  }

  function IndexOfKey(ts: seq<ProductTally>, key: string): (r: Option<nat>)
    ensures r.Some? ==> r.value < |ts| && ts[r.value].productId == key
    ensures r.None? ==> forall j :: 0 <= j < |ts| ==> ts[j].productId != key
    decreases |ts|
  {
    if ts == [] then None
    else if ts[0].productId == key then Some(0)
    else match IndexOfKey(ts[1..], key)
      case None => None
      case Some(j) => Some(j + 1)
  }

  /** A fresh dictionary entry for the first line with a given key. */
  function FreshTally(l: CheckoutLine): ProductTally {
    ProductTally(LineKey(l), LineName(l), 0, l.totalCents, Units(l.quantity), 0, 0)
  }

  function Accumulate(t: ProductTally, l: CheckoutLine): ProductTally {
    t.(quantity := t.quantity + Units(l.quantity),
       totalValue := t.totalValue + l.totalCents,
       abandonCount := t.abandonCount + 1)
  }

  /** One step of the `forEach`: create the entry if the key is new (it is
      appended, so keys stay in first-seen order), then accumulate. */
  function AddAbandonedLine(ts: seq<ProductTally>, l: CheckoutLine): seq<ProductTally> {
    match IndexOfKey(ts, LineKey(l))
    case None => ts + [Accumulate(FreshTally(l), l)]
    case Some(i) => ts[i := Accumulate(ts[i], l)]
  }

  /** The dictionary after processing `lines` from first to last. */
  function Group(lines: seq<CheckoutLine>): seq<ProductTally>
    decreases |lines|
  {
    if lines == [] then [] else AddAbandonedLine(Group(lines[..|lines| - 1]), lines[|lines| - 1])
  }

  /** All lines of all carts, cart by cart. */
  function CartLines(carts: seq<Checkout>): seq<CheckoutLine>
    decreases |carts|
  {
    if carts == [] then [] else CartLines(carts[..|carts| - 1]) + carts[|carts| - 1].lines
  }

  // Reference definitions, over the lines directly.

  function KeyCount(lines: seq<CheckoutLine>, key: string): nat
    decreases |lines|
  {
    if lines == [] then 0
    else KeyCount(lines[..|lines| - 1], key) + (if LineKey(lines[|lines| - 1]) == key then 1 else 0)
  }

  function KeyUnits(lines: seq<CheckoutLine>, key: string): int
    decreases |lines|
  {
    if lines == [] then 0
    else KeyUnits(lines[..|lines| - 1], key) + (if LineKey(lines[|lines| - 1]) == key then Units(lines[|lines| - 1].quantity) else 0)
  }

  function KeyValue(lines: seq<CheckoutLine>, key: string): nat
    decreases |lines|
  {
    if lines == [] then 0
    else KeyValue(lines[..|lines| - 1], key) + (if LineKey(lines[|lines| - 1]) == key then lines[|lines| - 1].totalCents else 0)
  }

  /** The position of the first line with the given key (|lines| if none). */
  function FirstKeyIndex(lines: seq<CheckoutLine>, key: string): (r: nat)
    ensures r <= |lines|
    ensures r < |lines| ==> LineKey(lines[r]) == key
    ensures forall i :: 0 <= i < r ==> LineKey(lines[i]) != key
    decreases |lines|
  {
    if lines == [] then 0
    else
      var init := lines[..|lines| - 1];
      var f := FirstKeyIndex(init, key);
      if f < |init| then f
      else if LineKey(lines[|lines| - 1]) == key then |init|
      else |lines|
  }

  predicate DistinctKeys(ts: seq<ProductTally>) {
    forall i, j :: 0 <= i < j < |ts| ==> ts[i].productId != ts[j].productId
  }

  function TallyKeys(ts: seq<ProductTally>): set<string> {
    set j | 0 <= j < |ts| :: ts[j].productId
  }

  function LineKeys(lines: seq<CheckoutLine>): set<string> {
    set i | 0 <= i < |lines| :: LineKey(lines[i])
  }

  lemma GroupSnoc(lines: seq<CheckoutLine>, l: CheckoutLine)
    ensures Group(lines + [l]) == AddAbandonedLine(Group(lines), l)
  {
    assert (lines + [l])[..|lines|] == lines;
  }

  lemma LineKeysSnoc(init: seq<CheckoutLine>, l: CheckoutLine)
    ensures LineKeys(init + [l]) == LineKeys(init) + {LineKey(l)}
  {
    var lines := init + [l];
    assert forall i :: 0 <= i < |init| ==> init[i] == lines[i];
    assert lines[|init|] == l;
  }

  /** A new entry for an absent key adds that key and keeps keys distinct. */
  lemma KeysAfterNewEntry(g: seq<ProductTally>, t: ProductTally)
    requires DistinctKeys(g) && t.productId !in TallyKeys(g)
    ensures DistinctKeys(g + [t])
    ensures TallyKeys(g + [t]) == TallyKeys(g) + {t.productId}
  {
    var g' := g + [t];
    assert forall j :: 0 <= j < |g| ==> g'[j] == g[j];
    assert g'[|g|] == t;
    forall j | 0 <= j < |g| ensures g[j].productId in TallyKeys(g) { }
  }

  /** Updating an entry in place leaves the keys as they were. */
  lemma KeysAfterUpdate(g: seq<ProductTally>, i: nat, t: ProductTally)
    requires DistinctKeys(g) && i < |g| && t.productId == g[i].productId
    ensures DistinctKeys(g[i := t])
    ensures TallyKeys(g[i := t]) == TallyKeys(g)
  {
    assert forall j :: 0 <= j < |g| ==> g[i := t][j].productId == g[j].productId;
  }

  /** The dictionary has one entry per distinct key of the lines. */
  lemma {:induction false} GroupKeys(lines: seq<CheckoutLine>)
    ensures DistinctKeys(Group(lines))
    ensures TallyKeys(Group(lines)) == LineKeys(lines)
    decreases |lines|
  {
    if lines != [] {
      var init, l := lines[..|lines| - 1], lines[|lines| - 1];
      assert lines == init + [l];
      GroupKeys(init);
      GroupSnoc(init, l);
      LineKeysSnoc(init, l);
      var g := Group(init);
      match IndexOfKey(g, LineKey(l))
      case None =>
        KeysAfterNewEntry(g, Accumulate(FreshTally(l), l));
      case Some(i) =>
        KeysAfterUpdate(g, i, Accumulate(g[i], l));
    }
  }

  lemma {:induction false} AbsentKeyTotals(lines: seq<CheckoutLine>, key: string)
    requires key !in LineKeys(lines)
    ensures KeyCount(lines, key) == 0 && KeyUnits(lines, key) == 0 && KeyValue(lines, key) == 0
    decreases |lines|
  {
    if lines != [] {
      var init := lines[..|lines| - 1];
      assert LineKeys(init) <= LineKeys(lines) by {
        assert forall i :: 0 <= i < |init| ==> init[i] == lines[i];
      }
      assert LineKey(lines[|lines| - 1]) in LineKeys(lines);
      AbsentKeyTotals(init, key);
    }
  }

  /** Each entry's counters are the totals, over `lines`, of the lines
      with its key. */
  predicate TotalsMatch(lines: seq<CheckoutLine>, g: seq<ProductTally>) {
    forall j :: 0 <= j < |g| ==>
      && g[j].abandonCount == KeyCount(lines, g[j].productId)
      && g[j].quantity == KeyUnits(lines, g[j].productId)
      && g[j].totalValue == KeyValue(lines, g[j].productId)
  }

  /** The per-key totals after one more line. */
  lemma KeyTotalsSnoc(init: seq<CheckoutLine>, l: CheckoutLine, key: string)
    ensures KeyCount(init + [l], key) == KeyCount(init, key) + (if LineKey(l) == key then 1 else 0)
    ensures KeyUnits(init + [l], key) == KeyUnits(init, key) + (if LineKey(l) == key then Units(l.quantity) else 0)
    ensures KeyValue(init + [l], key) == KeyValue(init, key) + (if LineKey(l) == key then l.totalCents else 0)
  {
    assert (init + [l])[..|init|] == init;
  }

  lemma TotalsNewKey(init: seq<CheckoutLine>, l: CheckoutLine, g: seq<ProductTally>)
    requires TotalsMatch(init, g) && LineKey(l) !in LineKeys(init)
    requires forall j :: 0 <= j < |g| ==> g[j].productId != LineKey(l)
    ensures TotalsMatch(init + [l], g + [Accumulate(FreshTally(l), l)])
  {
    var g' := g + [Accumulate(FreshTally(l), l)];
    AbsentKeyTotals(init, LineKey(l));
    forall j | 0 <= j < |g'|
      ensures && g'[j].abandonCount == KeyCount(init + [l], g'[j].productId)
              && g'[j].quantity == KeyUnits(init + [l], g'[j].productId)
              && g'[j].totalValue == KeyValue(init + [l], g'[j].productId)
    {
      KeyTotalsSnoc(init, l, g'[j].productId);
      if j < |g| {
        assert g'[j] == g[j];
      }
    }
  }

  lemma TotalsOldKey(init: seq<CheckoutLine>, l: CheckoutLine, g: seq<ProductTally>, i: nat)
    requires TotalsMatch(init, g) && DistinctKeys(g) && i < |g| && g[i].productId == LineKey(l)
    ensures TotalsMatch(init + [l], g[i := Accumulate(g[i], l)])
  {
    var g' := g[i := Accumulate(g[i], l)];
    forall j | 0 <= j < |g'|
      ensures && g'[j].abandonCount == KeyCount(init + [l], g'[j].productId)
              && g'[j].quantity == KeyUnits(init + [l], g'[j].productId)
              && g'[j].totalValue == KeyValue(init + [l], g'[j].productId)
    {
      KeyTotalsSnoc(init, l, g'[j].productId);
      if j != i {
        assert g'[j] == g[j] && g[j].productId != LineKey(l);
      }
    }
  }

  /** Each entry's counters are the totals, over the lines with its key,
      of events, units (`quantity || 1`) and line value. */
  lemma {:induction false} GroupTotals(lines: seq<CheckoutLine>)
    ensures TotalsMatch(lines, Group(lines))
    decreases |lines|
  {
    if lines != [] {
      var init, l := lines[..|lines| - 1], lines[|lines| - 1];
      assert lines == init + [l];
      GroupTotals(init);
      GroupKeys(init);
      GroupSnoc(init, l);
      var g := Group(init);
      match IndexOfKey(g, LineKey(l))
      case None =>
        assert LineKey(l) !in TallyKeys(g);
        TotalsNewKey(init, l, g);
      case Some(i) =>
        TotalsOldKey(init, l, g, i);
    }
  }

  lemma FirstKeyIndexFound(lines: seq<CheckoutLine>, key: string)
    ensures key in LineKeys(lines) <==> FirstKeyIndex(lines, key) < |lines|
  {
    if key in LineKeys(lines) {
      var i :| 0 <= i < |lines| && LineKey(lines[i]) == key;
    }
  }

  /** Appending a line does not move the first occurrence of a key that
      already occurs, and puts a new key's first occurrence at the end. */
  lemma FirstKeyIndexSnoc(lines: seq<CheckoutLine>, l: CheckoutLine, key: string)
    ensures key in LineKeys(lines) ==> FirstKeyIndex(lines + [l], key) == FirstKeyIndex(lines, key) < |lines|
    ensures key !in LineKeys(lines) && key == LineKey(l) ==> FirstKeyIndex(lines + [l], key) == |lines|
  {
    assert (lines + [l])[..|lines|] == lines;
    FirstKeyIndexFound(lines, key);
  }

  /** Each entry keeps the name and unit price of the first line with its key. */
  predicate KeepsFirstLine(lines: seq<CheckoutLine>, g: seq<ProductTally>) {
    forall j :: 0 <= j < |g| ==>
      var f := FirstKeyIndex(lines, g[j].productId);
      && f < |lines|
      && g[j].productName == LineName(lines[f])
      && g[j].priceCents == lines[f].totalCents
      && g[j].priceUnits == Units(lines[f].quantity)
  }

  /** Entries appear in the order their keys are first seen. */
  predicate InFirstSeenOrder(lines: seq<CheckoutLine>, g: seq<ProductTally>) {
    forall j, k :: 0 <= j < k < |g| ==>
      FirstKeyIndex(lines, g[j].productId) < FirstKeyIndex(lines, g[k].productId)
  }

  /** Appending a line leaves the first occurrence of every key already
      in the dictionary where it was. */
  lemma FirstIndicesStay(init: seq<CheckoutLine>, l: CheckoutLine, g: seq<ProductTally>)
    requires TallyKeys(g) == LineKeys(init)
    ensures forall j :: 0 <= j < |g| ==>
      FirstKeyIndex(init + [l], g[j].productId) == FirstKeyIndex(init, g[j].productId) < |init|
  {
    forall j | 0 <= j < |g|
      ensures FirstKeyIndex(init + [l], g[j].productId) == FirstKeyIndex(init, g[j].productId) < |init|
    {
      assert g[j].productId in TallyKeys(g);
      FirstKeyIndexSnoc(init, l, g[j].productId);
    }
  }

  lemma FirstSeenNewKey(init: seq<CheckoutLine>, l: CheckoutLine, g: seq<ProductTally>)
    requires KeepsFirstLine(init, g) && InFirstSeenOrder(init, g)
    requires TallyKeys(g) == LineKeys(init) && LineKey(l) !in LineKeys(init)
    ensures var g' := g + [Accumulate(FreshTally(l), l)];
      KeepsFirstLine(init + [l], g') && InFirstSeenOrder(init + [l], g')
  {
    var lines, g' := init + [l], g + [Accumulate(FreshTally(l), l)];
    FirstIndicesStay(init, l, g);
    FirstKeyIndexSnoc(init, l, LineKey(l));
    forall j | 0 <= j < |g'|
      ensures var f := FirstKeyIndex(lines, g'[j].productId);
        && f < |lines|
        && g'[j].productName == LineName(lines[f])
        && g'[j].priceCents == lines[f].totalCents
        && g'[j].priceUnits == Units(lines[f].quantity)
    {
      if j < |g| {
        var f := FirstKeyIndex(init, g[j].productId);
        assert g'[j] == g[j] && lines[f] == init[f];
      } else {
        assert g'[j].productId == LineKey(l) && lines[|init|] == l;
      }
    }
    forall j, k | 0 <= j < k < |g'|
      ensures FirstKeyIndex(lines, g'[j].productId) < FirstKeyIndex(lines, g'[k].productId)
    {
      assert g'[j] == g[j];
      if k < |g| {
        assert g'[k] == g[k];
      } else {
        assert g'[k].productId == LineKey(l);
      }
    }
  }

  lemma FirstSeenOldKey(init: seq<CheckoutLine>, l: CheckoutLine, g: seq<ProductTally>, i: nat)
    requires KeepsFirstLine(init, g) && InFirstSeenOrder(init, g)
    requires TallyKeys(g) == LineKeys(init) && i < |g| && g[i].productId == LineKey(l)
    ensures var g' := g[i := Accumulate(g[i], l)];
      KeepsFirstLine(init + [l], g') && InFirstSeenOrder(init + [l], g')
  {
    var lines, g' := init + [l], g[i := Accumulate(g[i], l)];
    FirstIndicesStay(init, l, g);
    assert forall k :: 0 <= k < |init| ==> lines[k] == init[k];
    assert forall j :: 0 <= j < |g| ==>
      g'[j].productId == g[j].productId && g'[j].productName == g[j].productName
      && g'[j].priceCents == g[j].priceCents && g'[j].priceUnits == g[j].priceUnits;
  }

  /** The dictionary keeps keys in first-seen order, each with the name
      and unit price of its first line. */
  lemma {:induction false} GroupFirstSeen(lines: seq<CheckoutLine>)
    ensures KeepsFirstLine(lines, Group(lines))
    ensures InFirstSeenOrder(lines, Group(lines))
    decreases |lines|
  {
    if lines != [] {
      var init, l := lines[..|lines| - 1], lines[|lines| - 1];
      assert lines == init + [l];
      GroupFirstSeen(init);
      GroupKeys(init);
      GroupSnoc(init, l);
      var g := Group(init);
      match IndexOfKey(g, LineKey(l))
      case None =>
        assert LineKey(l) !in TallyKeys(g);
        FirstSeenNewKey(init, l, g);
      case Some(i) =>
        FirstSeenOldKey(init, l, g, i);
    }
  }

  lemma CartLinesSnoc(carts: seq<Checkout>, c: nat)
    requires c < |carts|
    ensures CartLines(carts[..c + 1]) == CartLines(carts[..c]) + carts[c].lines
  {
    assert carts[..c + 1][..c] == carts[..c];
  }

  /** The body of the inner `forEach`: look the key up, create a fresh
      entry if it is missing, then add the line's units, value and one
      abandonment event to that entry. */
  method RecordAbandonedLine(tallies: seq<ProductTally>, line: CheckoutLine) returns (updated: seq<ProductTally>)
    ensures updated == AddAbandonedLine(tallies, line)
  {
    updated := tallies;
    var found := IndexOfKey(updated, LineKey(line));
    var i: nat;
    if found.None? {
      updated := updated + [FreshTally(line)];
      i := |updated| - 1;
    } else {
      i := found.value;
    }
    var entry := updated[i];
    updated := updated[i := entry.(quantity := entry.quantity + Units(line.quantity),
                                   totalValue := entry.totalValue + line.totalCents,
                                   abandonCount := entry.abandonCount + 1)];
    if found.None? {
      assert updated == tallies + [Accumulate(FreshTally(line), line)];
    }
  }

  /** The two nested `forEach` loops over the recent carts and their lines,
      updating the dictionary in place. */
  method AggregateAbandonedProducts(carts: seq<Checkout>) returns (tallies: seq<ProductTally>)
    ensures tallies == Group(CartLines(carts))
    ensures DistinctKeys(tallies) && TallyKeys(tallies) == LineKeys(CartLines(carts))
    ensures forall j :: 0 <= j < |tallies| ==>
      && tallies[j].abandonCount == KeyCount(CartLines(carts), tallies[j].productId)
      && tallies[j].quantity == KeyUnits(CartLines(carts), tallies[j].productId)
      && tallies[j].totalValue == KeyValue(CartLines(carts), tallies[j].productId)
  {
    tallies := [];
    for c := 0 to |carts|
      invariant tallies == Group(CartLines(carts[..c]))
    {
      var lines := carts[c].lines;
      ghost var before := CartLines(carts[..c]);
      assert before + lines[..0] == before;
      for j := 0 to |lines|
        invariant tallies == Group(before + lines[..j])
      {
        ghost var done := before + lines[..j];
        AppendNext(before, lines, j);
        GroupSnoc(done, lines[j]);
        tallies := RecordAbandonedLine(tallies, lines[j]);
      }
      assert lines[..|lines|] == lines;
      CartLinesSnoc(carts, c);
    }
    assert carts[..|carts|] == carts;
    GroupKeys(CartLines(carts));
    GroupTotals(CartLines(carts));
  }

  // ---------------------------------------------------------------- top five

  predicate SortedByValueDesc(ts: seq<ProductTally>) {
    forall i, j :: 0 <= i < j < |ts| ==> ts[i].totalValue >= ts[j].totalValue
  }

  function ValueIs(v: nat): ProductTally -> bool {
    (t: ProductTally) => t.totalValue == v
  }

  /** Insert `x` before the first entry whose value is at most its own. */
  function InsertByValue(x: ProductTally, sorted: seq<ProductTally>): (r: seq<ProductTally>)
    ensures |r| == |sorted| + 1
    decreases |sorted|
  {
    if sorted == [] || sorted[0].totalValue <= x.totalValue then [x] + sorted
    else [sorted[0]] + InsertByValue(x, sorted[1..])
  }

  /** `sort((a, b) => b.totalValue - a.totalValue)`: a stable sort, highest
      value first. */
  function SortByValueDesc(ts: seq<ProductTally>): (r: seq<ProductTally>)
    ensures |r| == |ts|
    decreases |ts|
  {
    if ts == [] then [] else InsertByValue(ts[0], SortByValueDesc(ts[1..]))
  }

  /** Insertion adds `x` and nothing else. */
  lemma {:induction false} InsertAddsOne(x: ProductTally, sorted: seq<ProductTally>)
    ensures multiset(InsertByValue(x, sorted)) == multiset(sorted) + multiset{x}
    decreases |sorted|
  {
    if sorted != [] && sorted[0].totalValue > x.totalValue {
      var y, rest := sorted[0], sorted[1..];
      InsertAddsOne(x, rest);
      var r := InsertByValue(x, rest);
      assert sorted == [y] + rest;
      assert InsertByValue(x, sorted) == [y] + r;
      assert multiset([y] + r) == multiset([y]) + multiset(r);
      assert multiset(sorted) == multiset([y]) + multiset(rest);
    } else {
      assert InsertByValue(x, sorted) == [x] + sorted;
      assert multiset([x] + sorted) == multiset([x]) + multiset(sorted);
      assert multiset([x]) == multiset{x};
    }
  }

  /** An upper bound of `x` and of every entry bounds the result. */
  lemma {:induction false} InsertBounded(x: ProductTally, sorted: seq<ProductTally>, b: int)
    requires x.totalValue <= b
    requires forall k :: 0 <= k < |sorted| ==> sorted[k].totalValue <= b
    ensures forall k :: 0 <= k < |InsertByValue(x, sorted)| ==> InsertByValue(x, sorted)[k].totalValue <= b
    decreases |sorted|
  {
    if sorted != [] && sorted[0].totalValue > x.totalValue {
      var y, rest := sorted[0], sorted[1..];
      assert forall k :: 0 <= k < |rest| ==> rest[k] == sorted[k + 1];
      InsertBounded(x, rest, b);
      var r := InsertByValue(x, rest);
      assert InsertByValue(x, sorted) == [y] + r;
    }
  }

  /** The sort is a permutation. */
  lemma {:induction false} SortIsPermutation(ts: seq<ProductTally>)
    ensures multiset(SortByValueDesc(ts)) == multiset(ts)
    decreases |ts|
  {
    if ts != [] {
      var h, t := ts[0], ts[1..];
      var st := SortByValueDesc(t);
      SortIsPermutation(t);
      InsertAddsOne(h, st);
      assert SortByValueDesc(ts) == InsertByValue(h, st);
      assert ts == [h] + t;
      assert multiset(ts) == multiset([h]) + multiset(t);
      assert multiset([h]) == multiset{h};
    }
  }

  lemma {:induction false} InsertKeepsSorted(x: ProductTally, sorted: seq<ProductTally>)
    requires SortedByValueDesc(sorted)
    ensures SortedByValueDesc(InsertByValue(x, sorted))
    ensures InsertByValue(x, sorted) != [] && InsertByValue(x, sorted)[0].totalValue >= x.totalValue
    ensures sorted != [] ==> InsertByValue(x, sorted)[0].totalValue >= sorted[0].totalValue
    decreases |sorted|
  {
    if sorted != [] && sorted[0].totalValue > x.totalValue {
      var y, rest := sorted[0], sorted[1..];
      InsertKeepsSorted(x, rest);
      InsertBounded(x, rest, y.totalValue);
      var r := InsertByValue(x, rest);
      assert InsertByValue(x, sorted) == [y] + r;
    }
  }

  lemma {:induction false} SortIsSorted(ts: seq<ProductTally>)
    ensures SortedByValueDesc(SortByValueDesc(ts))
    decreases |ts|
  {
    if ts != [] {
      SortIsSorted(ts[1..]);
      InsertKeepsSorted(ts[0], SortByValueDesc(ts[1..]));
    }
  }

  lemma FilterCons(x: ProductTally, s: seq<ProductTally>, f: ProductTally -> bool)
    ensures Filter([x] + s, f) == (if f(x) then [x] else []) + Filter(s, f)
  {
    assert ([x] + s)[1..] == s;
  }

  /** Entries passed over by an insertion have a larger value than `x`,
      so among the entries of one value `x` keeps its place in front. */
  lemma {:induction false} InsertFilterValue(x: ProductTally, sorted: seq<ProductTally>, v: nat)
    ensures Filter(InsertByValue(x, sorted), ValueIs(v)) == Filter([x] + sorted, ValueIs(v))
    decreases |sorted|
  {
    if sorted != [] && sorted[0].totalValue > x.totalValue {
      var y, rest, f := sorted[0], sorted[1..], ValueIs(v);
      var a := if f(y) then [y] else [];
      var b := if f(x) then [x] else [];
      assert InsertByValue(x, sorted) == [y] + InsertByValue(x, rest);
      FilterCons(y, InsertByValue(x, rest), f);
      InsertFilterValue(x, rest, v);
      FilterCons(x, rest, f);
      assert sorted == [y] + rest;
      FilterCons(y, rest, f);
      FilterCons(x, sorted, f);
      var tail := Filter(rest, f);
      if a == [] {
        assert a + tail == tail;
        assert a + (b + tail) == b + tail;
      } else {
        assert b == [];
        assert b + tail == tail;
        assert b + (a + tail) == a + tail;
      }
    }
  }

  /** Stability: for every value, the entries of that value come out in the
      order they went in. */
  lemma {:induction false} SortIsStable(ts: seq<ProductTally>, v: nat)
    ensures Filter(SortByValueDesc(ts), ValueIs(v)) == Filter(ts, ValueIs(v))
    decreases |ts|
  {
    if ts != [] {
      SortIsStable(ts[1..], v);
      InsertFilterValue(ts[0], SortByValueDesc(ts[1..]), v);
      FilterCons(ts[0], SortByValueDesc(ts[1..]), ValueIs(v));
      assert ts == [ts[0]] + ts[1..];
      FilterCons(ts[0], ts[1..], ValueIs(v));
    }
  }

  /** An element that the first `k` entries do not account for sits at
      some position from `k` on. */
  lemma OutsidePrefix<T>(s: seq<T>, k: nat, x: T)
    requires k <= |s| && x in multiset(s) - multiset(s[..k])
    ensures exists m :: k <= m < |s| && s[m] == x
  {
    assert s == s[..k] + s[k..];
    assert multiset(s) == multiset(s[..k]) + multiset(s[k..]);
    assert x in multiset(s[k..]);
    var m :| 0 <= m < |s[k..]| && s[k..][m] == x;
    assert s[k + m] == x;
  }

  /** What is cut off after position `k` of the sorted entries is worth no
      more than anything kept. */
  lemma SortedCut(ts: seq<ProductTally>, k: nat)
    requires k <= |ts|
    ensures var sorted := SortByValueDesc(ts);
      forall x, i :: x in multiset(ts) - multiset(sorted[..k]) && 0 <= i < k ==> x.totalValue <= sorted[i].totalValue
  {
    var sorted := SortByValueDesc(ts);
    SortIsSorted(ts);
    SortIsPermutation(ts);
    forall x, i | x in multiset(ts) - multiset(sorted[..k]) && 0 <= i < k
      ensures x.totalValue <= sorted[i].totalValue
    {
      OutsidePrefix(sorted, k, x);
    }
  }

  lemma SortedPrefixStable(ts: seq<ProductTally>, k: nat)
    requires k <= |ts|
    ensures forall v: nat :: Filter(SortByValueDesc(ts)[..k], ValueIs(v)) <= Filter(ts, ValueIs(v))
  {
    forall v: nat
      ensures Filter(SortByValueDesc(ts)[..k], ValueIs(v)) <= Filter(ts, ValueIs(v))
    {
      FilterPrefix(SortByValueDesc(ts), k, ValueIs(v));
      SortIsStable(ts, v);
    }
  }

  lemma PrefixKeepsSorted(s: seq<ProductTally>, k: nat)
    requires k <= |s| && SortedByValueDesc(s)
    ensures SortedByValueDesc(s[..k])
  {
    forall i, j | 0 <= i < j < k
      ensures s[..k][i].totalValue >= s[..k][j].totalValue
    {
      assert s[..k][i] == s[i] && s[..k][j] == s[j];
    }
  }

  lemma PrefixMultiset<T>(s: seq<T>, k: nat)
    requires k <= |s|
    ensures multiset(s[..k]) <= multiset(s)
  {
    assert s == s[..k] + s[k..];
    assert multiset(s) == multiset(s[..k]) + multiset(s[k..]);
  }

  lemma SortedPrefixFacts(ts: seq<ProductTally>, k: nat)
    requires k <= |ts|
    ensures SortedByValueDesc(SortByValueDesc(ts)[..k])
    ensures multiset(SortByValueDesc(ts)[..k]) <= multiset(ts)
  {
    SortIsSorted(ts);
    PrefixKeepsSorted(SortByValueDesc(ts), k);
    PrefixMultiset(SortByValueDesc(ts), k);
    SortIsPermutation(ts);
  }

  /** `.sort(...).slice(0, 5)`. */
  function TopAbandonedProducts(ts: seq<ProductTally>): (r: seq<ProductTally>)
    ensures |r| == Min(5, |ts|)
  {
    SortByValueDesc(ts)[..Min(5, |ts|)]
  }

  /** The five most valuable entries, highest first, ties in dictionary
      order, drawn from the dictionary; nothing left out is worth more. */
  lemma TopAbandonedMeaning(ts: seq<ProductTally>)
    ensures var r := TopAbandonedProducts(ts);
      && SortedByValueDesc(r)
      && multiset(r) <= multiset(ts)
      && (forall v: nat :: Filter(r, ValueIs(v)) <= Filter(ts, ValueIs(v)))
      && (forall x, i :: x in multiset(ts) - multiset(r) && 0 <= i < |r| ==> x.totalValue <= r[i].totalValue)
  {
    var k := Min(5, |ts|);
    SortedCut(ts, k);
    SortedPrefixStable(ts, k);
    SortedPrefixFacts(ts, k);
  }

  // ---------------------------------------------------------------- recent carts

  /** One line of a cart summary; `productId` is `""` for a custom item. */
  datatype CartItem = CartItem(productId: string, productName: string, quantity: int, priceCents: nat, priceUnits: int)

  /** One entry of `recentAbandonedCarts`; `customerEmail` is `""` when
      neither the checkout nor its customer has one. */
  datatype CartSummary = CartSummary(
    cartId: string,
    customerEmail: string,
    customerName: Option<string>,
    isLoggedIn: bool,
    abandonedAt: int,
    totalCents: nat,
    itemCount: nat,
    items: seq<CartItem>)

  /** `email || customer?.email`. */
  function CustomerEmail(c: Checkout): string {
    if c.email != "" then c.email
    else match c.customer
      case None => ""
      case Some(cu) => cu.email
  }

  /** `customer?.firstName ? (firstName + " " + (lastName || "")).trim() : null`. */
  function CustomerName(c: Checkout): (name: Option<string>)
    ensures name.Some? <==> c.customer.Some? && c.customer.value.firstName != ""
  {
    match c.customer
    case None => None
    case Some(cu) =>
      if cu.firstName == "" then None
      else
        Some(Trim(cu.firstName + " " + cu.lastName))
  }

  /** `!!customer?.id`. */
  predicate IsLoggedIn(c: Checkout) {
    c.customer.Some? && c.customer.value.id != ""
  }

  function SummarizeLine(l: CheckoutLine): CartItem {
    CartItem(l.productId, LineName(l), Units(l.quantity), l.totalCents, Units(l.quantity))
  }

  /** The `map` from one abandoned checkout to its summary. */
  function Summarize(c: Checkout): (s: CartSummary)
    ensures s.cartId == c.id && s.abandonedAt == c.abandonedAt && s.totalCents == c.totalCents
    ensures s.isLoggedIn <==> IsLoggedIn(c)
    ensures s.itemCount == |s.items| == |c.lines|
    ensures forall i :: 0 <= i < |c.lines| ==>
      && s.items[i].productId == c.lines[i].productId
      && s.items[i].quantity != 0
      && s.items[i].priceCents == c.lines[i].totalCents
  {
    CartSummary(c.id, CustomerEmail(c), CustomerName(c), IsLoggedIn(c), c.abandonedAt, c.totalCents,
      |c.lines|, seq(|c.lines|, i requires 0 <= i < |c.lines| => SummarizeLine(c.lines[i])))
  }

  /** `recent.slice(0, 10).map(...)`: the first ten recent checkouts, in
      query order, each summarised. */
  function RecentCarts(recent: seq<Checkout>): (r: seq<CartSummary>)
    ensures |r| == Min(10, |recent|)
    ensures forall i :: 0 <= i < |r| ==> r[i] == Summarize(recent[i])
  {
    seq(Min(10, |recent|), i requires 0 <= i < Min(10, |recent|) => Summarize(recent[i]))
  }

  function LoggedIn(): CartSummary -> bool {
    (s: CartSummary) => s.isLoggedIn
  }

  /** `recentAbandonedCarts.filter(c => c.isLoggedIn).length`. */
  function LoggedInCount(carts: seq<CartSummary>): nat {
    Count(carts, LoggedIn())
  }

  /** Every summary names a logged-in customer exactly when its checkout
      has a customer id, so the count is over the first ten checkouts. */
  lemma LoggedInCountOfRecent(recent: seq<Checkout>)
    ensures LoggedInCount(RecentCarts(recent)) <= Min(10, |recent|)
    ensures LoggedInCount(RecentCarts(recent)) > 0 <==>
      exists i :: 0 <= i < Min(10, |recent|) && IsLoggedIn(recent[i])
  {
    var r := RecentCarts(recent);
    CountPositive(r, LoggedIn());
    assert forall i :: 0 <= i < |r| ==> (LoggedIn()(r[i]) <==> IsLoggedIn(recent[i]));
  }

  // ---------------------------------------------------------------- the section

  /** `reduce` of the checkout totals, summed exactly in cents. */
  function SumCents(carts: seq<Checkout>): nat
    decreases |carts|
  {
    if carts == [] then 0 else SumCents(carts[..|carts| - 1]) + carts[|carts| - 1].totalCents
  }

  /** The checkout funnel; a rate is `None` while it still holds its
      initial text `"0%"`, and otherwise tenths of a percent. */
  datatype Funnel = Funnel(
    totalCheckoutStarts: nat,
    checkoutsCompleted: nat,
    checkoutsAbandoned: nat,
    completionRate: Option<nat>,
    abandonmentRate: Option<nat>,
    purchasesAfterCheckout: nat,
    conversionRate: Option<nat>)

  const DefaultFunnel := Funnel(0, 0, 0, None, None, 0, None)

  datatype CartAnalytics = CartAnalytics(
    totalCarts: nat,
    cartsWithCheckout: nat,
    cartsWithoutCheckout: nat,
    abandonedCarts: nat,
    recoveryRate: Option<nat>,
    abandonmentRate: Option<nat>,
    potentialRevenue: int,
    topAbandonedProducts: seq<ProductTally>,
    recentAbandonedCarts: seq<CartSummary>)

  const DefaultCartAnalytics := CartAnalytics(0, 0, 0, 0, None, None, 0, [], [])

  /** A checkout-abandonment issue; its insight text is built from
      `abandoned` and `lostRevenue`. */
  datatype CheckoutIssue = CheckoutIssue(starts: nat, completed: nat, abandonmentRate: nat, abandoned: nat, lostRevenue: int)

  /** What the abandoned-checkout step leaves in the scan result. */
  datatype CheckoutSection = CheckoutSection(
    totalAbandonedCheckouts: nat,
    funnel: Funnel,
    cart: CartAnalytics,
    issues: seq<CheckoutIssue>)

  const DefaultSection := CheckoutSection(0, DefaultFunnel, DefaultCartAnalytics, [])

  /** `parseFloat` of a rate text, in tenths of a percent. */
  function RateValue(rate: Option<nat>): nat {
    match rate
    case None => 0
    case Some(t) => t
  }

  /** The cart-analytics figures, filled in once there is at least one
      checkout start. */
  method CartFigures(recent: seq<Checkout>, completed: nat) returns (cart: CartAnalytics)
    requires completed + |recent| > 0
    ensures var starts := completed + |recent|;
      && cart.totalCarts == starts
      && cart.cartsWithCheckout == completed
      && cart.cartsWithoutCheckout == cart.abandonedCarts == |recent|
      && cart.recoveryRate == Some(PercentTenths(completed, starts))
      && cart.abandonmentRate == Some(PercentTenths(|recent|, starts))
      && cart.potentialRevenue == RoundToUnits(SumCents(recent))
      && cart.topAbandonedProducts == TopAbandonedProducts(Group(CartLines(recent)))
      && cart.recentAbandonedCarts == RecentCarts(recent)
  {
    var starts := completed + |recent|;
    var potential := SumCents(recent);
    var tallies := AggregateAbandonedProducts(recent);
    var carts := RecentCarts(recent);
    cart := CartAnalytics(starts, completed, |recent|, |recent|,
      Some(PercentTenths(completed, starts)), Some(PercentTenths(|recent|, starts)), RoundToUnits(potential),
      TopAbandonedProducts(tallies), carts);
  }

  /** The checkout section a query outcome leads to: the initial values
      when the query fails or there is no checkout start, otherwise the
      funnel, the cart analytics and, above 30% abandonment, one issue. */
  function CheckoutSectionOf(query: Query<seq<Checkout>>, completed: nat, now: int): CheckoutSection {
    match query
    case Threw => DefaultSection
    case Returned(checkouts) =>
      var recent := RecentAbandoned(checkouts, now);
      var starts := completed + |recent|;
      if starts == 0 then DefaultSection
      else
        var rate := PercentTenths(|recent|, starts);
        var potential := RoundToUnits(SumCents(recent));
        CheckoutSection(
          |recent|,
          Funnel(starts, completed, |recent|, Some(1000 - rate), Some(rate), completed, Some(1000 - rate)),
          CartAnalytics(starts, completed, |recent|, |recent|, Some(PercentTenths(completed, starts)), Some(rate),
            potential, TopAbandonedProducts(Group(CartLines(recent))), RecentCarts(recent)),
          if rate > 300 then [CheckoutIssue(starts, completed, rate, |recent|, potential)] else [])
  }

  /** What the section holds: the recent count, at most one issue, emitted
      exactly when there are starts and the rate rounds above 30%, at most
      five top products and ten recent carts, and the initial values when
      the query fails. */
  lemma CheckoutSectionFacts(query: Query<seq<Checkout>>, completed: nat, now: int)
    ensures var section := CheckoutSectionOf(query, completed, now);
      && |section.issues| <= 1
      && |section.cart.topAbandonedProducts| <= 5
      && |section.cart.recentAbandonedCarts| <= 10
      && (query.Threw? ==> section == DefaultSection)
      && (query.Returned? ==>
            var recent := RecentAbandoned(query.data, now);
            var starts := completed + |recent|;
            && section.totalAbandonedCheckouts == |recent| == Count(query.data, RecentIn(now))
            && (section.issues != [] <==> starts > 0 && 2000 * |recent| >= 601 * starts))
  {
    if query.Returned? {
      var recent := RecentAbandoned(query.data, now);
      var starts := completed + |recent|;
      if starts > 0 {
        PercentAbove(|recent|, starts, 30);
      }
    }
  }

  /** The section field by field: the funnel, with the completion and
      conversion rates 100% minus the abandonment rate, and every cart
      figure once there is a checkout start. */
  lemma CheckoutSectionFields(query: Query<seq<Checkout>>, completed: nat, now: int)
    ensures var section := CheckoutSectionOf(query, completed, now);
      && (query.Threw? ==> section == DefaultSection)
      && (query.Returned? ==>
        var recent := RecentAbandoned(query.data, now);
        var starts := completed + |recent|;
        && section.totalAbandonedCheckouts == Count(query.data, RecentIn(now))
        && (starts == 0 ==> section.funnel == DefaultFunnel && section.cart == DefaultCartAnalytics && section.issues == [])
        && (starts > 0 ==>
          var rate := PercentTenths(|recent|, starts);
          && section.funnel == Funnel(starts, completed, |recent|, Some(1000 - rate), Some(rate), completed, Some(1000 - rate))
          && section.cart.totalCarts == starts
          && section.cart.cartsWithCheckout == completed
          && section.cart.cartsWithoutCheckout == section.cart.abandonedCarts == |recent|
          && section.cart.recoveryRate == Some(PercentTenths(completed, starts))
          && section.cart.abandonmentRate == Some(rate)
          && section.cart.potentialRevenue == RoundToUnits(SumCents(recent))
          && section.cart.topAbandonedProducts == TopAbandonedProducts(Group(CartLines(recent)))
          && section.cart.recentAbandonedCarts == RecentCarts(recent)
          && (section.issues != [] <==> 2000 * |recent| >= 601 * starts)
          && (section.issues != [] ==>
                section.issues == [CheckoutIssue(starts, completed, rate, |recent|, RoundToUnits(SumCents(recent)))])))
  {
    CheckoutSectionFacts(query, completed, now);
  }

  /** The abandoned-checkout step. `completed` is the number of orders
      fetched; a failing query leaves every field at its initial value. */
  method AnalyzeCheckouts(query: Query<seq<Checkout>>, completed: nat, now: int) returns (section: CheckoutSection)
    ensures section == CheckoutSectionOf(query, completed, now)
    ensures query.Threw? ==> section == DefaultSection
    ensures query.Returned? ==>
      var recent := RecentAbandoned(query.data, now);
      var starts := completed + |recent|;
      && section.totalAbandonedCheckouts == Count(query.data, RecentIn(now))
      && (starts == 0 ==> section.funnel == DefaultFunnel && section.cart == DefaultCartAnalytics && section.issues == [])
      && (starts > 0 ==>
        var rate := PercentTenths(|recent|, starts);
        && section.funnel == Funnel(starts, completed, |recent|, Some(1000 - rate), Some(rate), completed, Some(1000 - rate))
        && section.cart.totalCarts == starts
        && section.cart.cartsWithCheckout == completed
        && section.cart.cartsWithoutCheckout == section.cart.abandonedCarts == |recent|
        && section.cart.recoveryRate == Some(PercentTenths(completed, starts))
        && section.cart.abandonmentRate == Some(rate)
        && section.cart.potentialRevenue == RoundToUnits(SumCents(recent))
        && section.cart.topAbandonedProducts == TopAbandonedProducts(Group(CartLines(recent)))
        && section.cart.recentAbandonedCarts == RecentCarts(recent)
        && (section.issues != [] <==> 2000 * |recent| >= 601 * starts)
        && (section.issues != [] ==>
              section.issues == [CheckoutIssue(starts, completed, rate, |recent|, RoundToUnits(SumCents(recent)))]))
  {
    section := DefaultSection;
    if query.Returned? {
      var recent := RecentAbandoned(query.data, now);
      section := section.(totalAbandonedCheckouts := |recent|);
      var starts := completed + |recent|;
      if starts > 0 {
        var rate := PercentTenths(|recent|, starts);
        section := section.(funnel := Funnel(starts, completed, |recent|, Some(1000 - rate), Some(rate), completed, Some(1000 - rate)));
        var cart := CartFigures(recent, completed);
        section := section.(cart := cart);
        PercentAbove(|recent|, starts, 30);
        if rate > 300 {
          section := section.(issues := section.issues + [CheckoutIssue(starts, completed, rate, |recent|, cart.potentialRevenue)]);
        }
      }
    }
    CheckoutSectionFields(query, completed, now);
  }
}
