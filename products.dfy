/** Product classification, the purchase tally built from order lines,
    and the "added but hasn't sold yet" traffic-conversion issues. */
module Products {
  import opened Store
  import opened Seqs
  import opened Text

  // ---------------------------------------------------------------- classification

  /** No featured image URL and no entry in the image collection. */
  predicate LacksImage(p: Product) {
    p.featuredImageUrl == "" && p.imageCount == 0
  }

  predicate HasImage(p: Product) {
    !LacksImage(p)
  }

  /** The description is absent, or shorter than 20 UTF-16 code units
      once surrounding whitespace is trimmed. */
  predicate LacksDescription(p: Product) {
    p.description == "" || Utf16Length(Trim(p.description)) < 20
  }

  predicate HasDescription(p: Product) {
    !LacksDescription(p)
  }

  datatype ProductCounts = ProductCounts(
    total: nat,
    withImages: nat,
    withoutImages: nat,
    withDescription: nat,
    withoutDescription: nat)

  /** The five product counters of the scan: the "without" counts are the
      lengths of the filtered lists, the "with" counts are what is left. */
  function Classify(products: seq<Product>): (c: ProductCounts)
    ensures c.total == |products|
    ensures c.withImages + c.withoutImages == c.total
    ensures c.withDescription + c.withoutDescription == c.total
    ensures c.withoutImages == Count(products, LacksImage)
    ensures c.withImages == Count(products, HasImage)
    ensures c.withoutDescription == Count(products, LacksDescription)
    ensures c.withDescription == Count(products, HasDescription)
  {
    var withoutImages := Filter(products, LacksImage);
    var withoutDescription := Filter(products, LacksDescription);
    FilterLength(products, LacksImage);
    FilterLength(products, LacksDescription);
    CountComplement(products, LacksImage, HasImage);
    CountComplement(products, LacksDescription, HasDescription);
    ProductCounts(
      |products|,
      |products| - |withoutImages|,
      |withoutImages|,
      |products| - |withoutDescription|,
      |withoutDescription|)
  }

  lemma {:induction false} TrimStartSkipsWhitespace(pad: string, s: string)
    requires forall i :: 0 <= i < |pad| ==> IsJsWhitespace(pad[i])
    ensures TrimStart(pad + s) == TrimStart(s)
    decreases |pad|
  {
    if pad != [] {
      var t := pad + s;
      assert t[0] == pad[0] && IsJsWhitespace(t[0]);
      assert t[1..] == pad[1..] + s;
      assert TrimStart(t) == TrimStart(t[1..]);
      TrimStartSkipsWhitespace(pad[1..], s);
    } else {
      assert pad + s == s;
    }
  }

  lemma {:induction false} TrimEndSkipsWhitespace(s: string, pad: string)
    requires forall i :: 0 <= i < |pad| ==> IsJsWhitespace(pad[i])
    ensures TrimEnd(s + pad) == TrimEnd(s)
    decreases |pad|
  {
    if pad != [] {
      var p := pad[..|pad| - 1];
      var t := s + pad;
      assert t[|t| - 1] == pad[|pad| - 1] && IsJsWhitespace(t[|t| - 1]);
      assert t[..|t| - 1] == s + p;
      assert TrimEnd(t) == TrimEnd(t[..|t| - 1]);
      TrimEndSkipsWhitespace(s, p);
    } else {
      assert s + pad == s;
    }
  }

  lemma {:induction false} TrimStartKeepsTail(s: string, pad: string)
    requires TrimStart(s) != []
    ensures TrimStart(s + pad) == TrimStart(s) + pad
    decreases |s|
  {
    var t := s + pad;
    assert t[0] == s[0];
    if IsJsWhitespace(s[0]) {
      assert t[1..] == s[1..] + pad;
      assert TrimStart(t) == TrimStart(t[1..]);
      assert TrimStart(s) == TrimStart(s[1..]);
      TrimStartKeepsTail(s[1..], pad);
    } else {
      assert TrimStart(t) == t;
      assert TrimStart(s) == s;
    }
  }

  /** Whitespace around a description never changes its classification:
      the adequacy test looks only at the trimmed text. */
  lemma PaddingDoesNotChangeDescription(p: Product, pad: string)
    requires forall i :: 0 <= i < |pad| ==> IsJsWhitespace(pad[i])
    ensures LacksDescription(p.(description := pad + p.description + pad)) == LacksDescription(p)
  {
    var d := p.description;
    var padded := pad + d + pad;
    assert padded == pad + (d + pad);
    TrimStartSkipsWhitespace(pad, d + pad);
    assert TrimStart(padded) == TrimStart(d + pad);
    if TrimStart(d) == [] {
      TrimStartSkipsWhitespaceSuffix(d, pad);
      assert Trim(padded) == [] && Trim(d) == [];
    } else {
      TrimStartKeepsTail(d, pad);
      TrimEndSkipsWhitespace(TrimStart(d), pad);
      assert Trim(padded) == Trim(d);
      assert d != [] && padded != [];
    }
  }

  lemma {:induction false} TrimStartSkipsWhitespaceSuffix(s: string, pad: string)
    requires TrimStart(s) == []
    requires forall i :: 0 <= i < |pad| ==> IsJsWhitespace(pad[i])
    ensures TrimStart(s + pad) == []
    decreases |s|
  {
    if s == [] {
      assert s + pad == pad;
      TrimStartSkipsWhitespace(pad, []);
      assert pad + [] == pad;
    } else {
      var t := s + pad;
      assert t[0] == s[0];
      assert IsJsWhitespace(s[0]);
      assert t[1..] == s[1..] + pad;
      assert TrimStart(t) == TrimStart(t[1..]);
      TrimStartSkipsWhitespaceSuffix(s[1..], pad);
    }
  }

  // ---------------------------------------------------------------- purchases

  /** All order lines, order by order, line by line. */
  function Flatten(orders: seq<Order>): (lines: seq<OrderLine>)
    decreases |orders|
  {
    if orders == [] then [] else Flatten(orders[..|orders| - 1]) + orders[|orders| - 1].lines
  }

  /** `(productPurchases[id] || 0) + quantity || 1`: the `||` binds
      looser than `+`, so a sum of zero is stored as 1. */
  function Bump(previous: int, quantity: int): (n: int)
    ensures n != 0
    ensures previous + quantity != 0 ==> n == previous + quantity
  {
    if previous + quantity == 0 then 1 else previous + quantity
  }

  /** One step of the `forEach` over order lines: lines without a product
      are skipped. */
  function AddPurchase(purchases: map<string, int>, line: OrderLine): map<string, int> {
    if line.productId == "" then purchases
    else
      var previous := if line.productId in purchases then purchases[line.productId] else 0;
      purchases[line.productId := Bump(previous, line.quantity)]
  }

  /** The purchase map after processing `lines` from first to last. */
  function Tally(lines: seq<OrderLine>): map<string, int>
    decreases |lines|
  {
    if lines == [] then map[] else AddPurchase(Tally(lines[..|lines| - 1]), lines[|lines| - 1])
  }

  /** The product ids that some order line names. */
  function PurchasedIds(lines: seq<OrderLine>): set<string> {
    set i | 0 <= i < |lines| && lines[i].productId != "" :: lines[i].productId
  }

  /** The keys of the tally are exactly the products some line names, and
      no stored count is zero (so JavaScript's `!count` is `id !in map`). */
  lemma {:induction false} TallyKeys(lines: seq<OrderLine>)
    ensures Tally(lines).Keys == PurchasedIds(lines)
    ensures forall id :: id in Tally(lines) ==> Tally(lines)[id] != 0
    decreases |lines|
  {
    if lines != [] {
      var init := lines[..|lines| - 1];
      var last := lines[|lines| - 1];
      TallyKeys(init);
      assert forall i :: 0 <= i < |init| ==> init[i] == lines[i];
      if last.productId == "" {
        assert PurchasedIds(lines) == PurchasedIds(init);
      } else {
        assert PurchasedIds(lines) == PurchasedIds(init) + {last.productId};
      }
    }
  }

  lemma TallySnoc(done: seq<OrderLine>, line: OrderLine)
    ensures Tally(done + [line]) == AddPurchase(Tally(done), line)
  {
    assert (done + [line])[..|done|] == done;
  }

  lemma FlattenSnoc(orders: seq<Order>, i: nat)
    requires i < |orders|
    ensures Flatten(orders[..i + 1]) == Flatten(orders[..i]) + orders[i].lines
  {
    assert orders[..i + 1][..i] == orders[..i];
  }

  /** The inner `forEach`, over the lines of one order. */
  method TallyOrderLines(purchases: map<string, int>, ghost done: seq<OrderLine>, lines: seq<OrderLine>)
    returns (next: map<string, int>)
    requires purchases == Tally(done)
    ensures next == Tally(done + lines)
  {
    next := purchases;
    assert done + lines[..0] == done;
    for j := 0 to |lines|
      invariant next == Tally(done + lines[..j])
    {
      ghost var sofar := done + lines[..j];
      assert done + lines[..j + 1] == sofar + [lines[j]];
      TallySnoc(sofar, lines[j]);
      var productId := lines[j].productId;
      if productId != "" {
        var previous := if productId in next then next[productId] else 0;
        var total := previous + lines[j].quantity;
        next := next[productId := if total == 0 then 1 else total];
      }
    }
    assert lines[..|lines|] == lines;
  }

  /** The two nested `forEach` loops over orders and their lines. */
  method TallyPurchases(orders: seq<Order>) returns (purchases: map<string, int>)
    ensures purchases == Tally(Flatten(orders))
    ensures purchases.Keys == PurchasedIds(Flatten(orders))
    ensures forall id :: id in purchases ==> purchases[id] != 0
  {
    purchases := map[];
    for i := 0 to |orders|
      invariant purchases == Tally(Flatten(orders[..i]))
    {
      purchases := TallyOrderLines(purchases, Flatten(orders[..i]), orders[i].lines);
      FlattenSnoc(orders, i);
    }
    assert orders[..|orders|] == orders;
    TallyKeys(Flatten(orders));
  }

  // ---------------------------------------------------------------- no-sale issues

  /** `!productPurchases[p.id]`: no entry, or an entry holding zero. */
  predicate NotPurchased(purchases: map<string, int>, p: Product) {
    !(p.id in purchases && purchases[p.id] != 0)
  }

  function UnsoldIn(purchases: map<string, int>): Product -> bool {
    p => NotPurchased(purchases, p)
  }

  /** For the tally of the scan, "not purchased" means exactly that no
      order line names the product, whatever the line quantities were. */
  lemma NotPurchasedMeansNoLine(lines: seq<OrderLine>, p: Product)
    ensures NotPurchased(Tally(lines), p) <==> p.id !in PurchasedIds(lines)
  {
    TallyKeys(lines);
  }

  const NoSaleInsight: string := "This product has been added to your store but hasn't sold yet"

  datatype TrafficIssue = TrafficIssue(product: string, productId: string, productUrl: string, insight: string)

  /** The host of the fallback storefront URL: the shop's own domain,
      or the text a template literal makes of a missing shop. */
  function StoreHost(shop: Option<Shop>): string {
    if shop.Some? then shop.value.myshopifyDomain else "undefined"
  }

  /** The storefront URL of a product: its own online-store URL when it has
      one, otherwise one built from the shop's domain and the handle. */
  function ProductUrl(p: Product, shop: Option<Shop>): (url: string)
    ensures p.onlineStoreUrl != "" ==> url == p.onlineStoreUrl
    ensures p.onlineStoreUrl == "" ==>
      && url == "https://" + StoreHost(shop) + "/products/" + p.handle
      && StartsWith(url, "https://" + StoreHost(shop) + "/products/")
      && EndsWith(url, p.handle)
  {
    if p.onlineStoreUrl != "" then p.onlineStoreUrl
    else
      var url := "https://" + StoreHost(shop) + "/products/" + p.handle;
      var prefix := "https://" + StoreHost(shop) + "/products/";
      assert url == prefix + p.handle;
      assert url[..|prefix|] == prefix;
      assert url[|url| - |p.handle|..] == p.handle;
      url
  }

  /** The storefront URL as the source computes it: the shop query selects
      only `name` and `plan`, so `shop?.myshopifyDomain` is undefined and the
      host is the text "undefined" whatever the shop is. */
  function ProductUrlAsWritten(p: Product, shop: Option<Shop>): string {
    if p.onlineStoreUrl != "" then p.onlineStoreUrl
    else "https://" + "undefined" + "/products/" + p.handle
  }

  /** The URL computed as written never depends on the shop. */
  lemma ProductUrlAsWrittenIgnoresShop(p: Product, a: Option<Shop>, b: Option<Shop>)
    ensures ProductUrlAsWritten(p, a) == ProductUrlAsWritten(p, b)
  {
  }

  lemma CancelRight(a: string, b: string, c: string)
    requires a + c == b + c
    ensures a == b
  {
    assert |a| == |b|;
    assert a == (a + c)[..|a|];
    assert b == (b + c)[..|b|];
  }

  lemma CancelLeft(c: string, a: string, b: string)
    requires c + a == c + b
    ensures a == b
  {
    assert a == (c + a)[|c|..];
    assert b == (c + b)[|c|..];
  }

  /** For a product without its own URL, the link computed as written is
      the intended one only when the shop's domain is literally
      "undefined": for every real shop the link is broken. */
  lemma ProductUrlAsWrittenWrongHost(p: Product, shop: Option<Shop>)
    requires p.onlineStoreUrl == ""
    ensures ProductUrlAsWritten(p, shop) == ProductUrl(p, shop) <==> StoreHost(shop) == "undefined"
  {
    var d, h := StoreHost(shop), p.handle;
    if ProductUrlAsWritten(p, shop) == ProductUrl(p, shop) {
      assert ("https://" + "undefined" + "/products/") + h == ("https://" + d + "/products/") + h;
      CancelRight("https://" + "undefined" + "/products/", "https://" + d + "/products/", h);
      CancelRight("https://" + "undefined", "https://" + d, "/products/");
      CancelLeft("https://", "undefined", d);
    }
  }

  /** A product without an online-store URL in the shop "acme.myshopify.com":
      as written its link differs from the storefront URL. */
  lemma ProductUrlAsWrittenBrokenLink()
    ensures
      var shop := Some(Shop("Acme", "Basic", "acme.myshopify.com"));
      var mug := Product("gid://shopify/Product/1", "Mug", "mug", "", "", 0, "");
      ProductUrlAsWritten(mug, shop) != ProductUrl(mug, shop)
  {
    var shop := Some(Shop("Acme", "Basic", "acme.myshopify.com"));
    var mug := Product("gid://shopify/Product/1", "Mug", "mug", "", "", 0, "");
    ProductUrlAsWrittenWrongHost(mug, shop);
    assert |StoreHost(shop)| != |"undefined"|;
  }

  function IssueFor(p: Product, shop: Option<Shop>): TrafficIssue {
    TrafficIssue(p.title, p.id, ProductUrl(p, shop), NoSaleInsight)
  }

  /** The traffic issue as the source builds it, with the link as written. */
  function IssueAsWritten(p: Product, shop: Option<Shop>): TrafficIssue {
    TrafficIssue(p.title, p.id, ProductUrlAsWritten(p, shop), NoSaleInsight)
  }

  /** The issue of the model and the issue as written name the same
      product with the same insight; their links agree whenever the product
      has its own URL, and for a product without one exactly when the
      shop's domain is the text "undefined". */
  lemma IssueAsWrittenDiffersInLink(p: Product, shop: Option<Shop>)
    ensures IssueFor(p, shop) == IssueAsWritten(p, shop).(productUrl := ProductUrl(p, shop))
    ensures IssueFor(p, shop) == IssueAsWritten(p, shop) <==>
      p.onlineStoreUrl != "" || StoreHost(shop) == "undefined"
  {
    if p.onlineStoreUrl == "" {
      ProductUrlAsWrittenWrongHost(p, shop);
    }
  }

  function UnsoldProducts(products: seq<Product>, purchases: map<string, int>): seq<Product> {
    Filter(products, UnsoldIn(purchases))
  }

  /** `products.filter(p => !productPurchases[p.id]).slice(0, 3)`, each
      turned into a traffic-conversion issue. */
  function NoSaleIssues(products: seq<Product>, purchases: map<string, int>, shop: Option<Shop>): seq<TrafficIssue> {
    var unsold := UnsoldProducts(products, purchases);
    seq(Min(3, |unsold|), i requires 0 <= i < Min(3, |unsold|) => IssueFor(unsold[i], shop))
  }

  lemma NoSaleIssuesInOrder(products: seq<Product>, purchases: map<string, int>, shop: Option<Shop>)
    ensures var r, unsold := NoSaleIssues(products, purchases, shop), UnsoldProducts(products, purchases);
      && |r| == Min(3, Count(products, UnsoldIn(purchases)))
      && |r| <= |unsold|
      && IsSubsequence(unsold[..|r|], products)
  {
    var unsold := UnsoldProducts(products, purchases);
    FilterLength(products, UnsoldIn(purchases));
    FilterIsSubsequence(products, UnsoldIn(purchases));
    PrefixIsSubsequence(unsold, products, Min(3, |unsold|));
  }

  lemma NoSaleIssuesUnsold(products: seq<Product>, purchases: map<string, int>, shop: Option<Shop>)
    ensures var r, unsold := NoSaleIssues(products, purchases, shop), UnsoldProducts(products, purchases);
      |r| <= |unsold| && forall i :: 0 <= i < |r| ==> r[i] == IssueFor(unsold[i], shop) && NotPurchased(purchases, unsold[i])
  {
    var unsold := UnsoldProducts(products, purchases);
    FilterMembers(products, UnsoldIn(purchases));
    assert forall i :: 0 <= i < |unsold| ==> UnsoldIn(purchases)(unsold[i]);
  }

  lemma NoSaleIssuesComplete(products: seq<Product>, purchases: map<string, int>, shop: Option<Shop>)
    ensures var r, unsold := NoSaleIssues(products, purchases, shop), UnsoldProducts(products, purchases);
      |r| < 3 ==> |r| == |unsold| && forall i :: 0 <= i < |products| && NotPurchased(purchases, products[i]) ==>
        exists j :: 0 <= j < |r| && unsold[j] == products[i]
  {
    var unsold := UnsoldProducts(products, purchases);
    FilterMembers(products, UnsoldIn(purchases));
    forall i | 0 <= i < |products| && NotPurchased(purchases, products[i])
      ensures products[i] in unsold
    {
      assert UnsoldIn(purchases)(products[i]);
    }
  }
}
