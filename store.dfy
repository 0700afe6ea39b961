/** The records the scan reads from the commerce platform's Admin API,
    reduced to the fields the scan uses. A string field holding `""`
    stands for a JSON null, a missing field or an empty string alike:
    JavaScript treats all three as false in the `||` and `!` tests the
    scan applies to them. Money is integer cents; timestamps are
    milliseconds since the epoch. */
module Store {

  datatype Option<+T> = None | Some(value: T)

  /** The outcome of one `admin.graphql` call: either it threw, or it
      returned (with the defaults of `?.` and `|| []` already applied). */
  datatype Query<+T> = Threw | Returned(data: T)

  /** The shop record; `myshopifyDomain` is what the storefront URL of a
      product is built from (see `Products.ProductUrl`). */
  datatype Shop = Shop(name: string, planDisplayName: string, myshopifyDomain: string)

  datatype Product = Product(
    id: string,
    title: string,
    handle: string,
    description: string,
    featuredImageUrl: string,
    imageCount: nat,          // entries of `images(first: 1)`
    onlineStoreUrl: string)

  datatype OrderLine = OrderLine(productId: string, quantity: int)

  datatype Order = Order(totalCents: nat, processedAt: int, lines: seq<OrderLine>)

  datatype Customer = Customer(id: string, email: string, firstName: string, lastName: string)

  datatype CheckoutLine = CheckoutLine(
    title: string,
    quantity: int,
    totalCents: nat,          // `originalTotalSet`
    productId: string,
    productTitle: string)

  datatype Checkout = Checkout(
    id: string,
    abandonedAt: int,
    email: string,
    customer: Option<Customer>,
    totalCents: nat,
    lines: seq<CheckoutLine>,
    completedAt: Option<int>)

  datatype Theme = Theme(name: string, role: string)

  datatype Page = Page(title: string)

  datatype ThemeFile = ThemeFile(filename: string, body: string)

  datatype Severity = High | Medium | Low

  /** One trust-gap or tracking-health record: what was looked for, how
      much it matters, whether it was found, and the advisory text. */
  datatype Signal = Signal(issue: string, severity: Severity, found: bool, details: string)

  /** `new Date()` minus 30 days, as the scan's cut-off for "recent". */
  const ThirtyDaysMs: int := 30 * 24 * 60 * 60 * 1000

  function WindowStart(now: int): int { now - ThirtyDaysMs }

  /** `Math.round` of an amount of cents to whole currency units
      (half-way rounds up, as `Math.round` does for non-negative values). */
  function RoundToUnits(cents: nat): (units: nat)
    ensures 100 * units - 50 <= cents < 100 * units + 50
  {
    (cents + 50) / 100
  }
}
