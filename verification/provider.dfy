/**
 * The payloads returned by the portfolio-data provider (`getWallet` and
 * `getWalletPnL` of the data API client). Numbers, prices, percentages, dates
 * and the risk list are opaque values: the core only copies them.
 */
module Provider {
  import opened Wrappers

  /** An opaque JSON value from the provider (amount, price, percentage, date, flag, list). */
  type Value(==)

  /** JavaScript truthiness of an optional string: present and not empty. */
  predicate Truthy(s: Option<string>) {
    s.Some? && s.value != ""
  }

  /** `s || null`: a falsy string is stored as null. */
  function OrNull(s: Option<string>): (r: Option<string>)
    ensures r.Some? <==> Truthy(s)
    ensures r.Some? ==> r == s
  {
    if Truthy(s) then s else None
  }

  /** `s || fallback`. */
  function OrElse(s: Option<string>, fallback: string): (r: string)
    ensures Truthy(s) ==> r == s.value
    ensures !Truthy(s) ==> r == fallback
  {
    if Truthy(s) then s.value else fallback
  }

  datatype TokenDesc = TokenDesc(
    mint: Option<string>,
    name: Option<string>,
    symbol: Option<string>,
    uri: Option<string>,
    decimals: Value,
    image: Option<string>)

  /** A `{ quote, usd }` pair. */
  datatype QuoteUsd = QuoteUsd(quote: Value, usd: Value)

  datatype Security = Security(freezeAuthority: Option<string>, mintAuthority: Option<string>)

  datatype PoolDesc = PoolDesc(
    poolId: Option<string>,
    tokenAddress: Option<string>,
    market: Value,
    liquidity: Option<QuoteUsd>,
    price: Option<QuoteUsd>,
    tokenSupply: Value,
    lpBurn: Value,
    marketCap: Option<QuoteUsd>,
    quoteToken: Value,
    decimals: Value,
    deployer: Option<string>,
    security: Option<Security>,
    lastUpdated: Value,
    createdAt: Option<Value>)

  /** The value of one `events` entry; `None` is a null entry. */
  datatype PriceChange = PriceChange(priceChangePercentage: Value)

  datatype RiskDesc = RiskDesc(rugged: Value, risks: Value, score: Value, jupiterVerified: Value)

  /** One element of `data.tokens` as returned by `getWallet`. */
  datatype Holding = Holding(
    token: Option<TokenDesc>,
    balance: Value,
    value: Value,
    holders: Value,
    buys: Value,
    sells: Value,
    txns: Value,
    pools: Option<seq<PoolDesc>>,
    events: Option<seq<(string, Option<PriceChange>)>>,
    risk: Option<RiskDesc>)

  /** The holding names a token with a truthy mint; otherwise the scan skips it. */
  predicate HasMint(h: Holding) {
    h.token.Some? && Truthy(h.token.value.mint)
  }

  function MintOf(h: Holding): string
    requires HasMint(h)
  {
    h.token.value.mint.value
  }

  /** `tokenObj.pools || []` */
  function PoolsOf(h: Holding): seq<PoolDesc> {
    if h.pools.Some? then h.pools.value else []
  }

  /** `Object.entries(tokenObj.events || {})` */
  function EventsOf(h: Holding): seq<(string, Option<PriceChange>)> {
    if h.events.Some? then h.events.value else []
  }

  /** A pool with a truthy `poolId` and `tokenAddress`; any other pool is skipped. */
  predicate Usable(p: PoolDesc) {
    Truthy(p.poolId) && Truthy(p.tokenAddress)
  }

  /** The nested objects that the pool upsert dereferences are all present. */
  predicate Complete(p: PoolDesc) {
    p.liquidity.Some? && p.price.Some? && p.marketCap.Some?
  }

  datatype PnlSummary = PnlSummary(
    realized: Value,
    unrealized: Value,
    total: Value,
    totalInvested: Value,
    averageBuyAmount: Value,
    totalWins: Value,
    totalLosses: Value,
    winPercentage: Value,
    lossPercentage: Value)

  /** Per-token figures of `getWalletPnL`, with the provider's snake_case names. */
  datatype PnlFigures = PnlFigures(
    holding: Value,
    held: Value,
    sold: Value,
    realized: Value,
    unrealized: Value,
    total: Value,
    total_sold: Value,
    total_invested: Value,
    average_buy_amount: Value,
    current_value: Value,
    cost_basis: Value)

  /** The `getWalletPnL` payload; `tokens` is the object's entry list, mint to figures. */
  datatype PnlData = PnlData(summary: PnlSummary, tokens: seq<(string, PnlFigures)>)
}
