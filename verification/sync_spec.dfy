/**
 * The wallet sync (`scanAccounts`) as functions on table values. Each
 * function follows one loop of the source: `ApplyHoldings` the loop over the
 * holdings, `ApplyPools` the loop over a holding's pools, `ApplyEvents` the
 * loop over its price events. A step either writes or raises an error; an
 * error stops the scan and leaves the writes made before it in place.
 */
module SyncSpec {
  import opened Wrappers
  import opened Provider
  import opened Upsert
  import opened Ledger

  datatype ScanError =
    | ProviderFailed(reason: string)
    | WalletNotFound(publicKey: string)
    | TokenNotFound(mint: string)     // a new pool connects to a Token that does not exist
    | MissingField(field: string)     // a null nested object was dereferenced

  /** The tables after some upserts, and the error that stopped them, if any. */
  datatype Progress = Progress(t: SyncTables, err: Option<ScanError>)

  /** The first nested object of a pool that the upsert data reads and finds missing. */
  function MissingPoolField(p: PoolDesc): string
    requires !Complete(p)
  {
    if p.liquidity.None? then "liquidity" else if p.price.None? then "price" else "marketCap"
  }

  /** One pass of the pool loop: skip, fail, update, or create connected to its Token. */
  function PoolStep(t: SyncTables, p: PoolDesc): (r: Progress)
    ensures r.t == t.(pools := r.t.pools)
    ensures r.err.None? ==> r.t.pools == WithPool(t.pools, p)
    ensures r.err.Some? ==> r.t == t
    ensures !Usable(p) ==> r == Progress(t, None)
    ensures r.err.Some? <==> Usable(p) && (!Complete(p) || (PoolIdOf(p) !in t.pools && IdentOf(p).tokenMint !in t.tokens))
    ensures Usable(p) && !Complete(p) ==> r.err == Some(MissingField(MissingPoolField(p)))
    ensures Writable(p) && r.err.Some? ==> r.err == Some(TokenNotFound(IdentOf(p).tokenMint))
    ensures Extends(t, r.t)
  {
    if !Usable(p) then Progress(t, None)
    else if !Complete(p) then Progress(t, Some(MissingField(MissingPoolField(p))))
    else if PoolIdOf(p) in t.pools || IdentOf(p).tokenMint in t.tokens then
      Progress(t.(pools := WithPool(t.pools, p)), None)
    else Progress(t, Some(TokenNotFound(IdentOf(p).tokenMint)))
  }

  /** The pool loop over `ps`; only the Pool table changes, and without error it changes as `FoldPools`. */
  function ApplyPools(t: SyncTables, ps: seq<PoolDesc>): (r: Progress)
    ensures r.t == t.(pools := r.t.pools)
    ensures r.err.None? ==> r.t.pools == FoldPools(t.pools, ps)
    ensures Extends(t, r.t)
    decreases |ps|
  {
    if ps == [] then Progress(t, None)
    else
      var r0 := ApplyPools(t, ps[..|ps| - 1]);
      if r0.err.Some? then r0
      else
        var r1 := PoolStep(r0.t, ps[|ps| - 1]);
        ExtendsTransitive(t, r0.t, r1.t);
        r1
  }

  /** The PriceEvent writes of one balance: one per non-null events entry, keyed by interval label. */
  function EventPairs(balanceId: nat, evs: seq<(string, Option<PriceChange>)>): (r: seq<(EventKey, Value)>)
    decreases |evs|
  {
    if evs == [] then []
    else
      var e := evs[|evs| - 1];
      EventPairs(balanceId, evs[..|evs| - 1]) +
      (if e.1.Some? then [(EventKey(balanceId, e.0), e.1.value.priceChangePercentage)] else [])
  }

  function EventStep(t: SyncTables, balanceId: nat, e: (string, Option<PriceChange>)): Progress {
    if e.1.None? then Progress(t, Some(MissingField("priceChangePercentage")))
    else Progress(t.(priceEvents := t.priceEvents[EventKey(balanceId, e.0) := e.1.value.priceChangePercentage]), None)
  }

  /** The event loop; only the PriceEvent table changes, and without error as an overwrite by `EventPairs`. */
  function ApplyEvents(t: SyncTables, balanceId: nat, evs: seq<(string, Option<PriceChange>)>): (r: Progress)
    ensures r.t == t.(priceEvents := r.t.priceEvents)
    ensures r.err.None? ==> r.t.priceEvents == SetAll(t.priceEvents, EventPairs(balanceId, evs))
    ensures Extends(t, r.t)
    decreases |evs|
  {
    if evs == [] then Progress(t, None)
    else
      var r0 := ApplyEvents(t, balanceId, evs[..|evs| - 1]);
      if r0.err.Some? then r0
      else
        var r1 := EventStep(r0.t, balanceId, evs[|evs| - 1]);
        ExtendsTransitive(t, r0.t, r1.t);
        r1
  }

  function FiguresOf(h: Holding): Figures {
    Figures(h.balance, h.value, h.holders, h.buys, h.sells, h.txns)
  }

  function RiskRowOf(r: RiskDesc): RiskRow {
    RiskRow(r.rugged, r.risks, r.score, r.jupiterVerified)
  }

  /**
   * The rest of a holding once its pools are stored: upsert the Balance of
   * the wallet with id `walletId` in `mint`, then its price events, then its
   * RiskProfile; Token and Pool rows stay as they are.
   */
  function ApplyBalance(t: SyncTables, walletId: nat, mint: string, h: Holding): (r: Progress)
    ensures r.t.wallets == t.wallets && r.t.tokens == t.tokens && r.t.pools == t.pools
    ensures BalanceKey(walletId, mint) in r.t.balances.rows
    ensures Extends(t, r.t)
  {
    var key := BalanceKey(walletId, mint);
    var bt := WithBalance(t.balances, key, FiguresOf(h));
    var r4 := ApplyEvents(t.(balances := bt), bt.rows[key].id, EventsOf(h));
    if r4.err.Some? then r4
    else if h.risk.None? then Progress(r4.t, Some(MissingField("risk")))
    else Progress(r4.t.(risks := r4.t.risks[bt.rows[key].id := RiskRowOf(h.risk.value)]), None)
  }

  /**
   * One pass of the holding loop for the wallet with id `walletId`: skip a
   * holding without a mint; otherwise upsert its Token, then its pools, its
   * Balance, its price events and its RiskProfile, in that order.
   */
  function ApplyHolding(t: SyncTables, walletId: nat, h: Holding): (r: Progress)
    ensures Extends(t, r.t)
  {
    if !HasMint(h) then Progress(t, None)
    else
      var m := MintOf(h);
      var t1 := t.(tokens := t.tokens[m := TokenRowOf(h.token.value)]);
      var r2 := ApplyPools(t1, PoolsOf(h));
      if r2.err.Some? then r2
      else ApplyBalance(r2.t, walletId, m, h)
  }

  /** The holding loop, stopping at the first error. */
  function ApplyHoldings(t: SyncTables, walletId: nat, hs: seq<Holding>): (r: Progress)
    ensures Extends(t, r.t)
    decreases |hs|
  {
    if hs == [] then Progress(t, None)
    else
      var r0 := ApplyHoldings(t, walletId, hs[..|hs| - 1]);
      if r0.err.Some? then r0
      else
        var r1 := ApplyHolding(r0.t, walletId, hs[|hs| - 1]);
        ExtendsTransitive(t, r0.t, r1.t);
        r1
  }

  /** One entry of the summary list `scanAccounts` returns. */
  datatype Summary = Summary(
    mint: string,
    symbol: string,
    name: string,
    balance: Value,
    value: Value,
    pools: Option<seq<PoolDesc>>,
    events: Option<seq<(string, Option<PriceChange>)>>,
    risk: Option<RiskDesc>,
    buys: Value,
    sells: Value,
    txns: Value,
    holders: Value)

  /** `item.token?.<field>` for a string field. */
  function Symbol(h: Holding): Option<string> {
    if h.token.Some? then h.token.value.symbol else None
  }

  function Name(h: Holding): Option<string> {
    if h.token.Some? then h.token.value.name else None
  }

  /** The summary entry of one holding, with the placeholders for a missing mint, symbol or name. */
  function SummaryOf(h: Holding): (s: Summary)
    ensures HasMint(h) ==> s.mint == MintOf(h)
    ensures !HasMint(h) ==> s.mint == "unknown"
    ensures Truthy(Symbol(h)) ==> s.symbol == Symbol(h).value
    ensures !Truthy(Symbol(h)) ==> s.symbol == "N/A"
    ensures Truthy(Name(h)) ==> s.name == Name(h).value
    ensures !Truthy(Name(h)) && Truthy(Symbol(h)) ==> s.name == Symbol(h).value
    ensures !Truthy(Name(h)) && !Truthy(Symbol(h)) ==> s.name == "Unknown"
    ensures s.balance == h.balance && s.value == h.value && s.pools == h.pools && s.events == h.events
    ensures s.risk == h.risk && s.buys == h.buys && s.sells == h.sells && s.txns == h.txns && s.holders == h.holders
  {
    Summary(
      if HasMint(h) then MintOf(h) else "unknown",
      OrElse(Symbol(h), "N/A"),
      OrElse(Name(h), OrElse(Symbol(h), "Unknown")),
      h.balance, h.value, h.pools, h.events, h.risk, h.buys, h.sells, h.txns, h.holders)
  }

  /** `data.tokens.map(...)`: one entry per holding, skipped ones included, in provider order. */
  function Summaries(hs: seq<Holding>): (r: seq<Summary>)
    ensures |r| == |hs|
    ensures forall i :: 0 <= i < |hs| ==> r[i] == SummaryOf(hs[i])
  {
    seq(|hs|, i requires 0 <= i < |hs| => SummaryOf(hs[i]))
  }

  /** The tables after a scan and what the scan returns or raises. */
  datatype ScanOutcome = ScanOutcome(t: SyncTables, result: Result<seq<Summary>, ScanError>)

  /**
   * `scanAccounts(publicKey)` given what the provider returned for that key:
   * a provider error or an unknown wallet fails before any write; otherwise
   * the holdings are applied, and the summary is returned when no holding
   * raised an error.
   */
  function Scan(t: SyncTables, publicKey: string, fetched: Result<seq<Holding>, string>): (o: ScanOutcome)
    ensures Extends(t, o.t)
    ensures fetched.Failure? ==> o == ScanOutcome(t, Failure(ProviderFailed(fetched.error)))
    ensures fetched.Success? && publicKey !in t.wallets ==> o == ScanOutcome(t, Failure(WalletNotFound(publicKey)))
    ensures o.result.Success? ==> o.result.value == Summaries(fetched.value)
    ensures fetched.Success? && publicKey in t.wallets ==>
              var r := ApplyHoldings(t, t.wallets[publicKey], fetched.value);
              && o.t == r.t
              && (o.result.Success? <==> r.err.None?)
              && (r.err.Some? ==> o.result == Failure(r.err.value))
  {
    if fetched.Failure? then ScanOutcome(t, Failure(ProviderFailed(fetched.error)))
    else if publicKey !in t.wallets then ScanOutcome(t, Failure(WalletNotFound(publicKey)))
    else
      var r := ApplyHoldings(t, t.wallets[publicKey], fetched.value);
      if r.err.Some? then ScanOutcome(r.t, Failure(r.err.value))
      else ScanOutcome(r.t, Success(Summaries(fetched.value)))
  }
}
