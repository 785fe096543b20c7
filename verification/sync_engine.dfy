/**
 * `scanAccounts`: the holding loop run against the database, step by step.
 * The loop body and its two inner loops are separate methods here, each
 * proved against the function that specifies it.
 */
module SyncEngine {
  import opened Wrappers
  import opened Provider
  import opened Ledger
  import opened SyncSpec
  import opened SyncLemmas

  /** The pool loop of one holding: skips unusable pools and upserts the others by poolId. */
  method UpsertPools(db: Database, pools: seq<PoolDesc>) returns (err: Option<ScanError>)
    modifies db`pools
    ensures Progress(db.SyncState(), err) == ApplyPools(old(db.SyncState()), pools)
  {
    ghost var t1 := db.SyncState();
    for j := 0 to |pools|
      invariant ApplyPools(t1, pools[..j]) == Progress(db.SyncState(), None)
    {
      var p := pools[j];
      ghost var before := db.SyncState();
      assert pools[..j + 1][..j] == pools[..j];
      assert ApplyPools(t1, pools[..j + 1]) == PoolStep(before, p);
      if !Usable(p) {
        continue;
      }
      if !Complete(p) {
        ApplyPoolsStops(t1, pools, j + 1);
        return Some(MissingField(MissingPoolField(p)));
      }
      var ok := db.UpsertPool(PoolIdOf(p), PoolRow(IdentOf(p), LiveOf(p)), LiveOf(p));
      if !ok {
        ApplyPoolsStops(t1, pools, j + 1);
        return Some(TokenNotFound(IdentOf(p).tokenMint));
      }
      assert db.pools == WithPool(before.pools, p);
      assert db.SyncState() == before.(pools := WithPool(before.pools, p));
    }
    assert pools[..|pools|] == pools;
    return None;
  }

  /** The event loop of one holding: one PriceEvent upsert per interval label. */
  method UpsertEvents(db: Database, balanceId: nat, events: seq<(string, Option<PriceChange>)>)
      returns (err: Option<ScanError>)
    modifies db`priceEvents
    ensures Progress(db.SyncState(), err) == ApplyEvents(old(db.SyncState()), balanceId, events)
  {
    ghost var t3 := db.SyncState();
    for j := 0 to |events|
      invariant ApplyEvents(t3, balanceId, events[..j]) == Progress(db.SyncState(), None)
    {
      var e := events[j];
      assert events[..j + 1][..j] == events[..j];
      if e.1.None? {
        ApplyEventsStops(t3, balanceId, events, j + 1);
        return Some(MissingField("priceChangePercentage"));
      }
      db.UpsertPriceEvent(EventKey(balanceId, e.0), e.1.value.priceChangePercentage);
    }
    assert events[..|events|] == events;
    return None;
  }

  /** One pass of the holding loop: Token, pools, Balance, price events, RiskProfile. */
  method SyncHolding(db: Database, walletId: nat, h: Holding) returns (err: Option<ScanError>)
    modifies db`tokens, db`pools, db`balances, db`nextBalanceId, db`priceEvents, db`riskProfiles
    ensures Progress(db.SyncState(), err) == ApplyHolding(old(db.SyncState()), walletId, h)
  {
    if !HasMint(h) {
      return None;
    }
    var mint := MintOf(h);
    db.UpsertToken(mint, TokenRowOf(h.token.value));
    err := UpsertPools(db, PoolsOf(h));
    if err.Some? {
      return;
    }
    var key := BalanceKey(walletId, mint);
    var balanceId := db.UpsertBalance(key, FiguresOf(h));
    err := UpsertEvents(db, balanceId, EventsOf(h));
    if err.Some? {
      return;
    }
    if h.risk.None? {
      return Some(MissingField("risk"));
    }
    db.UpsertRiskProfile(balanceId, RiskRowOf(h.risk.value));
  }

  /** The holding loop (the `for` over `data.tokens`), stopping at the first error. */
  method SyncHoldings(db: Database, walletId: nat, data: seq<Holding>) returns (err: Option<ScanError>)
    modifies db`tokens, db`pools, db`balances, db`nextBalanceId, db`priceEvents, db`riskProfiles
    ensures Progress(db.SyncState(), err) == ApplyHoldings(old(db.SyncState()), walletId, data)
  {
    ghost var t0 := db.SyncState();
    for i := 0 to |data|
      invariant ApplyHoldings(t0, walletId, data[..i]) == Progress(db.SyncState(), None)
    {
      assert data[..i + 1][..i] == data[..i];
      err := SyncHolding(db, walletId, data[i]);
      if err.Some? {
        ApplyHoldingsStops(t0, walletId, data, i + 1);
        return;
      }
    }
    assert data[..|data|] == data;
    return None;
  }

  /**
   * `scanAccounts`: reconciles the holdings the provider returned for
   * `publicKey` into the database and returns the summary list. A provider
   * error or an unknown wallet fails before any write; an error raised by a
   * holding leaves the writes of the holdings before it in place.
   */
  method ScanAccounts(db: Database, publicKey: string, fetched: Result<seq<Holding>, string>)
      returns (r: Result<seq<Summary>, ScanError>)
    requires db.Valid()
    modifies db`tokens, db`pools, db`balances, db`nextBalanceId, db`priceEvents, db`riskProfiles
    ensures db.Valid()
    ensures db.SyncState() == Scan(old(db.SyncState()), publicKey, fetched).t
    ensures r == Scan(old(db.SyncState()), publicKey, fetched).result
  {
    ScanKeepsIntegrity(db.SyncState(), publicKey, fetched);
    if fetched.Failure? {
      return Failure(ProviderFailed(fetched.error));
    }
    var found := db.FindWalletId(publicKey);
    if found.None? {
      return Failure(WalletNotFound(publicKey));
    }
    var err := SyncHoldings(db, found.value, fetched.value);
    r := if err.Some? then Failure(err.value) else Success(Summaries(fetched.value));
  }
}
