/** Properties of the wallet sync specification. */
module SyncLemmas {
  import opened Wrappers
  import opened Provider
  import opened Upsert
  import opened Ledger
  import opened SyncSpec

  // ---------------------------------------------------------------- an error stops each loop

  lemma {:induction false} ApplyHoldingsStops(t: SyncTables, walletId: nat, hs: seq<Holding>, n: nat)
    requires n <= |hs| && ApplyHoldings(t, walletId, hs[..n]).err.Some?
    ensures ApplyHoldings(t, walletId, hs) == ApplyHoldings(t, walletId, hs[..n])
    decreases |hs| - n
  {
    if n < |hs| {
      assert hs[..n + 1][..n] == hs[..n];
      ApplyHoldingsStops(t, walletId, hs, n + 1);
    } else {
      assert hs[..n] == hs;
    }
  }

  lemma {:induction false} ApplyPoolsStops(t: SyncTables, ps: seq<PoolDesc>, n: nat)
    requires n <= |ps| && ApplyPools(t, ps[..n]).err.Some?
    ensures ApplyPools(t, ps) == ApplyPools(t, ps[..n])
    decreases |ps| - n
  {
    if n < |ps| {
      assert ps[..n + 1][..n] == ps[..n];
      ApplyPoolsStops(t, ps, n + 1);
    } else {
      assert ps[..n] == ps;
    }
  }

  lemma {:induction false} ApplyEventsStops(t: SyncTables, balanceId: nat, evs: seq<(string, Option<PriceChange>)>, n: nat)
    requires n <= |evs| && ApplyEvents(t, balanceId, evs[..n]).err.Some?
    ensures ApplyEvents(t, balanceId, evs) == ApplyEvents(t, balanceId, evs[..n])
    decreases |evs| - n
  {
    if n < |evs| {
      assert evs[..n + 1][..n] == evs[..n];
      ApplyEventsStops(t, balanceId, evs, n + 1);
    } else {
      assert evs[..n] == evs;
    }
  }

  // ---------------------------------------------------------------- referential integrity

  lemma PoolStepKeepsIntegrity(t: SyncTables, p: PoolDesc)
    requires Integrity(t)
    ensures Integrity(PoolStep(t, p).t)
  {
  }

  lemma {:induction false} ApplyPoolsKeepsIntegrity(t: SyncTables, ps: seq<PoolDesc>)
    requires Integrity(t)
    ensures Integrity(ApplyPools(t, ps).t)
    decreases |ps|
  {
    if ps != [] {
      ApplyPoolsKeepsIntegrity(t, ps[..|ps| - 1]);
      PoolStepKeepsIntegrity(ApplyPools(t, ps[..|ps| - 1]).t, ps[|ps| - 1]);
    }
  }

  lemma BalanceIdsGrow(bt: BalanceTable, key: BalanceKey, f: Figures)
    ensures BalanceIds(bt) <= BalanceIds(WithBalance(bt, key, f))
    ensures WithBalance(bt, key, f).rows[key].id in BalanceIds(WithBalance(bt, key, f))
  {
    var r := WithBalance(bt, key, f);
    forall id | id in BalanceIds(bt)
      ensures id in BalanceIds(r)
    {
      var k :| k in bt.rows && bt.rows[k].id == id;
      assert r.rows[k].id == id;
    }
  }

  /** A Balance upsert for a stored token and a known wallet keeps the foreign keys and ids consistent. */
  lemma WithBalanceKeepsIntegrity(t: SyncTables, key: BalanceKey, f: Figures)
    requires Integrity(t) && key.tokenMint in t.tokens && key.walletId in t.wallets.Values
    ensures Integrity(t.(balances := WithBalance(t.balances, key, f)))
  {
    BalanceIdsGrow(t.balances, key, f);
  }

  lemma {:induction false} ApplyEventsKeepsIntegrity(t: SyncTables, balanceId: nat, evs: seq<(string, Option<PriceChange>)>)
    requires Integrity(t) && balanceId in BalanceIds(t.balances)
    ensures Integrity(ApplyEvents(t, balanceId, evs).t)
    decreases |evs|
  {
    if evs != [] {
      ApplyEventsKeepsIntegrity(t, balanceId, evs[..|evs| - 1]);
    }
  }

  lemma ApplyBalanceKeepsIntegrity(t: SyncTables, walletId: nat, mint: string, h: Holding)
    requires Integrity(t) && walletId in t.wallets.Values && mint in t.tokens
    ensures Integrity(ApplyBalance(t, walletId, mint, h).t)
  {
    var key := BalanceKey(walletId, mint);
    WithBalanceKeepsIntegrity(t, key, FiguresOf(h));
    var bt := WithBalance(t.balances, key, FiguresOf(h));
    BalanceIdsGrow(t.balances, key, FiguresOf(h));
    var id := bt.rows[key].id;
    ApplyEventsKeepsIntegrity(t.(balances := bt), id, EventsOf(h));
    var r4 := ApplyEvents(t.(balances := bt), id, EventsOf(h));
    if r4.err.None? && h.risk.Some? {
      RiskWriteKeepsIntegrity(r4.t, id, RiskRowOf(h.risk.value));
    }
  }

  lemma RiskWriteKeepsIntegrity(t: SyncTables, balanceId: nat, row: RiskRow)
    requires Integrity(t) && balanceId in BalanceIds(t.balances)
    ensures Integrity(t.(risks := t.risks[balanceId := row]))
  {
  }

  lemma ApplyHoldingKeepsIntegrity(t: SyncTables, walletId: nat, h: Holding)
    requires Integrity(t) && walletId in t.wallets.Values
    ensures Integrity(ApplyHolding(t, walletId, h).t)
  {
    if HasMint(h) {
      var m := MintOf(h);
      var t1 := t.(tokens := t.tokens[m := TokenRowOf(h.token.value)]);
      assert Integrity(t1);
      ApplyPoolsKeepsIntegrity(t1, PoolsOf(h));
      var r2 := ApplyPools(t1, PoolsOf(h));
      if r2.err.None? {
        ApplyBalanceKeepsIntegrity(r2.t, walletId, m, h);
      }
    }
  }

  lemma {:induction false} ApplyHoldingsKeepIntegrity(t: SyncTables, walletId: nat, hs: seq<Holding>)
    requires Integrity(t) && walletId in t.wallets.Values
    ensures Integrity(ApplyHoldings(t, walletId, hs).t)
    decreases |hs|
  {
    if hs != [] {
      ApplyHoldingsKeepIntegrity(t, walletId, hs[..|hs| - 1]);
      ApplyHoldingKeepsIntegrity(ApplyHoldings(t, walletId, hs[..|hs| - 1]).t, walletId, hs[|hs| - 1]);
    }
  }

  /**
   * Every scan, including one stopped by an error part-way, leaves the
   * foreign keys and generated ids consistent.
   */
  lemma ScanKeepsIntegrity(t: SyncTables, publicKey: string, fetched: Result<seq<Holding>, string>)
    requires Integrity(t)
    ensures Integrity(Scan(t, publicKey, fetched).t)
  {
    if fetched.Success? && publicKey in t.wallets {
      ApplyHoldingsKeepIntegrity(t, t.wallets[publicKey], fetched.value);
    }
  }
}
