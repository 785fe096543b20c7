/**
 * The relational store behind the wallet sync and PnL snapshots: one table
 * per entity, keyed as the schema declares (Token by mint, Pool by poolId,
 * Balance by (walletId, tokenMint), PriceEvent by (balanceId, intervalLabel),
 * RiskProfile by balanceId), plus the append-only PnlScan history.
 *
 * The pure functions here give the effect of each upsert on a table value;
 * the class `Database` holds the tables as fields and offers the upserts as
 * methods proved against those functions.
 */
module Ledger {
  import opened Wrappers
  import opened Provider
  import opened Upsert

  /** A Token row; its key, the mint, is the map key. */
  datatype TokenRow = TokenRow(
    name: Option<string>,
    symbol: Option<string>,
    uri: Option<string>,
    decimals: Value,
    image: Option<string>)

  /** A `Date` built from a provider value. */
  datatype Date = Date(source: Value)

  /** The Pool columns written only when the row is created. */
  datatype PoolIdent = PoolIdent(
    tokenMint: string,
    market: Value,
    quoteToken: Value,
    decimals: Value,
    createdAt: Option<Date>)

  /** The Pool columns that every later upsert refreshes. */
  datatype PoolLive = PoolLive(
    liquidity: QuoteUsd,
    price: QuoteUsd,
    tokenSupply: Value,
    lpBurn: Value,
    marketCap: QuoteUsd,
    deployer: Option<string>,
    lastUpdated: Date,
    freezeAuthority: Option<string>,
    mintAuthority: Option<string>)

  /** A Pool row; its key, the poolId, is the map key. */
  datatype PoolRow = PoolRow(ident: PoolIdent, live: PoolLive)

  datatype Figures = Figures(amount: Value, value: Value, holders: Value, buys: Value, sells: Value, txns: Value)

  datatype BalanceKey = BalanceKey(walletId: nat, tokenMint: string)

  /** A Balance row: the id generated on creation and the figures every upsert overwrites. */
  datatype BalanceRow = BalanceRow(id: nat, figures: Figures)

  /** The Balance table with its id generator. */
  datatype BalanceTable = BalanceTable(rows: map<BalanceKey, BalanceRow>, nextId: nat)

  datatype EventKey = EventKey(balanceId: nat, intervalLabel: string)

  datatype RiskRow = RiskRow(rugged: Value, risksJson: Value, score: Value, jupiterVerified: Value)

  /** The tables a wallet sync reads (wallets) and writes (all others). */
  datatype SyncTables = SyncTables(
    wallets: map<string, nat>,
    tokens: map<string, TokenRow>,
    pools: map<string, PoolRow>,
    balances: BalanceTable,
    priceEvents: map<EventKey, Value>,
    risks: map<nat, RiskRow>)

  datatype PnlTokenRow = PnlTokenRow(
    tokenMint: string,
    holding: Value,
    held: Value,
    sold: Value,
    realized: Value,
    unrealized: Value,
    total: Value,
    totalSold: Value,
    totalInvested: Value,
    averageBuyAmount: Value,
    currentValue: Value,
    costBasis: Value)

  /** A PnlScan row with its PnlToken children, created together. */
  datatype PnlScan = PnlScan(id: nat, walletId: nat, summary: PnlSummary, tokens: seq<PnlTokenRow>)

  /** The PnlScan table with its id generator. */
  datatype PnlHistory = PnlHistory(scans: seq<PnlScan>, nextId: nat)

  // ---------------------------------------------------------------- Token

  /** The data of the Token upsert: create and update write the same columns; a falsy uri or image is stored as null. */
  function TokenRowOf(d: TokenDesc): TokenRow {
    TokenRow(d.name, d.symbol, OrNull(d.uri), d.decimals, OrNull(d.image))
  }

  // ---------------------------------------------------------------- Pool

  function PoolIdOf(p: PoolDesc): string
    requires Usable(p)
  {
    p.poolId.value
  }

  function IdentOf(p: PoolDesc): PoolIdent
    requires Usable(p)
  {
    PoolIdent(p.tokenAddress.value, p.market, p.quoteToken, p.decimals,
              if p.createdAt.Some? then Some(Date(p.createdAt.value)) else None)
  }

  function LiveOf(p: PoolDesc): PoolLive
    requires Complete(p)
  {
    PoolLive(p.liquidity.value, p.price.value, p.tokenSupply, p.lpBurn, p.marketCap.value,
             OrNull(p.deployer), Date(p.lastUpdated),
             if p.security.Some? then OrNull(p.security.value.freezeAuthority) else None,
             if p.security.Some? then OrNull(p.security.value.mintAuthority) else None)
  }

  /** A pool descriptor that the sync writes: usable, and with every nested object present. */
  predicate Writable(p: PoolDesc) {
    Usable(p) && Complete(p)
  }

  /**
   * The table effect of one Pool upsert: an existing row keeps its identity
   * columns and takes the new live columns; a new row takes both.
   */
  function WithPool(pools: map<string, PoolRow>, p: PoolDesc): (r: map<string, PoolRow>)
    ensures Writable(p) ==> r.Keys == pools.Keys + {PoolIdOf(p)}
    ensures !Writable(p) ==> r == pools
    ensures forall id :: id in pools ==> r[id].ident == pools[id].ident
    ensures Writable(p) ==> r[PoolIdOf(p)].live == LiveOf(p)
    ensures Writable(p) && PoolIdOf(p) !in pools ==> r[PoolIdOf(p)] == PoolRow(IdentOf(p), LiveOf(p))
    ensures Writable(p) ==> forall id :: id in pools && id != PoolIdOf(p) ==> r[id] == pools[id]
  {
    if !Writable(p) then pools
    else
      var id := PoolIdOf(p);
      if id in pools then pools[id := pools[id].(live := LiveOf(p))]
      else pools[id := PoolRow(IdentOf(p), LiveOf(p))]
  }

  /** The live columns of every pool, written in order. */
  function LiveWrites(ps: seq<PoolDesc>): (r: seq<(string, PoolLive)>)
    decreases |ps|
  {
    if ps == [] then []
    else
      var p := ps[|ps| - 1];
      LiveWrites(ps[..|ps| - 1]) + (if Writable(p) then [(PoolIdOf(p), LiveOf(p))] else [])
  }

  /** The table effect of a sequence of Pool upserts. */
  function FoldPools(pools: map<string, PoolRow>, ps: seq<PoolDesc>): (r: map<string, PoolRow>)
    ensures r.Keys == pools.Keys + Keys(LiveWrites(ps))
    ensures forall id :: id in pools ==> r[id].ident == pools[id].ident
    decreases |ps|
  {
    if ps == [] then pools
    else
      var p := ps[|ps| - 1];
      KeysConcat(LiveWrites(ps[..|ps| - 1]), if Writable(p) then [(PoolIdOf(p), LiveOf(p))] else []);
      WithPool(FoldPools(pools, ps[..|ps| - 1]), p)
  }

  function LiveView(pools: map<string, PoolRow>): map<string, PoolLive> {
    map id | id in pools :: pools[id].live
  }

  function IdentView(pools: map<string, PoolRow>): map<string, PoolIdent> {
    map id | id in pools :: pools[id].ident
  }

  lemma LiveViewWithPool(pools: map<string, PoolRow>, p: PoolDesc)
    ensures LiveView(WithPool(pools, p)) == if Writable(p) then LiveView(pools)[PoolIdOf(p) := LiveOf(p)] else LiveView(pools)
  {
    if Writable(p) {
      var r := WithPool(pools, p);
      var expected := LiveView(pools)[PoolIdOf(p) := LiveOf(p)];
      assert LiveView(r).Keys == expected.Keys;
      forall id | id in expected
        ensures LiveView(r)[id] == expected[id]
      {
      }
    }
  }

  /** The live columns of the Pool table are exactly an overwrite by the pools' live columns. */
  lemma {:induction false} FoldPoolsLive(pools: map<string, PoolRow>, ps: seq<PoolDesc>)
    ensures LiveView(FoldPools(pools, ps)) == SetAll(LiveView(pools), LiveWrites(ps))
    decreases |ps|
  {
    if ps != [] {
      var init, p := ps[..|ps| - 1], ps[|ps| - 1];
      FoldPoolsLive(pools, init);
      LiveViewWithPool(FoldPools(pools, init), p);
      var ws := LiveWrites(ps);
      if Writable(p) {
        assert ws == LiveWrites(init) + [(PoolIdOf(p), LiveOf(p))];
        assert ws[..|ws| - 1] == LiveWrites(init);
      } else {
        assert ws == LiveWrites(init);
      }
    }
  }

  lemma {:induction false} LiveWritesSplit(a: seq<PoolDesc>, b: seq<PoolDesc>)
    ensures LiveWrites(a + b) == LiveWrites(a) + LiveWrites(b)
    decreases |b|
  {
    if b == [] {
      assert a + b == a;
    } else {
      assert (a + b)[..|a + b| - 1] == a + b[..|b| - 1];
      LiveWritesSplit(a, b[..|b| - 1]);
    }
  }

  lemma {:induction false} FoldPoolsSplit(pools: map<string, PoolRow>, a: seq<PoolDesc>, b: seq<PoolDesc>)
    ensures FoldPools(pools, a + b) == FoldPools(FoldPools(pools, a), b)
    decreases |b|
  {
    if b == [] {
      assert a + b == a;
    } else {
      var c := a + b;
      assert c[..|c| - 1] == a + b[..|b| - 1] && c[|c| - 1] == b[|b| - 1];
      FoldPoolsSplit(pools, a, b[..|b| - 1]);
      FoldPoolsSnoc(pools, c);
      FoldPoolsSnoc(FoldPools(pools, a), b);
    }
  }

  lemma FoldPoolsSnoc(pools: map<string, PoolRow>, ps: seq<PoolDesc>)
    requires ps != []
    ensures FoldPools(pools, ps) == WithPool(FoldPools(pools, ps[..|ps| - 1]), ps[|ps| - 1])
  {
  }

  /** Two pool tables agree when their keys, identities and live columns agree. */
  lemma PoolTablesEqual(p1: map<string, PoolRow>, p2: map<string, PoolRow>)
    requires IdentView(p1) == IdentView(p2) && LiveView(p1) == LiveView(p2)
    ensures p1 == p2
  {
    assert p1.Keys == IdentView(p1).Keys;
    forall id | id in p1
      ensures p1[id] == p2[id]
    {
      assert IdentView(p1)[id] == IdentView(p2)[id];
      assert LiveView(p1)[id] == LiveView(p2)[id];
    }
  }

  /** Replaying the same pool upserts leaves the Pool table unchanged. */
  lemma FoldPoolsIdempotent(pools: map<string, PoolRow>, ps: seq<PoolDesc>)
    ensures FoldPools(FoldPools(pools, ps), ps) == FoldPools(pools, ps)
  {
    var once := FoldPools(pools, ps);
    var twice := FoldPools(once, ps);
    FoldPoolsLive(pools, ps);
    FoldPoolsLive(once, ps);
    SetAllIdempotent(LiveView(pools), LiveWrites(ps));
    assert twice.Keys == once.Keys;
    IdentViewsAgree(once, twice);
    PoolTablesEqual(twice, once);
  }

  lemma IdentViewsAgree(p1: map<string, PoolRow>, p2: map<string, PoolRow>)
    requires p1.Keys == p2.Keys
    requires forall id :: id in p1 ==> p2[id].ident == p1[id].ident
    ensures IdentView(p1) == IdentView(p2)
  {
  }

  /** An id that no written pool carries is not a key of the pool writes. */
  lemma {:induction false} LiveWritesAvoid(ps: seq<PoolDesc>, id: string)
    requires forall j :: 0 <= j < |ps| && Writable(ps[j]) ==> PoolIdOf(ps[j]) != id
    ensures id !in Keys(LiveWrites(ps))
    decreases |ps|
  {
    if ps != [] {
      var init, p := ps[..|ps| - 1], ps[|ps| - 1];
      KeysConcat(LiveWrites(init), if Writable(p) then [(PoolIdOf(p), LiveOf(p))] else []);
      forall j | 0 <= j < |init| && Writable(init[j])
        ensures PoolIdOf(init[j]) != id
      {
        assert init[j] == ps[j];
      }
      LiveWritesAvoid(init, id);
    }
  }

  /**
   * A Pool row the upserts create takes its identity columns from the first
   * written pool with that id; later upserts of the same id never change them.
   */
  lemma FoldPoolsNewRow(pools: map<string, PoolRow>, ps: seq<PoolDesc>)
    requires ps != [] && Writable(ps[|ps| - 1])
    requires PoolIdOf(ps[|ps| - 1]) !in FoldPools(pools, ps[..|ps| - 1])
    ensures PoolIdOf(ps[|ps| - 1]) in FoldPools(pools, ps)
    ensures FoldPools(pools, ps)[PoolIdOf(ps[|ps| - 1])].ident == IdentOf(ps[|ps| - 1])
  {
  }

  lemma FoldPoolsKeepsRow(pools: map<string, PoolRow>, ps: seq<PoolDesc>, id: string)
    requires ps != [] && id in FoldPools(pools, ps[..|ps| - 1])
    ensures id in FoldPools(pools, ps)
    ensures FoldPools(pools, ps)[id].ident == FoldPools(pools, ps[..|ps| - 1])[id].ident
  {
  }

  lemma {:induction false} FoldPoolsFirstIdent(pools: map<string, PoolRow>, ps: seq<PoolDesc>, i: int)
    requires 0 <= i < |ps| && Writable(ps[i]) && PoolIdOf(ps[i]) !in pools
    requires forall j :: 0 <= j < i && Writable(ps[j]) ==> PoolIdOf(ps[j]) != PoolIdOf(ps[i])
    ensures PoolIdOf(ps[i]) in FoldPools(pools, ps)
    ensures FoldPools(pools, ps)[PoolIdOf(ps[i])].ident == IdentOf(ps[i])
    decreases |ps|
  {
    var init := ps[..|ps| - 1];
    var id := PoolIdOf(ps[i]);
    if i == |ps| - 1 {
      forall j | 0 <= j < |init| && Writable(init[j])
        ensures PoolIdOf(init[j]) != id
      {
        assert init[j] == ps[j];
      }
      LiveWritesAvoid(init, id);
      FoldPoolsNewRow(pools, ps);
    } else {
      forall j | 0 <= j < i && Writable(init[j])
        ensures PoolIdOf(init[j]) != PoolIdOf(init[i])
      {
        assert init[j] == ps[j];
      }
      assert init[i] == ps[i];
      FoldPoolsFirstIdent(pools, init, i);
      FoldPoolsKeepsRow(pools, ps, id);
    }
  }

  // ---------------------------------------------------------------- Balance

  /**
   * The table effect of one Balance upsert: an existing row keeps its id and
   * takes the new figures; a new row gets the next id.
   */
  function WithBalance(bt: BalanceTable, key: BalanceKey, f: Figures): (r: BalanceTable)
    ensures r.rows.Keys == bt.rows.Keys + {key}
    ensures r.rows[key].figures == f
    ensures forall k :: k in bt.rows ==> r.rows[k].id == bt.rows[k].id
    ensures forall k :: k in bt.rows && k != key ==> r.rows[k] == bt.rows[k]
    ensures key !in bt.rows ==> r.rows[key].id == bt.nextId && r.nextId == bt.nextId + 1
    ensures key in bt.rows ==> r.nextId == bt.nextId
  {
    if key in bt.rows then bt.(rows := bt.rows[key := bt.rows[key].(figures := f)])
    else BalanceTable(bt.rows[key := BalanceRow(bt.nextId, f)], bt.nextId + 1)
  }

  function FoldBalances(bt: BalanceTable, ws: seq<(BalanceKey, Figures)>): (r: BalanceTable)
    ensures r.rows.Keys == bt.rows.Keys + Keys(ws)
    ensures forall k :: k in bt.rows ==> r.rows[k].id == bt.rows[k].id
    ensures Keys(ws) <= bt.rows.Keys ==> r.nextId == bt.nextId
    decreases |ws|
  {
    if ws == [] then bt else WithBalance(FoldBalances(bt, ws[..|ws| - 1]), ws[|ws| - 1].0, ws[|ws| - 1].1)
  }

  function FiguresView(rows: map<BalanceKey, BalanceRow>): map<BalanceKey, Figures> {
    map k | k in rows :: rows[k].figures
  }

  lemma {:induction false} FoldBalancesFigures(bt: BalanceTable, ws: seq<(BalanceKey, Figures)>)
    ensures FiguresView(FoldBalances(bt, ws).rows) == SetAll(FiguresView(bt.rows), ws)
    decreases |ws|
  {
    if ws != [] {
      FoldBalancesFigures(bt, ws[..|ws| - 1]);
    }
  }

  lemma {:induction false} FoldBalancesSplit(bt: BalanceTable, a: seq<(BalanceKey, Figures)>, b: seq<(BalanceKey, Figures)>)
    ensures FoldBalances(bt, a + b) == FoldBalances(FoldBalances(bt, a), b)
    decreases |b|
  {
    if b == [] {
      assert a + b == a;
    } else {
      assert (a + b)[..|a + b| - 1] == a + b[..|b| - 1];
      FoldBalancesSplit(bt, a, b[..|b| - 1]);
    }
  }

  /** Replaying the same balance upserts creates no row, keeps every id and leaves the table unchanged. */
  lemma FoldBalancesIdempotent(bt: BalanceTable, ws: seq<(BalanceKey, Figures)>)
    ensures FoldBalances(FoldBalances(bt, ws), ws) == FoldBalances(bt, ws)
  {
    var once := FoldBalances(bt, ws);
    var twice := FoldBalances(once, ws);
    FoldBalancesFigures(bt, ws);
    FoldBalancesFigures(once, ws);
    SetAllIdempotent(FiguresView(bt.rows), ws);
    forall k | k in once.rows
      ensures twice.rows[k] == once.rows[k]
    {
      assert FiguresView(twice.rows)[k] == FiguresView(once.rows)[k];
    }
  }

  // ---------------------------------------------------------------- integrity

  function BalanceIds(bt: BalanceTable): set<nat> {
    set k | k in bt.rows :: bt.rows[k].id
  }

  /**
   * The foreign keys and generated ids of the sync tables are consistent:
   * every pool names a stored token, every balance a stored token and a known
   * wallet, balance ids are distinct and below the generator, and every price
   * event and risk profile hangs off a stored balance.
   */
  ghost predicate Integrity(t: SyncTables) {
    && (forall id :: id in t.pools ==> t.pools[id].ident.tokenMint in t.tokens)
    && (forall k :: k in t.balances.rows ==>
          k.tokenMint in t.tokens && k.walletId in t.wallets.Values && t.balances.rows[k].id < t.balances.nextId)
    && (forall k1, k2 :: k1 in t.balances.rows && k2 in t.balances.rows && k1 != k2 ==>
          t.balances.rows[k1].id != t.balances.rows[k2].id)
    && (forall e :: e in t.priceEvents ==> e.balanceId in BalanceIds(t.balances))
    && (forall b :: b in t.risks ==> b in BalanceIds(t.balances))
  }

  /**
   * `u` keeps everything of `t` that a sync never takes back: the wallets,
   * every stored row, the identity columns of every pool, the id of every
   * balance, and the id generator.
   */
  ghost predicate Extends(t: SyncTables, u: SyncTables) {
    && u.wallets == t.wallets
    && t.tokens.Keys <= u.tokens.Keys
    && (forall id :: id in t.pools ==> id in u.pools && u.pools[id].ident == t.pools[id].ident)
    && (forall k :: k in t.balances.rows ==> k in u.balances.rows && u.balances.rows[k].id == t.balances.rows[k].id)
    && t.balances.nextId <= u.balances.nextId
    && t.priceEvents.Keys <= u.priceEvents.Keys
    && t.risks.Keys <= u.risks.Keys
  }

  lemma ExtendsTransitive(t: SyncTables, u: SyncTables, v: SyncTables)
    requires Extends(t, u) && Extends(u, v)
    ensures Extends(t, v)
  {
  }

  /** PnlScan ids are below the generator and strictly increasing in creation order. */
  ghost predicate HistoryIntegrity(h: PnlHistory) {
    && (forall i :: 0 <= i < |h.scans| ==> h.scans[i].id < h.nextId)
    && (forall i, j :: 0 <= i < j < |h.scans| ==> h.scans[i].id < h.scans[j].id)
  }

  // ---------------------------------------------------------------- the store

  /** The database, one field per table. */
  class Database {
    var wallets: map<string, nat>
    var tokens: map<string, TokenRow>
    var pools: map<string, PoolRow>
    var balances: map<BalanceKey, BalanceRow>
    var nextBalanceId: nat
    var priceEvents: map<EventKey, Value>
    var riskProfiles: map<nat, RiskRow>
    var pnlScans: seq<PnlScan>
    var nextPnlScanId: nat

    function SyncState(): SyncTables
      reads this
    {
      SyncTables(wallets, tokens, pools, BalanceTable(balances, nextBalanceId), priceEvents, riskProfiles)
    }

    function History(): PnlHistory
      reads this
    {
      PnlHistory(pnlScans, nextPnlScanId)
    }

    ghost predicate Valid()
      reads this
    {
      Integrity(SyncState()) && HistoryIntegrity(History())
    }

    /** A store holding the given wallets (publicKey to id) and nothing else. */
    constructor (wallets: map<string, nat>)
      ensures Valid()
      ensures SyncState() == SyncTables(wallets, map[], map[], BalanceTable(map[], 0), map[], map[])
      ensures History() == PnlHistory([], 0)
    {
      this.wallets := wallets;
      tokens, pools, balances, nextBalanceId := map[], map[], map[], 0;
      priceEvents, riskProfiles := map[], map[];
      pnlScans, nextPnlScanId := [], 0;
    }

    /** `wallet.findUnique({ where: { publicKey } })`, giving the wallet's id. */
    method FindWalletId(publicKey: string) returns (r: Option<nat>)
      ensures r.Some? <==> publicKey in wallets
      ensures r.Some? ==> r.value == wallets[publicKey]
    {
      r := if publicKey in wallets then Some(wallets[publicKey]) else None;
    }

    /** `token.upsert` keyed by mint. */
    method UpsertToken(mint: string, row: TokenRow)
      modifies this`tokens
      ensures tokens == old(tokens)[mint := row]
    {
      tokens := tokens[mint := row];
    }

    /**
     * `pool.upsert` keyed by poolId: an existing row takes `update`; otherwise
     * `create` is inserted, connected to the Token its tokenMint names, and the
     * call fails (nothing written) when no such Token exists.
     */
    method UpsertPool(poolId: string, create: PoolRow, update: PoolLive) returns (ok: bool)
      modifies this`pools
      ensures ok <==> poolId in old(pools) || create.ident.tokenMint in tokens
      ensures pools == if poolId in old(pools) then old(pools)[poolId := old(pools)[poolId].(live := update)]
                       else if ok then old(pools)[poolId := create]
                       else old(pools)
    {
      if poolId in pools {
        pools := pools[poolId := pools[poolId].(live := update)];
        ok := true;
      } else if create.ident.tokenMint in tokens {
        pools := pools[poolId := create];
        ok := true;
      } else {
        ok := false;
      }
    }

    /** `balance.upsert` keyed by (walletId, tokenMint), returning the row's id. */
    method UpsertBalance(key: BalanceKey, f: Figures) returns (id: nat)
      modifies this`balances, this`nextBalanceId
      ensures BalanceTable(balances, nextBalanceId) == WithBalance(old(BalanceTable(balances, nextBalanceId)), key, f)
      ensures key in balances && id == balances[key].id
    {
      if key in balances {
        balances := balances[key := balances[key].(figures := f)];
      } else {
        balances := balances[key := BalanceRow(nextBalanceId, f)];
        nextBalanceId := nextBalanceId + 1;
      }
      id := balances[key].id;
    }

    /** `priceEvent.upsert` keyed by (balanceId, intervalLabel). */
    method UpsertPriceEvent(key: EventKey, pctChange: Value)
      modifies this`priceEvents
      ensures priceEvents == old(priceEvents)[key := pctChange]
    {
      priceEvents := priceEvents[key := pctChange];
    }

    /** `riskProfile.upsert` keyed by balanceId. */
    method UpsertRiskProfile(balanceId: nat, row: RiskRow)
      modifies this`riskProfiles
      ensures riskProfiles == old(riskProfiles)[balanceId := row]
    {
      riskProfiles := riskProfiles[balanceId := row];
    }

    /** `pnlScan.create` with its nested PnlToken rows: appends one snapshot under a fresh id. */
    method CreatePnlScan(walletId: nat, summary: PnlSummary, rows: seq<PnlTokenRow>) returns (id: nat)
      modifies this`pnlScans, this`nextPnlScanId
      ensures id == old(nextPnlScanId) && nextPnlScanId == id + 1
      ensures pnlScans == old(pnlScans) + [PnlScan(id, walletId, summary, rows)]
    {
      id := nextPnlScanId;
      pnlScans := pnlScans + [PnlScan(id, walletId, summary, rows)];
      nextPnlScanId := nextPnlScanId + 1;
    }
  }
}
