/**
 * What a successful scan leaves in each table, stated as the writes the
 * payload induces, and the consequences: skipped holdings and pools change
 * nothing, a scan succeeds exactly when its payload is complete and its
 * pools connect, the Token table holds one row per mint with the last
 * holding's data, and every recorded holding can be found in the tables.
 */
module SyncReplay {
  import opened Wrappers
  import opened Provider
  import opened Upsert
  import opened Ledger
  import opened SyncSpec
  import opened SyncLemmas

  // ---------------------------------------------------------------- skipped holdings

  /** The holdings that name a mint, in provider order. */
  function WithMint(hs: seq<Holding>): (r: seq<Holding>)
    decreases |hs|
  {
    if hs == [] then []
    else WithMint(hs[..|hs| - 1]) + (if HasMint(hs[|hs| - 1]) then [hs[|hs| - 1]] else [])
  }

  /** Holdings without a mint are skipped: the tables evolve as if they were not in the payload. */
  lemma {:induction false} ApplyHoldingsSkipsMintless(t: SyncTables, walletId: nat, hs: seq<Holding>)
    ensures ApplyHoldings(t, walletId, hs) == ApplyHoldings(t, walletId, WithMint(hs))
    decreases |hs|
  {
    if hs != [] {
      var init, h := hs[..|hs| - 1], hs[|hs| - 1];
      ApplyHoldingsSkipsMintless(t, walletId, init);
      var vs := WithMint(hs);
      if HasMint(h) {
        assert vs == WithMint(init) + [h];
        assert vs[..|vs| - 1] == WithMint(init);
        assert vs[|vs| - 1] == h;
        var r0 := ApplyHoldings(t, walletId, init);
        assert ApplyHoldings(t, walletId, vs) ==
          if r0.err.Some? then r0 else ApplyHolding(r0.t, walletId, h);
      } else {
        assert vs == WithMint(init);
      }
    }
  }

  /** The pools that carry both a poolId and a tokenAddress, in payload order. */
  function UsableOnly(ps: seq<PoolDesc>): (r: seq<PoolDesc>)
    decreases |ps|
  {
    if ps == [] then []
    else UsableOnly(ps[..|ps| - 1]) + (if Usable(ps[|ps| - 1]) then [ps[|ps| - 1]] else [])
  }

  /** Pools without a poolId or a tokenAddress are skipped: no write and no error, the loop goes on. */
  lemma {:induction false} ApplyPoolsSkipsUnusable(t: SyncTables, ps: seq<PoolDesc>)
    ensures ApplyPools(t, ps) == ApplyPools(t, UsableOnly(ps))
    decreases |ps|
  {
    if ps != [] {
      var init, p := ps[..|ps| - 1], ps[|ps| - 1];
      ApplyPoolsSkipsUnusable(t, init);
      var us := UsableOnly(ps);
      if Usable(p) {
        assert us == UsableOnly(init) + [p];
        assert us[..|us| - 1] == UsableOnly(init);
        assert us[|us| - 1] == p;
      } else {
        assert us == UsableOnly(init);
      }
    }
  }

  // ---------------------------------------------------------------- the writes of a payload

  function TokenWrites(hs: seq<Holding>): seq<(string, TokenRow)>
    decreases |hs|
  {
    if hs == [] then []
    else
      var h := hs[|hs| - 1];
      TokenWrites(hs[..|hs| - 1]) + (if HasMint(h) then [(MintOf(h), TokenRowOf(h.token.value))] else [])
  }

  /** The pool descriptors the scan visits, holding after holding. */
  function PoolDescs(hs: seq<Holding>): seq<PoolDesc>
    decreases |hs|
  {
    if hs == [] then []
    else
      var h := hs[|hs| - 1];
      PoolDescs(hs[..|hs| - 1]) + (if HasMint(h) then PoolsOf(h) else [])
  }

  function BalanceWrites(walletId: nat, hs: seq<Holding>): seq<(BalanceKey, Figures)>
    decreases |hs|
  {
    if hs == [] then []
    else
      var h := hs[|hs| - 1];
      BalanceWrites(walletId, hs[..|hs| - 1]) +
      (if HasMint(h) then [(BalanceKey(walletId, MintOf(h)), FiguresOf(h))] else [])
  }

  /** The id of the balance stored under `key` (0 when there is none). */
  function IdIn(bt: BalanceTable, key: BalanceKey): nat {
    if key in bt.rows then bt.rows[key].id else 0
  }

  /** The PriceEvent writes, with balance ids as they stand in `bt`. */
  function EventWrites(bt: BalanceTable, walletId: nat, hs: seq<Holding>): seq<(EventKey, Value)>
    decreases |hs|
  {
    if hs == [] then []
    else
      var h := hs[|hs| - 1];
      EventWrites(bt, walletId, hs[..|hs| - 1]) +
      (if HasMint(h) then EventPairs(IdIn(bt, BalanceKey(walletId, MintOf(h))), EventsOf(h)) else [])
  }

  /** The RiskProfile writes, with balance ids as they stand in `bt`. */
  function RiskWrites(bt: BalanceTable, walletId: nat, hs: seq<Holding>): seq<(nat, RiskRow)>
    decreases |hs|
  {
    if hs == [] then []
    else
      var h := hs[|hs| - 1];
      RiskWrites(bt, walletId, hs[..|hs| - 1]) +
      (if HasMint(h) && h.risk.Some? then [(IdIn(bt, BalanceKey(walletId, MintOf(h))), RiskRowOf(h.risk.value))] else [])
  }

  /** The writes of one holding that raised no error. */
  lemma HoldingEffect(x: SyncTables, walletId: nat, h: Holding)
    requires HasMint(h) && ApplyHolding(x, walletId, h).err.None?
    ensures var y := ApplyHolding(x, walletId, h).t;
            var key := BalanceKey(walletId, MintOf(h));
            && y.tokens == x.tokens[MintOf(h) := TokenRowOf(h.token.value)]
            && y.pools == FoldPools(x.pools, PoolsOf(h))
            && y.balances == WithBalance(x.balances, key, FiguresOf(h))
            && y.priceEvents == SetAll(x.priceEvents, EventPairs(IdIn(y.balances, key), EventsOf(h)))
            && h.risk.Some?
            && y.risks == x.risks[IdIn(y.balances, key) := RiskRowOf(h.risk.value)]
  {
  }

  /** Event and risk writes depend on the balance table only through the ids of the balances they name. */
  lemma {:induction false} WritesFollowIds(b1: BalanceTable, b2: BalanceTable, walletId: nat, hs: seq<Holding>)
    requires Keys(BalanceWrites(walletId, hs)) <= b1.rows.Keys
    requires forall k :: k in b1.rows ==> k in b2.rows && b2.rows[k].id == b1.rows[k].id
    ensures EventWrites(b1, walletId, hs) == EventWrites(b2, walletId, hs)
    ensures RiskWrites(b1, walletId, hs) == RiskWrites(b2, walletId, hs)
    decreases |hs|
  {
    if hs != [] {
      var init, h := hs[..|hs| - 1], hs[|hs| - 1];
      KeysConcat(BalanceWrites(walletId, init),
                 if HasMint(h) then [(BalanceKey(walletId, MintOf(h)), FiguresOf(h))] else []);
      WritesFollowIds(b1, b2, walletId, init);
    }
  }

  /** `u` is `t` overwritten with the writes of `hs` made by the wallet with id `walletId`. */
  ghost predicate EffectOf(t: SyncTables, walletId: nat, hs: seq<Holding>, u: SyncTables) {
    && u.wallets == t.wallets
    && u.tokens == SetAll(t.tokens, TokenWrites(hs))
    && u.pools == FoldPools(t.pools, PoolDescs(hs))
    && u.balances == FoldBalances(t.balances, BalanceWrites(walletId, hs))
    && u.priceEvents == SetAll(t.priceEvents, EventWrites(u.balances, walletId, hs))
    && u.risks == SetAll(t.risks, RiskWrites(u.balances, walletId, hs))
  }

  /** Token, Pool and Balance tables after one more holding. */
  lemma EffectStepUpserts(t: SyncTables, walletId: nat, hs: seq<Holding>, x: SyncTables)
    requires hs != [] && HasMint(hs[|hs| - 1])
    requires EffectOf(t, walletId, hs[..|hs| - 1], x)
    requires ApplyHolding(x, walletId, hs[|hs| - 1]).err.None?
    ensures var u := ApplyHolding(x, walletId, hs[|hs| - 1]).t;
            && u.wallets == t.wallets
            && u.tokens == SetAll(t.tokens, TokenWrites(hs))
            && u.pools == FoldPools(t.pools, PoolDescs(hs))
            && u.balances == FoldBalances(t.balances, BalanceWrites(walletId, hs))
  {
    var h := hs[|hs| - 1];
    HoldingEffect(x, walletId, h);
    TokenWritesSnoc(t.tokens, hs);
    FoldPoolsSplit(t.pools, PoolDescs(hs[..|hs| - 1]), PoolsOf(h));
    BalanceWritesSnoc(t.balances, walletId, hs);
  }

  lemma TokenWritesSnoc(tokens: map<string, TokenRow>, hs: seq<Holding>)
    requires hs != [] && HasMint(hs[|hs| - 1])
    ensures SetAll(tokens, TokenWrites(hs)) ==
              SetAll(tokens, TokenWrites(hs[..|hs| - 1]))[MintOf(hs[|hs| - 1]) := TokenRowOf(hs[|hs| - 1].token.value)]
  {
    var tw := TokenWrites(hs);
    assert tw[..|tw| - 1] == TokenWrites(hs[..|hs| - 1]);
  }

  lemma BalanceWritesSnoc(bt: BalanceTable, walletId: nat, hs: seq<Holding>)
    requires hs != [] && HasMint(hs[|hs| - 1])
    ensures FoldBalances(bt, BalanceWrites(walletId, hs)) ==
              WithBalance(FoldBalances(bt, BalanceWrites(walletId, hs[..|hs| - 1])),
                          BalanceKey(walletId, MintOf(hs[|hs| - 1])), FiguresOf(hs[|hs| - 1]))
  {
    var bw := BalanceWrites(walletId, hs);
    assert bw[..|bw| - 1] == BalanceWrites(walletId, hs[..|hs| - 1]);
  }

  /** PriceEvent and RiskProfile tables after one more holding. */
  lemma EffectStepDependents(t: SyncTables, walletId: nat, hs: seq<Holding>, x: SyncTables)
    requires hs != [] && HasMint(hs[|hs| - 1])
    requires EffectOf(t, walletId, hs[..|hs| - 1], x)
    requires ApplyHolding(x, walletId, hs[|hs| - 1]).err.None?
    ensures var u := ApplyHolding(x, walletId, hs[|hs| - 1]).t;
            && u.priceEvents == SetAll(t.priceEvents, EventWrites(u.balances, walletId, hs))
            && u.risks == SetAll(t.risks, RiskWrites(u.balances, walletId, hs))
  {
    var init, h := hs[..|hs| - 1], hs[|hs| - 1];
    var u := ApplyHolding(x, walletId, h).t;
    var key := BalanceKey(walletId, MintOf(h));
    HoldingEffect(x, walletId, h);
    WritesFollowIds(x.balances, u.balances, walletId, init);
    SetAllSplit(t.priceEvents, EventWrites(u.balances, walletId, init), EventPairs(IdIn(u.balances, key), EventsOf(h)));
    var rw := RiskWrites(u.balances, walletId, hs);
    assert rw[..|rw| - 1] == RiskWrites(u.balances, walletId, init);
  }

  /** A scan of `hs` that raised no error overwrote each table with the writes of `hs`. */
  lemma {:induction false} ApplyHoldingsEffect(t: SyncTables, walletId: nat, hs: seq<Holding>)
    requires ApplyHoldings(t, walletId, hs).err.None?
    ensures EffectOf(t, walletId, hs, ApplyHoldings(t, walletId, hs).t)
    decreases |hs|
  {
    if hs != [] {
      var init, h := hs[..|hs| - 1], hs[|hs| - 1];
      ApplyHoldingsEffect(t, walletId, init);
      var x := ApplyHoldings(t, walletId, init).t;
      assert ApplyHoldings(t, walletId, hs).t == ApplyHolding(x, walletId, h).t;
      if HasMint(h) {
        EffectStepUpserts(t, walletId, hs, x);
        EffectStepDependents(t, walletId, hs, x);
      } else {
        EffectStepSkip(t, walletId, hs, x);
      }
    }
  }

  lemma SkipAddsNoWrite(bt: BalanceTable, walletId: nat, hs: seq<Holding>)
    requires hs != [] && !HasMint(hs[|hs| - 1])
    ensures var init := hs[..|hs| - 1];
            && TokenWrites(hs) == TokenWrites(init)
            && PoolDescs(hs) == PoolDescs(init)
            && BalanceWrites(walletId, hs) == BalanceWrites(walletId, init)
            && EventWrites(bt, walletId, hs) == EventWrites(bt, walletId, init)
            && RiskWrites(bt, walletId, hs) == RiskWrites(bt, walletId, init)
  {
    var init := hs[..|hs| - 1];
    assert TokenWrites(hs) == TokenWrites(init) + [];
    assert PoolDescs(hs) == PoolDescs(init) + [];
    assert BalanceWrites(walletId, hs) == BalanceWrites(walletId, init) + [];
    assert EventWrites(bt, walletId, hs) == EventWrites(bt, walletId, init) + [];
    assert RiskWrites(bt, walletId, hs) == RiskWrites(bt, walletId, init) + [];
  }

  /** A holding without a mint adds no write. */
  lemma EffectStepSkip(t: SyncTables, walletId: nat, hs: seq<Holding>, x: SyncTables)
    requires hs != [] && !HasMint(hs[|hs| - 1])
    requires EffectOf(t, walletId, hs[..|hs| - 1], x)
    ensures EffectOf(t, walletId, hs, x)
  {
    var init := hs[..|hs| - 1];
    SkipAddsNoWrite(x.balances, walletId, hs);
  }

  // ---------------------------------------------------------------- when a scan raises no error

  /** The parts of a holding whose absence raises an error: its risk, the nested objects of its usable pools, its event entries. */
  predicate HoldingComplete(h: Holding) {
    && h.risk.Some?
    && (forall j :: 0 <= j < |PoolsOf(h)| && Usable(PoolsOf(h)[j]) ==> Complete(PoolsOf(h)[j]))
    && (forall j :: 0 <= j < |EventsOf(h)| ==> EventsOf(h)[j].1.Some?)
  }

  predicate PayloadComplete(hs: seq<Holding>) {
    forall i :: 0 <= i < |hs| && HasMint(hs[i]) ==> HoldingComplete(hs[i])
  }

  lemma {:induction false} PoolsOkAreComplete(t: SyncTables, ps: seq<PoolDesc>)
    requires ApplyPools(t, ps).err.None?
    ensures forall j :: 0 <= j < |ps| && Usable(ps[j]) ==> Complete(ps[j])
    decreases |ps|
  {
    if ps != [] {
      var init := ps[..|ps| - 1];
      PoolsOkAreComplete(t, init);
      forall j | 0 <= j < |ps| - 1 && Usable(ps[j])
        ensures Complete(ps[j])
      {
        assert ps[j] == init[j];
      }
    }
  }

  lemma {:induction false} EventsOkAreComplete(t: SyncTables, balanceId: nat, evs: seq<(string, Option<PriceChange>)>)
    requires ApplyEvents(t, balanceId, evs).err.None?
    ensures forall j :: 0 <= j < |evs| ==> evs[j].1.Some?
    decreases |evs|
  {
    if evs != [] {
      var init := evs[..|evs| - 1];
      var r0 := ApplyEvents(t, balanceId, init);
      assert r0.err.None?;
      assert EventStep(r0.t, balanceId, evs[|evs| - 1]).err.None?;
      EventsOkAreComplete(t, balanceId, init);
      forall j | 0 <= j < |evs| - 1
        ensures evs[j].1.Some?
      {
        assert evs[j] == init[j];
      }
    }
  }

  /** A scan that raised no error read a complete payload. */
  lemma {:induction false} HoldingsOkAreComplete(t: SyncTables, walletId: nat, hs: seq<Holding>)
    requires ApplyHoldings(t, walletId, hs).err.None?
    ensures PayloadComplete(hs)
    decreases |hs|
  {
    if hs != [] {
      var init, h := hs[..|hs| - 1], hs[|hs| - 1];
      HoldingsOkAreComplete(t, walletId, init);
      PayloadCompleteSnoc(hs);
      if HasMint(h) {
        HoldingSucceedsIff(ApplyHoldings(t, walletId, init).t, walletId, h);
      }
    }
  }

  lemma {:induction false} EventsSucceed(t: SyncTables, balanceId: nat, evs: seq<(string, Option<PriceChange>)>)
    requires forall j :: 0 <= j < |evs| ==> evs[j].1.Some?
    ensures ApplyEvents(t, balanceId, evs).err.None?
    decreases |evs|
  {
    if evs != [] {
      assert forall j :: 0 <= j < |evs| - 1 ==> evs[..|evs| - 1][j] == evs[j];
      EventsSucceed(t, balanceId, evs[..|evs| - 1]);
    }
  }

  /**
   * A pool passes its step when the pools and Tokens stored are `ids` and
   * `mints`: if usable it has its nested objects, and if written it finds
   * either its own row or its Token.
   */
  predicate PoolFits(ids: set<string>, mints: set<string>, p: PoolDesc) {
    && (Usable(p) ==> Complete(p))
    && (Writable(p) ==> PoolIdOf(p) in ids || IdentOf(p).tokenMint in mints)
  }

  /** Every pool of `ps` fits the tables as the earlier pools of `ps` left them. */
  predicate PoolsConnect(ids: set<string>, mints: set<string>, ps: seq<PoolDesc>) {
    forall j :: 0 <= j < |ps| ==> PoolFits(ids + Keys(LiveWrites(ps[..j])), mints, ps[j])
  }

  lemma PoolsConnectSnoc(ids: set<string>, mints: set<string>, ps: seq<PoolDesc>)
    requires ps != []
    ensures PoolsConnect(ids, mints, ps) <==>
              PoolsConnect(ids, mints, ps[..|ps| - 1]) &&
              PoolFits(ids + Keys(LiveWrites(ps[..|ps| - 1])), mints, ps[|ps| - 1])
  {
    var init := ps[..|ps| - 1];
    assert ps[..|ps| - 1] == init;
    forall j | 0 <= j < |init|
      ensures ps[j] == init[j] && ps[..j] == init[..j]
    {
    }
  }

  /** The pool loop raises no error exactly when each pool fits the tables as they stand when it is reached. */
  lemma {:induction false} PoolsSucceedIff(s: SyncTables, ps: seq<PoolDesc>)
    ensures ApplyPools(s, ps).err.None? <==> PoolsConnect(s.pools.Keys, s.tokens.Keys, ps)
    decreases |ps|
  {
    if ps != [] {
      var init, p := ps[..|ps| - 1], ps[|ps| - 1];
      PoolsSucceedIff(s, init);
      PoolsConnectSnoc(s.pools.Keys, s.tokens.Keys, ps);
    }
  }

  /** The holding raises no error exactly when its payload is complete and its pools fit the tables it meets. */
  lemma HoldingSucceedsIff(x: SyncTables, walletId: nat, h: Holding)
    requires HasMint(h)
    ensures ApplyHolding(x, walletId, h).err.None? <==>
              HoldingComplete(h) && PoolsConnect(x.pools.Keys, x.tokens.Keys + {MintOf(h)}, PoolsOf(h))
  {
    var m := MintOf(h);
    var t1 := x.(tokens := x.tokens[m := TokenRowOf(h.token.value)]);
    PoolsSucceedIff(t1, PoolsOf(h));
    var r2 := ApplyPools(t1, PoolsOf(h));
    if PoolsConnect(x.pools.Keys, x.tokens.Keys + {m}, PoolsOf(h)) {
      forall j | 0 <= j < |PoolsOf(h)| && Usable(PoolsOf(h)[j])
        ensures Complete(PoolsOf(h)[j])
      {
        assert PoolFits(x.pools.Keys + Keys(LiveWrites(PoolsOf(h)[..j])), x.tokens.Keys + {m}, PoolsOf(h)[j]);
      }
    }
    if r2.err.None? {
      var key := BalanceKey(walletId, m);
      var bt := WithBalance(r2.t.balances, key, FiguresOf(h));
      var t2 := r2.t.(balances := bt);
      if ApplyEvents(t2, bt.rows[key].id, EventsOf(h)).err.None? {
        EventsOkAreComplete(t2, bt.rows[key].id, EventsOf(h));
      }
      if forall j :: 0 <= j < |EventsOf(h)| ==> EventsOf(h)[j].1.Some? {
        EventsSucceed(t2, bt.rows[key].id, EventsOf(h));
      }
    }
  }

  /**
   * A holding with a mint fits the tables as the scan stands when it reaches
   * that holding after the holdings `before`: Pool rows stored before or
   * written by earlier holdings, Tokens stored before or named by this or an
   * earlier holding.
   */
  predicate HoldingFits(t: SyncTables, before: seq<Holding>, h: Holding) {
    HasMint(h) ==>
      PoolsConnect(t.pools.Keys + Keys(LiveWrites(PoolDescs(before))),
                   t.tokens.Keys + Keys(TokenWrites(before)) + {MintOf(h)},
                   PoolsOf(h))
  }

  /** Each holding fits the tables as the holdings before it left them. */
  predicate HoldingsConnect(t: SyncTables, hs: seq<Holding>)
    decreases |hs|
  {
    hs == [] || (HoldingsConnect(t, hs[..|hs| - 1]) && HoldingFits(t, hs[..|hs| - 1], hs[|hs| - 1]))
  }

  lemma PayloadCompleteSnoc(hs: seq<Holding>)
    requires hs != []
    ensures PayloadComplete(hs) <==>
              PayloadComplete(hs[..|hs| - 1]) && (HasMint(hs[|hs| - 1]) ==> HoldingComplete(hs[|hs| - 1]))
  {
    var init := hs[..|hs| - 1];
    forall i | 0 <= i < |init|
      ensures hs[i] == init[i]
    {
    }
  }

  /** The holding loop raises no error exactly when the payload is complete and its pools connect. */
  lemma {:induction false} HoldingsSucceedIff(t: SyncTables, walletId: nat, hs: seq<Holding>)
    ensures ApplyHoldings(t, walletId, hs).err.None? <==> PayloadComplete(hs) && HoldingsConnect(t, hs)
    decreases |hs|
  {
    if hs != [] {
      var init, h := hs[..|hs| - 1], hs[|hs| - 1];
      HoldingsSucceedIff(t, walletId, init);
      PayloadCompleteSnoc(hs);
      var r0 := ApplyHoldings(t, walletId, init);
      if r0.err.None? && HasMint(h) {
        ApplyHoldingsEffect(t, walletId, init);
        HoldingSucceedsIff(r0.t, walletId, h);
      }
    }
  }

  /**
   * A scan of a known wallet returns its summary exactly when every holding
   * with a mint has a risk, complete usable pools and non-null event entries,
   * and every pool it writes finds its row or its Token at that point.
   */
  lemma ScanSucceedsIff(t: SyncTables, publicKey: string, hs: seq<Holding>)
    ensures Scan(t, publicKey, Success(hs)).result == Success(Summaries(hs)) <==>
              publicKey in t.wallets && PayloadComplete(hs) && HoldingsConnect(t, hs)
  {
    if publicKey in t.wallets {
      HoldingsSucceedIff(t, t.wallets[publicKey], hs);
    }
  }

  // ---------------------------------------------------------------- the Token table

  /** The mints of the holdings that name one. */
  function ValidMints(hs: seq<Holding>): set<string> {
    set i | 0 <= i < |hs| && HasMint(hs[i]) :: MintOf(hs[i])
  }

  /** No later holding names the same mint as holding `i`. */
  predicate LastWithMint(hs: seq<Holding>, i: int)
    requires 0 <= i < |hs| && HasMint(hs[i])
  {
    forall j :: i < j < |hs| && HasMint(hs[j]) ==> MintOf(hs[j]) != MintOf(hs[i])
  }

  lemma ValidMintsSnoc(hs: seq<Holding>)
    requires hs != []
    ensures ValidMints(hs) == ValidMints(hs[..|hs| - 1]) + (if HasMint(hs[|hs| - 1]) then {MintOf(hs[|hs| - 1])} else {})
  {
    var init := hs[..|hs| - 1];
    forall x | x in ValidMints(hs)
      ensures x in ValidMints(init) || (HasMint(hs[|hs| - 1]) && x == MintOf(hs[|hs| - 1]))
    {
      var k :| 0 <= k < |hs| && HasMint(hs[k]) && MintOf(hs[k]) == x;
      if k < |hs| - 1 {
        assert init[k] == hs[k];
      }
    }
    forall x | x in ValidMints(init)
      ensures x in ValidMints(hs)
    {
      var k :| 0 <= k < |init| && HasMint(init[k]) && MintOf(init[k]) == x;
      assert hs[k] == init[k];
    }
  }

  lemma {:induction false} TokenWritesKeys(hs: seq<Holding>)
    ensures Keys(TokenWrites(hs)) == ValidMints(hs)
    decreases |hs|
  {
    if hs != [] {
      var init, h := hs[..|hs| - 1], hs[|hs| - 1];
      var own := if HasMint(h) then [(MintOf(h), TokenRowOf(h.token.value))] else [];
      TokenWritesKeys(init);
      KeysConcat(TokenWrites(init), own);
      ValidMintsSnoc(hs);
      assert Keys(own) == if HasMint(h) then {MintOf(h)} else {};
    }
  }

  /** A mint named by several holdings keeps the token data of the last of them. */
  lemma {:induction false} TokenWritesLastWins(m: map<string, TokenRow>, hs: seq<Holding>, i: int)
    requires 0 <= i < |hs| && HasMint(hs[i]) && LastWithMint(hs, i)
    ensures MintOf(hs[i]) in SetAll(m, TokenWrites(hs))
    ensures SetAll(m, TokenWrites(hs))[MintOf(hs[i])] == TokenRowOf(hs[i].token.value)
    decreases |hs|
  {
    var init, h := hs[..|hs| - 1], hs[|hs| - 1];
    TokenWritesKeys(hs);
    if HasMint(h) {
      TokenWritesSnoc(m, hs);
    } else {
      SkipAddsNoWrite(BalanceTable(map[], 0), 0, hs);
    }
    if i < |hs| - 1 {
      assert forall j :: 0 <= j < |init| ==> init[j] == hs[j];
      assert LastWithMint(init, i);
      TokenWritesLastWins(m, init, i);
    }
  }

  /**
   * After a successful scan the Token table holds the old mints and every
   * mint of the payload, each payload mint with the data of the last holding
   * that named it, and the rows of other mints unchanged.
   */
  lemma ScanTokenTable(t: SyncTables, publicKey: string, fetched: Result<seq<Holding>, string>)
    requires Scan(t, publicKey, fetched).result.Success?
    ensures var u := Scan(t, publicKey, fetched).t;
            var hs := fetched.value;
            && u.tokens.Keys == t.tokens.Keys + ValidMints(hs)
            && (forall i :: 0 <= i < |hs| && HasMint(hs[i]) && LastWithMint(hs, i) ==>
                  u.tokens[MintOf(hs[i])] == TokenRowOf(hs[i].token.value))
            && (forall k :: k in t.tokens && k !in ValidMints(hs) ==> u.tokens[k] == t.tokens[k])
  {
    var hs := fetched.value;
    var w := t.wallets[publicKey];
    ApplyHoldingsEffect(t, w, hs);
    TokenWritesKeys(hs);
    forall i | 0 <= i < |hs| && HasMint(hs[i]) && LastWithMint(hs, i)
      ensures SetAll(t.tokens, TokenWrites(hs))[MintOf(hs[i])] == TokenRowOf(hs[i].token.value)
    {
      TokenWritesLastWins(t.tokens, hs, i);
    }
    forall k | k in t.tokens && k !in ValidMints(hs)
      ensures SetAll(t.tokens, TokenWrites(hs))[k] == t.tokens[k]
    {
      SetAllUntouched(t.tokens, TokenWrites(hs), k);
    }
  }

  // ---------------------------------------------------------------- every holding is recorded

  lemma {:induction false} EventPairsKeys(balanceId: nat, evs: seq<(string, Option<PriceChange>)>, j: int)
    requires 0 <= j < |evs| && evs[j].1.Some?
    ensures EventKey(balanceId, evs[j].0) in Keys(EventPairs(balanceId, evs))
    decreases |evs|
  {
    var init, e := evs[..|evs| - 1], evs[|evs| - 1];
    KeysConcat(EventPairs(balanceId, init),
               if e.1.Some? then [(EventKey(balanceId, e.0), e.1.value.priceChangePercentage)] else []);
    if j < |evs| - 1 {
      assert init[j] == evs[j];
      EventPairsKeys(balanceId, init, j);
    }
  }

  /** Each holding with a mint writes its Balance key, its RiskProfile and one PriceEvent per entry. */
  lemma {:induction false} WritesCover(bt: BalanceTable, walletId: nat, hs: seq<Holding>, i: int)
    requires 0 <= i < |hs| && HasMint(hs[i]) && HoldingComplete(hs[i])
    ensures var key := BalanceKey(walletId, MintOf(hs[i]));
            && key in Keys(BalanceWrites(walletId, hs))
            && IdIn(bt, key) in Keys(RiskWrites(bt, walletId, hs))
            && (forall j :: 0 <= j < |EventsOf(hs[i])| ==>
                  EventKey(IdIn(bt, key), EventsOf(hs[i])[j].0) in Keys(EventWrites(bt, walletId, hs)))
    decreases |hs|
  {
    var init, h := hs[..|hs| - 1], hs[|hs| - 1];
    var key := BalanceKey(walletId, MintOf(hs[i]));
    var own := if HasMint(h) then EventPairs(IdIn(bt, BalanceKey(walletId, MintOf(h))), EventsOf(h)) else [];
    KeysConcat(BalanceWrites(walletId, init),
               if HasMint(h) then [(BalanceKey(walletId, MintOf(h)), FiguresOf(h))] else []);
    KeysConcat(RiskWrites(bt, walletId, init),
               if HasMint(h) && h.risk.Some? then [(IdIn(bt, BalanceKey(walletId, MintOf(h))), RiskRowOf(h.risk.value))] else []);
    KeysConcat(EventWrites(bt, walletId, init), own);
    if i < |hs| - 1 {
      assert init[i] == hs[i];
      WritesCover(bt, walletId, init, i);
    } else {
      forall j | 0 <= j < |EventsOf(h)|
        ensures EventKey(IdIn(bt, key), EventsOf(h)[j].0) in Keys(own)
      {
        EventPairsKeys(IdIn(bt, key), EventsOf(h), j);
      }
    }
  }

  /**
   * Every entry of the summary a successful scan returns is backed by the
   * tables: a holding with a mint has its Token, its Balance for the
   * wallet, a RiskProfile for that balance and a PriceEvent per interval;
   * a holding without a mint is reported under "unknown".
   */
  lemma ScanRecordsEveryHolding(t: SyncTables, publicKey: string, fetched: Result<seq<Holding>, string>, i: int)
    requires Scan(t, publicKey, fetched).result.Success?
    requires 0 <= i < |fetched.value|
    ensures var o := Scan(t, publicKey, fetched);
            var hs := fetched.value;
            var s := o.result.value[i];
            && (HasMint(hs[i]) ==>
                  var key := BalanceKey(t.wallets[publicKey], s.mint);
                  && s.mint in o.t.tokens
                  && key in o.t.balances.rows
                  && o.t.balances.rows[key].id in o.t.risks
                  && (forall j :: 0 <= j < |EventsOf(hs[i])| ==>
                        EventKey(o.t.balances.rows[key].id, EventsOf(hs[i])[j].0) in o.t.priceEvents))
            && (!HasMint(hs[i]) ==> s.mint == "unknown")
  {
    var hs := fetched.value;
    var w := t.wallets[publicKey];
    if HasMint(hs[i]) {
      var u := ApplyHoldings(t, w, hs).t;
      HoldingsOkAreComplete(t, w, hs);
      ApplyHoldingsEffect(t, w, hs);
      TokenWritesKeys(hs);
      WritesCover(u.balances, w, hs, i);
    }
  }

  // ---------------------------------------------------------------- a holding's own pools

  /** The pool loop never changes the Token table, and reports only mints that are not in it. */
  lemma {:induction false} PoolsMissTokensOnlyIfAbsent(t: SyncTables, ps: seq<PoolDesc>, mint: string)
    requires ApplyPools(t, ps).err == Some(TokenNotFound(mint))
    ensures mint !in t.tokens
    decreases |ps|
  {
    var r0 := ApplyPools(t, ps[..|ps| - 1]);
    if r0.err.Some? {
      PoolsMissTokensOnlyIfAbsent(t, ps[..|ps| - 1], mint);
    }
  }

  /**
   * The Token of a holding is upserted before its pools, so a pool of the
   * holding's own mint always finds it: a holding can only fail for a
   * missing Token that is neither stored nor its own.
   */
  lemma OwnTokenBeforePools(t: SyncTables, walletId: nat, h: Holding, mint: string)
    requires HasMint(h) && ApplyHolding(t, walletId, h).err == Some(TokenNotFound(mint))
    ensures mint !in t.tokens && mint != MintOf(h)
  {
    var t1 := t.(tokens := t.tokens[MintOf(h) := TokenRowOf(h.token.value)]);
    var r2 := ApplyPools(t1, PoolsOf(h));
    if r2.err.Some? {
      PoolsMissTokensOnlyIfAbsent(t1, PoolsOf(h), mint);
    } else {
      var key := BalanceKey(walletId, MintOf(h));
      var bt := WithBalance(r2.t.balances, key, FiguresOf(h));
      EventsRaiseMissingFields(r2.t.(balances := bt), bt.rows[key].id, EventsOf(h));
    }
  }

  lemma {:induction false} EventsRaiseMissingFields(t: SyncTables, balanceId: nat, evs: seq<(string, Option<PriceChange>)>)
    ensures ApplyEvents(t, balanceId, evs).err.Some? ==> ApplyEvents(t, balanceId, evs).err.value.MissingField?
    decreases |evs|
  {
    if evs != [] {
      EventsRaiseMissingFields(t, balanceId, evs[..|evs| - 1]);
    }
  }
}
