/**
 * The wallet sync as the log of upserts it performs, in order, including
 * the writes a holding makes before it raises an error. Applying a log
 * twice is applying it once, and a second run of the same scan from the
 * tables the first run left makes the same log and raises the same error:
 * together these give idempotence for every scan, also one that stops
 * part-way.
 */
module SyncLog {
  import opened Wrappers
  import opened Provider
  import opened Upsert
  import opened Ledger
  import opened SyncSpec

  /** One upsert of the sync. */
  datatype Write =
    | TokenWrite(mint: string, tokenRow: TokenRow)
    | PoolWrite(pool: PoolDesc)
    | BalanceWrite(key: BalanceKey, figures: Figures)
    | EventWrite(eventKey: EventKey, pctChange: Value)
    | RiskWrite(balanceId: nat, riskRow: RiskRow)

  function Exec(s: SyncTables, w: Write): SyncTables {
    match w
    case TokenWrite(m, row) => s.(tokens := s.tokens[m := row])
    case PoolWrite(p) => s.(pools := WithPool(s.pools, p))
    case BalanceWrite(k, f) => s.(balances := WithBalance(s.balances, k, f))
    case EventWrite(k, v) => s.(priceEvents := s.priceEvents[k := v])
    case RiskWrite(id, row) => s.(risks := s.risks[id := row])
  }

  function ExecAll(s: SyncTables, ws: seq<Write>): SyncTables
    decreases |ws|
  {
    if ws == [] then s else Exec(ExecAll(s, ws[..|ws| - 1]), ws[|ws| - 1])
  }

  // ---------------------------------------------------------------- a log, table by table

  function TokenPart(ws: seq<Write>): seq<(string, TokenRow)>
    decreases |ws|
  {
    if ws == [] then []
    else
      var w := ws[|ws| - 1];
      if w.TokenWrite? then TokenPart(ws[..|ws| - 1]) + [(w.mint, w.tokenRow)] else TokenPart(ws[..|ws| - 1])
  }

  function PoolPart(ws: seq<Write>): seq<PoolDesc>
    decreases |ws|
  {
    if ws == [] then []
    else
      var w := ws[|ws| - 1];
      if w.PoolWrite? then PoolPart(ws[..|ws| - 1]) + [w.pool] else PoolPart(ws[..|ws| - 1])
  }

  function BalancePart(ws: seq<Write>): seq<(BalanceKey, Figures)>
    decreases |ws|
  {
    if ws == [] then []
    else
      var w := ws[|ws| - 1];
      if w.BalanceWrite? then BalancePart(ws[..|ws| - 1]) + [(w.key, w.figures)] else BalancePart(ws[..|ws| - 1])
  }

  function EventPart(ws: seq<Write>): seq<(EventKey, Value)>
    decreases |ws|
  {
    if ws == [] then []
    else
      var w := ws[|ws| - 1];
      if w.EventWrite? then EventPart(ws[..|ws| - 1]) + [(w.eventKey, w.pctChange)] else EventPart(ws[..|ws| - 1])
  }

  function RiskPart(ws: seq<Write>): seq<(nat, RiskRow)>
    decreases |ws|
  {
    if ws == [] then []
    else
      var w := ws[|ws| - 1];
      if w.RiskWrite? then RiskPart(ws[..|ws| - 1]) + [(w.balanceId, w.riskRow)] else RiskPart(ws[..|ws| - 1])
  }

  /** The tables after a log, written table by table. */
  function Closed(s: SyncTables, ws: seq<Write>): SyncTables {
    SyncTables(
      s.wallets,
      SetAll(s.tokens, TokenPart(ws)),
      FoldPools(s.pools, PoolPart(ws)),
      FoldBalances(s.balances, BalancePart(ws)),
      SetAll(s.priceEvents, EventPart(ws)),
      SetAll(s.risks, RiskPart(ws)))
  }

  lemma TokenWriteStep(s: SyncTables, ws: seq<Write>)
    requires ws != [] && ws[|ws| - 1].TokenWrite?
    ensures Closed(s, ws) == Exec(Closed(s, ws[..|ws| - 1]), ws[|ws| - 1])
  {
    var init, w := ws[..|ws| - 1], ws[|ws| - 1];
    var tp := TokenPart(ws);
    assert tp[..|tp| - 1] == TokenPart(init) && tp[|tp| - 1] == (w.mint, w.tokenRow);
    assert PoolPart(ws) == PoolPart(init) && BalancePart(ws) == BalancePart(init);
    assert EventPart(ws) == EventPart(init) && RiskPart(ws) == RiskPart(init);
  }

  lemma PoolWriteStep(s: SyncTables, ws: seq<Write>)
    requires ws != [] && ws[|ws| - 1].PoolWrite?
    ensures Closed(s, ws) == Exec(Closed(s, ws[..|ws| - 1]), ws[|ws| - 1])
  {
    var init, w := ws[..|ws| - 1], ws[|ws| - 1];
    var pp := PoolPart(ws);
    assert pp[..|pp| - 1] == PoolPart(init) && pp[|pp| - 1] == w.pool;
    assert TokenPart(ws) == TokenPart(init) && BalancePart(ws) == BalancePart(init);
    assert EventPart(ws) == EventPart(init) && RiskPart(ws) == RiskPart(init);
  }

  lemma BalanceWriteStep(s: SyncTables, ws: seq<Write>)
    requires ws != [] && ws[|ws| - 1].BalanceWrite?
    ensures Closed(s, ws) == Exec(Closed(s, ws[..|ws| - 1]), ws[|ws| - 1])
  {
    var init, w := ws[..|ws| - 1], ws[|ws| - 1];
    var bp := BalancePart(ws);
    assert bp[..|bp| - 1] == BalancePart(init) && bp[|bp| - 1] == (w.key, w.figures);
    assert TokenPart(ws) == TokenPart(init) && PoolPart(ws) == PoolPart(init);
    assert EventPart(ws) == EventPart(init) && RiskPart(ws) == RiskPart(init);
  }

  lemma EventWriteStep(s: SyncTables, ws: seq<Write>)
    requires ws != [] && ws[|ws| - 1].EventWrite?
    ensures Closed(s, ws) == Exec(Closed(s, ws[..|ws| - 1]), ws[|ws| - 1])
  {
    var init, w := ws[..|ws| - 1], ws[|ws| - 1];
    var ep := EventPart(ws);
    assert ep[..|ep| - 1] == EventPart(init) && ep[|ep| - 1] == (w.eventKey, w.pctChange);
    assert TokenPart(ws) == TokenPart(init) && PoolPart(ws) == PoolPart(init);
    assert BalancePart(ws) == BalancePart(init) && RiskPart(ws) == RiskPart(init);
  }

  lemma RiskWriteStep(s: SyncTables, ws: seq<Write>)
    requires ws != [] && ws[|ws| - 1].RiskWrite?
    ensures Closed(s, ws) == Exec(Closed(s, ws[..|ws| - 1]), ws[|ws| - 1])
  {
    var init, w := ws[..|ws| - 1], ws[|ws| - 1];
    var rp := RiskPart(ws);
    assert rp[..|rp| - 1] == RiskPart(init) && rp[|rp| - 1] == (w.balanceId, w.riskRow);
    assert TokenPart(ws) == TokenPart(init) && PoolPart(ws) == PoolPart(init);
    assert BalancePart(ws) == BalancePart(init) && EventPart(ws) == EventPart(init);
  }

  /** Applying a log upserts each table with that table's part of the log, in order. */
  lemma {:induction false} ExecAllTables(s: SyncTables, ws: seq<Write>)
    ensures ExecAll(s, ws) == Closed(s, ws)
    decreases |ws|
  {
    if ws != [] {
      ExecAllTables(s, ws[..|ws| - 1]);
      match ws[|ws| - 1]
      case TokenWrite(_, _) => TokenWriteStep(s, ws);
      case PoolWrite(_) => PoolWriteStep(s, ws);
      case BalanceWrite(_, _) => BalanceWriteStep(s, ws);
      case EventWrite(_, _) => EventWriteStep(s, ws);
      case RiskWrite(_, _) => RiskWriteStep(s, ws);
    }
  }

  /** Every write is a keyed upsert, so applying the same log again changes nothing. */
  lemma ExecAllIdempotent(s: SyncTables, ws: seq<Write>)
    ensures ExecAll(ExecAll(s, ws), ws) == ExecAll(s, ws)
  {
    var once := ExecAll(s, ws);
    ExecAllTables(s, ws);
    ExecAllTables(once, ws);
    SetAllIdempotent(s.tokens, TokenPart(ws));
    FoldPoolsIdempotent(s.pools, PoolPart(ws));
    FoldBalancesIdempotent(s.balances, BalancePart(ws));
    SetAllIdempotent(s.priceEvents, EventPart(ws));
    SetAllIdempotent(s.risks, RiskPart(ws));
  }

  lemma {:induction false} ExecAllSplit(s: SyncTables, a: seq<Write>, b: seq<Write>)
    ensures ExecAll(s, a + b) == ExecAll(ExecAll(s, a), b)
    decreases |b|
  {
    if b == [] {
      assert a + b == a;
    } else {
      assert (a + b)[..|a + b| - 1] == a + b[..|b| - 1];
      ExecAllSplit(s, a, b[..|b| - 1]);
    }
  }

  lemma ExecAllSnoc(s: SyncTables, a: seq<Write>, w: Write)
    ensures ExecAll(s, a + [w]) == Exec(ExecAll(s, a), w)
  {
    assert (a + [w])[..|a + [w]| - 1] == a;
  }

  // ---------------------------------------------------------------- the logs of the loops

  /** The pool upserts the pool loop performs before it stops. */
  function PoolLog(t: SyncTables, ps: seq<PoolDesc>): seq<Write>
    decreases |ps|
  {
    if ps == [] then []
    else
      var r0 := ApplyPools(t, ps[..|ps| - 1]);
      PoolLog(t, ps[..|ps| - 1]) +
      (if r0.err.None? && PoolStep(r0.t, ps[|ps| - 1]).err.None? then [PoolWrite(ps[|ps| - 1])] else [])
  }

  /** No event entry is null, so the event loop runs to the end. */
  predicate EventsPresent(evs: seq<(string, Option<PriceChange>)>)
    decreases |evs|
  {
    evs == [] || (EventsPresent(evs[..|evs| - 1]) && evs[|evs| - 1].1.Some?)
  }

  /** The price-event upserts the event loop performs before it stops: one per entry up to the first null one. */
  function EventLog(balanceId: nat, evs: seq<(string, Option<PriceChange>)>): seq<Write>
    decreases |evs|
  {
    if evs == [] then []
    else
      var e := evs[|evs| - 1];
      EventLog(balanceId, evs[..|evs| - 1]) +
      (if EventsPresent(evs) then [EventWrite(EventKey(balanceId, e.0), e.1.value.priceChangePercentage)] else [])
  }

  /** The upserts of `ApplyBalance`, up to the error if there is one. */
  function BalanceLog(t: SyncTables, walletId: nat, mint: string, h: Holding): seq<Write> {
    var key := BalanceKey(walletId, mint);
    var bt := WithBalance(t.balances, key, FiguresOf(h));
    [BalanceWrite(key, FiguresOf(h))] + EventLog(bt.rows[key].id, EventsOf(h)) +
    (if !EventsPresent(EventsOf(h)) || h.risk.None? then []
     else [RiskWrite(bt.rows[key].id, RiskRowOf(h.risk.value))])
  }

  /** The upserts of one holding, in source order, up to the error if there is one. */
  function HoldingLog(t: SyncTables, walletId: nat, h: Holding): seq<Write> {
    if !HasMint(h) then []
    else
      var m := MintOf(h);
      var t1 := t.(tokens := t.tokens[m := TokenRowOf(h.token.value)]);
      var r2 := ApplyPools(t1, PoolsOf(h));
      [TokenWrite(m, TokenRowOf(h.token.value))] + PoolLog(t1, PoolsOf(h)) +
      (if r2.err.Some? then [] else BalanceLog(r2.t, walletId, m, h))
  }

  function HoldingsLog(t: SyncTables, walletId: nat, hs: seq<Holding>): seq<Write>
    decreases |hs|
  {
    if hs == [] then []
    else
      var r0 := ApplyHoldings(t, walletId, hs[..|hs| - 1]);
      HoldingsLog(t, walletId, hs[..|hs| - 1]) +
      (if r0.err.Some? then [] else HoldingLog(r0.t, walletId, hs[|hs| - 1]))
  }

  // ---------------------------------------------------------------- each loop applies its log

  lemma {:induction false} PoolsAsLog(t: SyncTables, ps: seq<PoolDesc>)
    ensures ApplyPools(t, ps).t == ExecAll(t, PoolLog(t, ps))
    decreases |ps|
  {
    if ps != [] {
      var init, p := ps[..|ps| - 1], ps[|ps| - 1];
      PoolsAsLog(t, init);
      var r0 := ApplyPools(t, init);
      if r0.err.None? && PoolStep(r0.t, p).err.None? {
        ExecAllSnoc(t, PoolLog(t, init), PoolWrite(p));
      } else {
        assert PoolLog(t, ps) == PoolLog(t, init);
      }
    }
  }

  /** The event loop raises an error exactly when an entry is null, and the error is always the same. */
  lemma {:induction false} EventsFailIff(t: SyncTables, balanceId: nat, evs: seq<(string, Option<PriceChange>)>)
    ensures ApplyEvents(t, balanceId, evs).err.None? <==> EventsPresent(evs)
    ensures ApplyEvents(t, balanceId, evs).err.Some? ==>
              ApplyEvents(t, balanceId, evs).err == Some(MissingField("priceChangePercentage"))
    decreases |evs|
  {
    if evs != [] {
      EventsFailIff(t, balanceId, evs[..|evs| - 1]);
    }
  }

  /** One more entry after present ones writes its PriceEvent; after a null one the loop has stopped. */
  lemma EventsRunStep(t: SyncTables, balanceId: nat, evs: seq<(string, Option<PriceChange>)>)
    requires evs != []
    ensures var r0, e := ApplyEvents(t, balanceId, evs[..|evs| - 1]), evs[|evs| - 1];
            EventsPresent(evs) ==>
              ApplyEvents(t, balanceId, evs).t ==
                r0.t.(priceEvents := r0.t.priceEvents[EventKey(balanceId, e.0) := e.1.value.priceChangePercentage])
    ensures !EventsPresent(evs) ==> ApplyEvents(t, balanceId, evs).t == ApplyEvents(t, balanceId, evs[..|evs| - 1]).t
  {
    EventsFailIff(t, balanceId, evs[..|evs| - 1]);
  }

  lemma {:induction false} EventsAsLog(t: SyncTables, balanceId: nat, evs: seq<(string, Option<PriceChange>)>)
    ensures ApplyEvents(t, balanceId, evs).t == ExecAll(t, EventLog(balanceId, evs))
    decreases |evs|
  {
    if evs != [] {
      var init, e := evs[..|evs| - 1], evs[|evs| - 1];
      EventsAsLog(t, balanceId, init);
      EventsRunStep(t, balanceId, evs);
      if EventsPresent(evs) {
        ExecAllSnoc(t, EventLog(balanceId, init), EventWrite(EventKey(balanceId, e.0), e.1.value.priceChangePercentage));
      } else {
        assert EventLog(balanceId, evs) == EventLog(balanceId, init);
      }
    }
  }

  lemma BalanceAsLog(t: SyncTables, walletId: nat, mint: string, h: Holding)
    ensures ApplyBalance(t, walletId, mint, h).t == ExecAll(t, BalanceLog(t, walletId, mint, h))
  {
    var key := BalanceKey(walletId, mint);
    var bt := WithBalance(t.balances, key, FiguresOf(h));
    var t2 := t.(balances := bt);
    var id := bt.rows[key].id;
    var bw := BalanceWrite(key, FiguresOf(h));
    var el := EventLog(id, EventsOf(h));
    EventsFailIff(t2, id, EventsOf(h));
    assert ExecAll(t, [bw]) == t2 by {
      assert [bw][..0] == [];
    }
    EventsAsLog(t2, id, EventsOf(h));
    ExecAllSplit(t, [bw], el);
    if !EventsPresent(EventsOf(h)) || h.risk.None? {
      assert BalanceLog(t, walletId, mint, h) == [bw] + el;
    } else {
      var rw := RiskWrite(id, RiskRowOf(h.risk.value));
      assert BalanceLog(t, walletId, mint, h) == [bw] + el + [rw];
      ExecAllSnoc(t, [bw] + el, rw);
    }
  }

  lemma HoldingAsLog(t: SyncTables, walletId: nat, h: Holding)
    ensures ApplyHolding(t, walletId, h).t == ExecAll(t, HoldingLog(t, walletId, h))
  {
    if HasMint(h) {
      var m := MintOf(h);
      var tw := TokenWrite(m, TokenRowOf(h.token.value));
      var t1 := t.(tokens := t.tokens[m := TokenRowOf(h.token.value)]);
      assert ExecAll(t, [tw]) == t1 by {
        assert [tw][..0] == [];
      }
      var pl := PoolLog(t1, PoolsOf(h));
      PoolsAsLog(t1, PoolsOf(h));
      ExecAllSplit(t, [tw], pl);
      var r2 := ApplyPools(t1, PoolsOf(h));
      if r2.err.Some? {
        assert HoldingLog(t, walletId, h) == [tw] + pl;
      } else {
        BalanceAsLog(r2.t, walletId, m, h);
        ExecAllSplit(t, [tw] + pl, BalanceLog(r2.t, walletId, m, h));
      }
    }
  }

  /** The tables a scan leaves, error or not, are its log applied to the tables it started from. */
  lemma {:induction false} HoldingsAsLog(t: SyncTables, walletId: nat, hs: seq<Holding>)
    ensures ApplyHoldings(t, walletId, hs).t == ExecAll(t, HoldingsLog(t, walletId, hs))
    decreases |hs|
  {
    if hs != [] {
      var init, h := hs[..|hs| - 1], hs[|hs| - 1];
      HoldingsAsLog(t, walletId, init);
      var r0 := ApplyHoldings(t, walletId, init);
      if r0.err.Some? {
        assert HoldingsLog(t, walletId, hs) == HoldingsLog(t, walletId, init);
      } else {
        HoldingAsLog(r0.t, walletId, h);
        ExecAllSplit(t, HoldingsLog(t, walletId, init), HoldingLog(r0.t, walletId, h));
      }
    }
  }

  // ---------------------------------------------------------------- a second run makes the same log

  /** `s` has the Token, Pool and Balance keys of `f`, with the same Balance ids. */
  ghost predicate SameKeys(s: SyncTables, f: SyncTables) {
    && s.tokens.Keys == f.tokens.Keys
    && s.pools.Keys == f.pools.Keys
    && s.balances.rows.Keys == f.balances.rows.Keys
    && forall k :: k in s.balances.rows ==> s.balances.rows[k].id == f.balances.rows[k].id
  }

  /**
   * A pool step from `y`, whose keys are those of the final tables `f`, does
   * what the same step did from `x` on the way to `f`: a pool whose step
   * failed there stopped the run at `f`, and one whose step succeeded found
   * its id or mint, both of which `f` keeps.
   */
  lemma PoolStepReplay(x: SyncTables, y: SyncTables, p: PoolDesc, f: SyncTables)
    requires Extends(PoolStep(x, p).t, f)
    requires PoolStep(x, p).err.Some? ==> x == f
    requires SameKeys(y, f)
    ensures PoolStep(y, p).err == PoolStep(x, p).err
    ensures SameKeys(PoolStep(y, p).t, f)
  {
    ExtendsTransitive(x, PoolStep(x, p).t, f);
    if Writable(p) && PoolStep(x, p).err.None? {
      assert PoolIdOf(p) in f.pools;
    }
  }

  lemma {:induction false} PoolsReplay(a: SyncTables, b: SyncTables, ps: seq<PoolDesc>, f: SyncTables)
    requires Extends(ApplyPools(a, ps).t, f)
    requires ApplyPools(a, ps).err.Some? ==> ApplyPools(a, ps).t == f
    requires SameKeys(b, f)
    ensures ApplyPools(b, ps).err == ApplyPools(a, ps).err
    ensures PoolLog(b, ps) == PoolLog(a, ps)
    ensures SameKeys(ApplyPools(b, ps).t, f)
    decreases |ps|
  {
    if ps != [] {
      var init, p := ps[..|ps| - 1], ps[|ps| - 1];
      var ra := ApplyPools(a, init);
      if ra.err.Some? {
        PoolsReplay(a, b, init, f);
      } else {
        var sa := PoolStep(ra.t, p);
        assert ApplyPools(a, ps) == sa;
        ExtendsTransitive(ra.t, sa.t, f);
        PoolsReplay(a, b, init, f);
        PoolStepReplay(ra.t, ApplyPools(b, init).t, p, f);
      }
    }
  }

  lemma BalanceReplay(x: SyncTables, y: SyncTables, walletId: nat, mint: string, h: Holding, f: SyncTables)
    requires Extends(ApplyBalance(x, walletId, mint, h).t, f)
    requires SameKeys(y, f)
    ensures ApplyBalance(y, walletId, mint, h).err == ApplyBalance(x, walletId, mint, h).err
    ensures BalanceLog(y, walletId, mint, h) == BalanceLog(x, walletId, mint, h)
    ensures SameKeys(ApplyBalance(y, walletId, mint, h).t, f)
  {
    var key := BalanceKey(walletId, mint);
    var bx := WithBalance(x.balances, key, FiguresOf(h));
    var yb := WithBalance(y.balances, key, FiguresOf(h));
    var x2 := x.(balances := bx);
    assert Extends(x2, ApplyBalance(x, walletId, mint, h).t);
    ExtendsTransitive(x2, ApplyBalance(x, walletId, mint, h).t, f);
    assert yb.rows[key].id == bx.rows[key].id;
    EventsFailIff(x2, bx.rows[key].id, EventsOf(h));
    EventsFailIff(y.(balances := yb), bx.rows[key].id, EventsOf(h));
  }

  /** The tables once a holding's own Token row is written. */
  function WithOwnToken(t: SyncTables, h: Holding): SyncTables
    requires HasMint(h)
  {
    t.(tokens := t.tokens[MintOf(h) := TokenRowOf(h.token.value)])
  }

  lemma HoldingReplay(a: SyncTables, b: SyncTables, walletId: nat, h: Holding, f: SyncTables)
    requires Extends(ApplyHolding(a, walletId, h).t, f)
    requires ApplyHolding(a, walletId, h).err.Some? ==> ApplyHolding(a, walletId, h).t == f
    requires SameKeys(b, f)
    ensures ApplyHolding(b, walletId, h).err == ApplyHolding(a, walletId, h).err
    ensures HoldingLog(b, walletId, h) == HoldingLog(a, walletId, h)
    ensures SameKeys(ApplyHolding(b, walletId, h).t, f)
  {
    if HasMint(h) {
      if ApplyPools(WithOwnToken(a, h), PoolsOf(h)).err.Some? {
        StoppedHoldingReplay(a, b, walletId, h, f);
      } else {
        StoredHoldingReplay(a, b, walletId, h, f);
      }
    }
  }

  /** `HoldingReplay` for a holding whose pool loop raised an error. */
  lemma StoppedHoldingReplay(a: SyncTables, b: SyncTables, walletId: nat, h: Holding, f: SyncTables)
    requires HasMint(h) && ApplyPools(WithOwnToken(a, h), PoolsOf(h)).err.Some?
    requires ApplyHolding(a, walletId, h).t == f
    requires SameKeys(b, f)
    ensures ApplyHolding(b, walletId, h).err == ApplyHolding(a, walletId, h).err
    ensures HoldingLog(b, walletId, h) == HoldingLog(a, walletId, h)
    ensures SameKeys(ApplyHolding(b, walletId, h).t, f)
  {
    var a1, b1 := WithOwnToken(a, h), WithOwnToken(b, h);
    assert ApplyHolding(a, walletId, h) == ApplyPools(a1, PoolsOf(h));
    assert SameKeys(b1, f);
    PoolsReplay(a1, b1, PoolsOf(h), f);
  }

  /** `HoldingReplay` for a holding whose pools were all stored. */
  lemma StoredHoldingReplay(a: SyncTables, b: SyncTables, walletId: nat, h: Holding, f: SyncTables)
    requires HasMint(h) && ApplyPools(WithOwnToken(a, h), PoolsOf(h)).err.None?
    requires Extends(ApplyHolding(a, walletId, h).t, f)
    requires SameKeys(b, f)
    ensures ApplyHolding(b, walletId, h).err == ApplyHolding(a, walletId, h).err
    ensures HoldingLog(b, walletId, h) == HoldingLog(a, walletId, h)
    ensures SameKeys(ApplyHolding(b, walletId, h).t, f)
  {
    var a1, b1 := WithOwnToken(a, h), WithOwnToken(b, h);
    var ra := ApplyPools(a1, PoolsOf(h));
    ExtendsTransitive(ra.t, ApplyBalance(ra.t, walletId, MintOf(h), h).t, f);
    assert SameKeys(b1, f);
    PoolsReplay(a1, b1, PoolsOf(h), f);
    BalanceReplay(ra.t, ApplyPools(b1, PoolsOf(h)).t, walletId, MintOf(h), h, f);
  }

  lemma {:induction false} HoldingsReplay(a: SyncTables, b: SyncTables, walletId: nat, hs: seq<Holding>, f: SyncTables)
    requires Extends(ApplyHoldings(a, walletId, hs).t, f)
    requires ApplyHoldings(a, walletId, hs).err.Some? ==> ApplyHoldings(a, walletId, hs).t == f
    requires SameKeys(b, f)
    ensures ApplyHoldings(b, walletId, hs).err == ApplyHoldings(a, walletId, hs).err
    ensures HoldingsLog(b, walletId, hs) == HoldingsLog(a, walletId, hs)
    ensures SameKeys(ApplyHoldings(b, walletId, hs).t, f)
    decreases |hs|
  {
    if hs != [] {
      var init, h := hs[..|hs| - 1], hs[|hs| - 1];
      var ra := ApplyHoldings(a, walletId, init);
      if ra.err.Some? {
        HoldingsReplay(a, b, walletId, init, f);
      } else {
        var sa := ApplyHolding(ra.t, walletId, h);
        assert ApplyHoldings(a, walletId, hs) == sa;
        ExtendsTransitive(ra.t, sa.t, f);
        HoldingsReplay(a, b, walletId, init, f);
        HoldingReplay(ra.t, ApplyHoldings(b, walletId, init).t, walletId, h, f);
      }
    }
  }

  // ---------------------------------------------------------------- idempotence

  /**
   * Running the same scan again on the tables a scan left, with the same
   * provider payload, leaves them as they are and returns the same result or
   * raises the same error; this holds for a scan stopped part-way as well.
   */
  lemma ScanIdempotent(t: SyncTables, publicKey: string, fetched: Result<seq<Holding>, string>)
    ensures Scan(Scan(t, publicKey, fetched).t, publicKey, fetched) == Scan(t, publicKey, fetched)
  {
    if fetched.Success? && publicKey in t.wallets {
      var w, hs := t.wallets[publicKey], fetched.value;
      var f := ApplyHoldings(t, w, hs).t;
      HoldingsReplay(t, f, w, hs, f);
      HoldingsAsLog(t, w, hs);
      HoldingsAsLog(f, w, hs);
      ExecAllIdempotent(t, HoldingsLog(t, w, hs));
    }
  }
}
