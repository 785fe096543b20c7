/**
 * `calculatePnl`: fetch the wallet's profit-and-loss report, append one
 * PnlScan snapshot with a PnlToken child per token entry, and hand the
 * report back unchanged. Snapshots are never updated or removed.
 */
module PnlEngine {
  import opened Wrappers
  import opened Provider
  import opened Ledger

  datatype PnlError =
    | ProviderFailed(reason: string)
    | WalletNotFound(publicKey: string)

  /** The PnlToken row of one `[tokenMint, figures]` entry, snake_case fields renamed to camelCase. */
  function PnlTokenOf(entry: (string, PnlFigures)): PnlTokenRow {
    var f := entry.1;
    PnlTokenRow(entry.0, f.holding, f.held, f.sold, f.realized, f.unrealized, f.total,
                f.total_sold, f.total_invested, f.average_buy_amount, f.current_value, f.cost_basis)
  }

  /** The provider entry a PnlToken row was made from: the reference for what a row must keep. */
  function EntryOf(row: PnlTokenRow): (string, PnlFigures) {
    (row.tokenMint, PnlFigures(row.holding, row.held, row.sold, row.realized, row.unrealized, row.total,
                               row.totalSold, row.totalInvested, row.averageBuyAmount, row.currentValue, row.costBasis))
  }

  /** One PnlToken row per token entry, in entry order, each keeping every figure of its entry. */
  function PnlTokenRows(entries: seq<(string, PnlFigures)>): (r: seq<PnlTokenRow>)
    ensures |r| == |entries|
    ensures forall i :: 0 <= i < |r| ==> EntryOf(r[i]) == entries[i]
  {
    seq(|entries|, i requires 0 <= i < |entries| => PnlTokenOf(entries[i]))
  }

  /** The snapshot history after the call, and what the call returns or raises. */
  datatype PnlOutcome = PnlOutcome(history: PnlHistory, result: Result<PnlData, PnlError>)

  /**
   * `calculatePnl(publicKey)` given the wallet table and what the provider
   * returned: a provider error or an unknown wallet leaves the history as it
   * was; otherwise one snapshot is appended under the next id, for the
   * wallet's id, with the report's summary and one row per token, and the
   * report itself is returned.
   */
  function RecordPnl(h: PnlHistory, wallets: map<string, nat>, publicKey: string,
                     fetched: Result<PnlData, string>): (o: PnlOutcome)
    ensures fetched.Failure? ==> o == PnlOutcome(h, Failure(ProviderFailed(fetched.error)))
    ensures fetched.Success? && publicKey !in wallets ==> o == PnlOutcome(h, Failure(WalletNotFound(publicKey)))
    ensures o.result.Success? <==> fetched.Success? && publicKey in wallets
    ensures o.result.Success? ==>
              && o.result.value == fetched.value
              && |o.history.scans| == |h.scans| + 1
              && o.history.scans[..|h.scans|] == h.scans
              && o.history.nextId == h.nextId + 1
              && var s := o.history.scans[|h.scans|];
                 && s.id == h.nextId
                 && s.walletId == wallets[publicKey]
                 && s.summary == fetched.value.summary
                 && |s.tokens| == |fetched.value.tokens|
                 && (forall i :: 0 <= i < |s.tokens| ==> EntryOf(s.tokens[i]) == fetched.value.tokens[i])
  {
    if fetched.Failure? then PnlOutcome(h, Failure(ProviderFailed(fetched.error)))
    else if publicKey !in wallets then PnlOutcome(h, Failure(WalletNotFound(publicKey)))
    else
      var data := fetched.value;
      var scan := PnlScan(h.nextId, wallets[publicKey], data.summary, PnlTokenRows(data.tokens));
      PnlOutcome(PnlHistory(h.scans + [scan], h.nextId + 1), Success(data))
  }

  /** Recording a snapshot keeps the ids below the generator and increasing. */
  lemma RecordPnlKeepsIntegrity(h: PnlHistory, wallets: map<string, nat>, publicKey: string,
                                fetched: Result<PnlData, string>)
    requires HistoryIntegrity(h)
    ensures HistoryIntegrity(RecordPnl(h, wallets, publicKey, fetched).history)
  {
    var o := RecordPnl(h, wallets, publicKey, fetched);
    if o.result.Success? {
      var s := o.history.scans;
      assert forall i :: 0 <= i < |h.scans| ==> s[i] == h.scans[i];
    }
  }

  /**
   * Snapshots accumulate: after two calls that both succeed the history
   * holds the old snapshots and then two new ones with distinct ids, even
   * for the same wallet and the same report.
   */
  lemma RecordPnlAppends(h: PnlHistory, wallets: map<string, nat>, publicKey: string,
                         first: Result<PnlData, string>, second: Result<PnlData, string>)
    requires HistoryIntegrity(h)
    requires RecordPnl(h, wallets, publicKey, first).result.Success?
    requires RecordPnl(RecordPnl(h, wallets, publicKey, first).history, wallets, publicKey, second).result.Success?
    ensures var h2 := RecordPnl(RecordPnl(h, wallets, publicKey, first).history, wallets, publicKey, second).history;
            && |h2.scans| == |h.scans| + 2
            && h2.scans[..|h.scans|] == h.scans
            && h2.scans[|h.scans|].id != h2.scans[|h.scans| + 1].id
            && h2.scans[|h.scans|].summary == first.value.summary
            && h2.scans[|h.scans| + 1].summary == second.value.summary
  {
    var h1 := RecordPnl(h, wallets, publicKey, first).history;
    var h2 := RecordPnl(h1, wallets, publicKey, second).history;
    assert h2.scans[..|h.scans|] == h1.scans[..|h1.scans|][..|h.scans|];
    assert h2.scans[|h.scans|] == h1.scans[|h.scans|];
  }

  /** The call on the store: only the PnlScan table and its id generator change. */
  method CalculatePnl(db: Database, publicKey: string, fetched: Result<PnlData, string>)
      returns (r: Result<PnlData, PnlError>)
    requires db.Valid()
    modifies db`pnlScans, db`nextPnlScanId
    ensures db.Valid()
    ensures db.SyncState() == old(db.SyncState())
    ensures db.History() == RecordPnl(old(db.History()), db.wallets, publicKey, fetched).history
    ensures r == RecordPnl(old(db.History()), db.wallets, publicKey, fetched).result
  {
    RecordPnlKeepsIntegrity(db.History(), db.wallets, publicKey, fetched);
    if fetched.Failure? {
      return Failure(ProviderFailed(fetched.error));
    }
    var found := db.FindWalletId(publicKey);
    if found.None? {
      return Failure(WalletNotFound(publicKey));
    }
    var data := fetched.value;
    var _ := db.CreatePnlScan(found.value, data.summary, PnlTokenRows(data.tokens));
    r := Success(data);
  }
}
