# Warchest wallet sync, PnL snapshots and key import, in Dafny

This project models the core of `warchest/src/core/solana.js`: the part of the
Warchest wallet manager that reconciles a wallet's holdings from the Solana
Tracker data API into the Prisma ledger, records PnL snapshots, and imports
private keys. The model has three parts.

- **Wallet sync (`scanAccounts`).** Holdings are read in provider order. A
  holding without a token mint is skipped. For every other holding the sync
  upserts its Token, each usable Pool, the Balance keyed by (wallet id, mint),
  one PriceEvent per interval, and the RiskProfile of that balance. It then
  returns a flattened summary with one entry per holding. The ledger is the
  class `Ledger.Database`, with one field per table. `SyncEngine` holds the
  methods that update it loop by loop. Each method is proved equal to a fold
  in `SyncSpec`. The lemmas in `SyncLemmas` and `SyncReplay` state what the
  folds guarantee:
  - foreign keys and generated ids stay consistent, even after a scan that
    fails part-way;
  - skipped holdings write nothing;
  - the Token table has one row per mint, holding the data of the last
    holding with that mint;
  - every summary entry is backed by rows in the tables;
  - the holding's own Token is upserted before its pools;
  - a scan returns its summary exactly when every holding with a mint has a
    risk, complete usable pools and non-null event entries, and every pool it
    creates finds its Token;
  - running the same scan again on the tables it left, with the same payload,
    changes nothing and gives the same result or the same error, even after
    a scan that stopped part-way (`SyncLog`, which replays a scan as the log
    of upserts it performed).
- **PnL snapshot (`calculatePnl`).** One PnlScan, with one PnlToken per token
  entry, is appended to an append-only history, and the report is returned
  unchanged (`PnlEngine`).
- **Key import (`importWalletFlexible`, `importWallet`).** The input is read
  as a JSON key file, then as 128 hex digits of either case, then as base58.
  The key must be exactly 64 bytes. It is rebuilt from its two 32-byte halves,
  re-encoded in base58 and imported. The keychain receives lower-case hex
  (`KeyImport`).

Provider values that the code only passes through are the abstract type
`Provider.Value`: amounts, prices, percentages, counters, dates and risk lists.
A JavaScript string that may be missing or empty is an `Option<string>`.
`Truthy` and `OrNull` give the `||` fallbacks their JavaScript meaning.

Three behaviours of the code are easy to miss when reading its comments, and
the model keeps them as the code has them:

- **Skipped holdings stay in the summary.** The summary contains every
  holding, skipped ones included, under the mint `"unknown"`. It does not
  drop them.
- **Some missing sub-records abort the scan.** The sync reads these without
  a null check, so a missing one throws and stops the scan:
  - a usable pool's `liquidity`, `price` or `marketCap`;
  - a null `events` entry;
  - a holding's `risk`.

  The writes made before the error stay, because the upserts share no
  transaction. `SyncSpec.ScanError.MissingField` is this error.
- **A new pool can fail on its token.** Creating a pool connects it to the
  Token named by its `tokenAddress`. Only the holding's own Token is upserted
  first, so a new pool that names another, unknown mint fails the scan with
  `TokenNotFound`.

Calls into code outside the model are parameters:

- the data API's responses (`fetched`);
- the file system and `JSON.parse`, the `bs58` codec, and the key-pair
  signer's address derivation, all as the function-valued fields of
  `KeyImport.KeyEnv`.

## Model

| member | source | states |
|---|---|---|
| Provider.OrNull | warchest/src/core/solana.js:174-176 | `s \|\| null`: the result is present exactly when the string is present and non-empty, and is then the string itself |
| Provider.OrElse | warchest/src/core/solana.js:304-306 | `s \|\| fallback`: the string when it is present and non-empty, the fallback otherwise |
| Upsert.SetAll | warchest/src/core/solana.js:168-187 | a sequence of keyed upserts leaves exactly the old keys plus the written keys |
| Upsert.SetAllOverrides | warchest/src/core/solana.js:168-187 | upserts override stored rows: the result is the old table overwritten by the rows the writes alone would create |
| Upsert.SetAllLastWins | warchest/src/core/solana.js:168-187 | a key written several times holds the value of its last write |
| Upsert.SetAllUntouched | warchest/src/core/solana.js:168-187 | a stored key that no write names keeps its row |
| Upsert.SetAllSplit | warchest/src/core/solana.js:162-187 | upserting `a + b` is upserting `a` and then `b` |
| Upsert.SetAllIdempotent | warchest/src/core/solana.js:168-187 | replaying the same upserts leaves the table unchanged |
| Ledger.WithPool | warchest/src/core/solana.js:196-237 | a Pool upsert by poolId: a skipped pool changes nothing; an existing row keeps tokenMint, market, quoteToken, decimals and createdAt and takes the new live columns; a new row takes the pool's identity and live columns; other rows are unchanged |
| Ledger.FoldPools | warchest/src/core/solana.js:190-238 | after a holding's pools the Pool table has the old ids plus the ids of the written pools, and no stored pool's identity columns change |
| Ledger.FoldPoolsFirstIdent | warchest/src/core/solana.js:196-222 | a Pool row created by a run of upserts keeps the identity columns of the first written pool with that id |
| Ledger.FoldPoolsLive | warchest/src/core/solana.js:223-236 | the live columns of the Pool table are the old ones overwritten by each written pool's live columns in order |
| Ledger.FoldPoolsSplit | warchest/src/core/solana.js:190-238 | the pools of two holdings upserted together equal the first holding's pools and then the second's |
| Ledger.FoldPoolsIdempotent | warchest/src/core/solana.js:196-237 | upserting the same pools again leaves the Pool table unchanged |
| Ledger.PoolTablesEqual | warchest/src/core/solana.js:196-237 | a Pool row is its identity columns and its live columns: tables that agree on both are equal |
| Ledger.WithBalance | warchest/src/core/solana.js:241-261 | a Balance upsert keyed by (walletId, mint): the row takes the new figures; an existing row keeps its id and the id generator does not move; a new row gets the next id |
| Ledger.FoldBalances | warchest/src/core/solana.js:241-261 | Balance upserts keep every stored id, add exactly the written keys, and create no id when every key is already stored |
| Ledger.FoldBalancesFigures | warchest/src/core/solana.js:253-260 | the Balance figures are the old ones overwritten by the written figures: re-upserting overwrites instead of accumulating |
| Ledger.FoldBalancesIdempotent | warchest/src/core/solana.js:241-261 | replaying the same Balance upserts creates no row, keeps every id and changes nothing |
| Ledger.ExtendsTransitive | warchest/src/core/solana.js:162-300 | what a sync never takes back (wallets, stored rows, pool identities, balance ids) is kept across successive steps |
| Ledger.Database.FindWalletId | warchest/src/core/solana.js:155-158 | the wallet lookup by publicKey finds an id exactly when the wallet is stored, and then its id |
| Ledger.Database.UpsertToken | warchest/src/core/solana.js:168-187 | `token.upsert` by mint: the Token table gets the row at the mint and nothing else changes |
| Ledger.Database.UpsertPool | warchest/src/core/solana.js:196-237 | `pool.upsert` by poolId: an existing row takes the live columns; a new row is created only when the Token it connects to exists, and the call fails otherwise |
| Ledger.Database.UpsertBalance | warchest/src/core/solana.js:241-261 | `balance.upsert` changes the table as `WithBalance` and returns the id of the row at the key |
| Ledger.Database.UpsertPriceEvent | warchest/src/core/solana.js:265-280 | `priceEvent.upsert` by (balanceId, interval) sets that one row |
| Ledger.Database.UpsertRiskProfile | warchest/src/core/solana.js:284-299 | `riskProfile.upsert` by balanceId sets that one row |
| Ledger.Database.CreatePnlScan | warchest/src/core/solana.js:341-370 | `pnlScan.create` appends one snapshot with its token rows under the next id and advances the id |
| SyncSpec.PoolStep | warchest/src/core/solana.js:190-237 | one pool: a pool without poolId or tokenAddress leaves the tables unchanged with no error; a usable pool fails exactly when liquidity, price or marketCap is missing (`MissingField` naming the first) or when it is new and its Token is absent (`TokenNotFound` with its mint); otherwise the `WithPool` upsert; only the Pool table changes and a failed step changes nothing |
| SyncSpec.ApplyPools | warchest/src/core/solana.js:190-238 | the pool loop changes only the Pool table, keeps what it extends, and equals `FoldPools` when no pool fails |
| SyncSpec.ApplyEvents | warchest/src/core/solana.js:264-281 | the event loop changes only the PriceEvent table and, without error, upserts one row per entry keyed by (balanceId, interval) |
| SyncSpec.ApplyBalance | warchest/src/core/solana.js:240-299 | the Balance, price-event and RiskProfile upserts of a holding leave wallets, Tokens and Pools unchanged, store the Balance key and only extend the tables |
| SyncSpec.ApplyHolding | warchest/src/core/solana.js:162-299 | one holding only extends the tables: skip without a mint, else Token, pools, Balance, events, RiskProfile in that order |
| SyncSpec.ApplyHoldings | warchest/src/core/solana.js:162-300 | the holding loop only extends the tables and stops at the first error |
| SyncSpec.SummaryOf | warchest/src/core/solana.js:303-316 | a summary entry: the mint or `"unknown"`, the symbol or `"N/A"`, the name or else the symbol or else `"Unknown"`; the other fields are copied from the holding |
| SyncSpec.Summaries | warchest/src/core/solana.js:303-316 | one summary entry per holding, skipped ones included, in provider order |
| SyncSpec.Scan | warchest/src/core/solana.js:148-323 | a provider error or an unknown wallet fails with no write; otherwise the tables are those the holding loop leaves, the summary is returned exactly when the loop raised no error, and the loop's error is raised otherwise; the tables are only extended |
| SyncLemmas.ApplyHoldingsStops | warchest/src/core/solana.js:162-300 | once a holding raises an error, the later holdings change nothing |
| SyncLemmas.ApplyPoolsStops | warchest/src/core/solana.js:190-238 | once a pool raises an error, the later pools change nothing |
| SyncLemmas.ApplyEventsStops | warchest/src/core/solana.js:264-281 | once an event entry raises an error, the later entries change nothing |
| SyncLemmas.PoolStepKeepsIntegrity | warchest/src/core/solana.js:196-237 | a pool upsert keeps every pool pointing at a stored Token |
| SyncLemmas.ApplyPoolsKeepsIntegrity | warchest/src/core/solana.js:190-238 | the pool loop keeps the ledger's foreign keys and ids consistent, even when it fails part-way |
| SyncLemmas.BalanceIdsGrow | warchest/src/core/solana.js:241-261 | a Balance upsert loses no balance id and makes the upserted row's id a balance id |
| SyncLemmas.WithBalanceKeepsIntegrity | warchest/src/core/solana.js:241-261 | a Balance upsert for a stored Token and a known wallet keeps ids distinct and below the generator |
| SyncLemmas.ApplyEventsKeepsIntegrity | warchest/src/core/solana.js:264-281 | price events written for a stored balance keep every PriceEvent attached to a Balance |
| SyncLemmas.ApplyBalanceKeepsIntegrity | warchest/src/core/solana.js:240-299 | the Balance, events and RiskProfile of a holding whose Token is stored keep all foreign keys and ids consistent |
| SyncLemmas.ApplyHoldingKeepsIntegrity | warchest/src/core/solana.js:162-299 | one holding of a known wallet keeps all foreign keys and ids consistent, whether it succeeds or fails |
| SyncLemmas.ApplyHoldingsKeepIntegrity | warchest/src/core/solana.js:162-300 | the holding loop keeps all foreign keys and ids consistent, even when it fails part-way |
| SyncLemmas.ScanKeepsIntegrity | warchest/src/core/solana.js:148-300 | a scan, successful or not, keeps the ledger's foreign keys and ids consistent |
| SyncEngine.UpsertPools | warchest/src/core/solana.js:190-238 | the pool loop on the store ends in the state and the error of `ApplyPools` |
| SyncEngine.UpsertEvents | warchest/src/core/solana.js:264-281 | the event loop on the store ends in the state and the error of `ApplyEvents` |
| SyncEngine.SyncHolding | warchest/src/core/solana.js:162-299 | the upserts of one holding on the store end in the state and the error of `ApplyHolding` |
| SyncEngine.SyncHoldings | warchest/src/core/solana.js:162-300 | the holding loop on the store ends in the state and the error of `ApplyHoldings` |
| SyncEngine.ScanAccounts | warchest/src/core/solana.js:148-323 | `scanAccounts` on the store ends in the tables and the result of `Scan` and keeps the store's integrity |
| SyncReplay.ApplyHoldingsSkipsMintless | warchest/src/core/solana.js:162-167 | holdings without a token or a mint produce no write: the scan evolves as if they were absent |
| SyncReplay.ApplyPoolsSkipsUnusable | warchest/src/core/solana.js:190-195 | pools without poolId or tokenAddress are skipped: the pool loop evolves as if they were absent |
| SyncReplay.HoldingEffect | warchest/src/core/solana.js:168-299 | a holding that raises no error sets its Token, upserts its pools and Balance, writes its events under the balance id, and has a RiskProfile set under that id |
| SyncReplay.WritesFollowIds | warchest/src/core/solana.js:264-299 | the PriceEvent and RiskProfile writes depend on the Balance table only through the ids of the balances they name |
| SyncReplay.ApplyHoldingsEffect | warchest/src/core/solana.js:162-300 | a scan without error leaves each table equal to the old table overwritten by the payload's writes for that table |
| SyncReplay.HoldingsOkAreComplete | warchest/src/core/solana.js:196-299 | a scan without error read a risk, the nested objects of every usable pool and every event entry of each holding with a mint |
| SyncReplay.PoolsSucceedIff | warchest/src/core/solana.js:190-238 | the pool loop raises no error exactly when each usable pool has its nested objects and each written pool finds its row or its Token as the earlier pools left the tables |
| SyncReplay.HoldingSucceedsIff | warchest/src/core/solana.js:168-299 | a holding with a mint raises no error exactly when it has a risk, every event entry and complete usable pools, and its pools connect with its own Token upserted |
| SyncReplay.HoldingsSucceedIff | warchest/src/core/solana.js:162-300 | the holding loop raises no error exactly when the payload is complete and each holding's pools connect to the tables as the earlier holdings left them |
| SyncReplay.ScanSucceedsIff | warchest/src/core/solana.js:148-323 | a scan returns its summary exactly when the wallet is known, the payload is complete and its pools connect |
| SyncReplay.TokenWritesKeys | warchest/src/core/solana.js:162-187 | the mints written to the Token table are exactly the mints of the holdings that have one |
| SyncReplay.TokenWritesLastWins | warchest/src/core/solana.js:168-187 | a mint named by several holdings holds the token data of the last of them |
| SyncReplay.ScanTokenTable | warchest/src/core/solana.js:162-187 | after a successful scan the Token table has one row per old or payload mint, each payload mint with the last holding's data, and the other rows unchanged |
| SyncReplay.EventPairsKeys | warchest/src/core/solana.js:264-281 | every present event entry writes the PriceEvent key (balanceId, interval) |
| SyncReplay.WritesCover | warchest/src/core/solana.js:241-299 | every complete holding with a mint writes its Balance key, its RiskProfile and a PriceEvent per interval |
| SyncReplay.ScanRecordsEveryHolding | warchest/src/core/solana.js:162-316 | each summary entry of a successful scan has its Token, its Balance for the wallet, that balance's RiskProfile and a PriceEvent per interval, or is reported as `"unknown"` |
| SyncReplay.PoolsMissTokensOnlyIfAbsent | warchest/src/core/solana.js:196-219 | the pool loop reports a missing Token only for a mint absent from the Token table |
| SyncReplay.EventsRaiseMissingFields | warchest/src/core/solana.js:264-281 | the event loop fails only on a missing event entry |
| SyncReplay.OwnTokenBeforePools | warchest/src/core/solana.js:168-237 | a holding's Token is upserted before its pools: a holding fails for a missing Token only when that Token is neither stored nor its own |
| SyncLog.ExecAllTables | warchest/src/core/solana.js:162-300 | a log of upserts leaves each table equal to the old table upserted with that table's writes in order |
| SyncLog.ExecAllIdempotent | warchest/src/core/solana.js:162-300 | applying the same log of upserts again changes nothing |
| SyncLog.ExecAllSplit | warchest/src/core/solana.js:162-300 | applying two logs one after the other is applying their concatenation |
| SyncLog.PoolsAsLog | warchest/src/core/solana.js:190-238 | the pool loop, failed or not, leaves the tables its logged pool upserts produce |
| SyncLog.EventsAsLog | warchest/src/core/solana.js:264-281 | the event loop, failed or not, leaves the tables its logged PriceEvent upserts produce |
| SyncLog.BalanceAsLog | warchest/src/core/solana.js:240-299 | the Balance, events and RiskProfile of a holding leave the tables their logged upserts produce |
| SyncLog.HoldingAsLog | warchest/src/core/solana.js:162-299 | one holding, failed or not, leaves the tables its logged upserts produce |
| SyncLog.HoldingsAsLog | warchest/src/core/solana.js:162-300 | the holding loop, failed or not, leaves the tables its logged upserts produce |
| SyncLog.PoolStepReplay | warchest/src/core/solana.js:196-237 | a pool step from tables with the final keys raises the same error as in the first run and keeps the final keys |
| SyncLog.PoolsReplay | warchest/src/core/solana.js:190-238 | rerun from tables with the final keys, the pool loop raises the same error, logs the same upserts and keeps the final keys |
| SyncLog.EventsFailIff | warchest/src/core/solana.js:264-281 | the event loop raises an error exactly when some entry is null, and that error is always the missing `priceChangePercentage` |
| SyncLog.BalanceReplay | warchest/src/core/solana.js:240-299 | rerun from tables with the final keys, a holding's Balance reuses the same id and its events and RiskProfile log the same upserts |
| SyncLog.HoldingReplay | warchest/src/core/solana.js:162-299 | rerun from tables with the final keys, a holding raises the same error and logs the same upserts |
| SyncLog.HoldingsReplay | warchest/src/core/solana.js:162-300 | rerun from tables with the final keys, the holding loop raises the same error and logs the same upserts |
| SyncLog.ScanIdempotent | warchest/src/core/solana.js:148-323 | running a scan again on the tables it left, with the same payload, leaves the tables unchanged and returns the same summary or raises the same error, also after a scan that stopped part-way |
| PnlEngine.PnlTokenRows | warchest/src/core/solana.js:354-368 | one PnlToken row per token entry, in entry order, each keeping the mint and every figure of its entry |
| PnlEngine.RecordPnl | warchest/src/core/solana.js:330-381 | a provider error or an unknown wallet appends nothing; otherwise one snapshot is appended under the next id for the wallet's id, earlier snapshots unchanged, and the report is returned unchanged |
| PnlEngine.RecordPnlKeepsIntegrity | warchest/src/core/solana.js:341-370 | snapshot ids stay below the generator and increase in creation order |
| PnlEngine.RecordPnlAppends | warchest/src/core/solana.js:341-370 | two successful calls leave the old snapshots followed by two new ones with distinct ids and their own summaries |
| PnlEngine.CalculatePnl | warchest/src/core/solana.js:330-381 | `calculatePnl` on the store changes only the snapshot history, as `RecordPnl` does, and returns its result |
| KeyImport.HexValue | warchest/src/core/solana.js:104-106 | a hex digit of either case has a value below 16 |
| KeyImport.HexDigit | warchest/src/core/solana.js:68-69 | the digit written for a value is a lower-case hex digit with that value |
| KeyImport.Lower | warchest/src/core/solana.js:104 | lower-casing a hex digit keeps its value |
| KeyImport.HexDecode | warchest/src/core/solana.js:106 | decoding hex gives half as many bytes as digits |
| KeyImport.HexEncode | warchest/src/core/solana.js:68-69 | encoding gives two lower-case hex digits per byte |
| KeyImport.HexDecodeEncode | warchest/src/core/solana.js:68-69 | the hex saved for a key decodes back to the key |
| KeyImport.HexEncodeDecode | warchest/src/core/solana.js:104-106 | re-encoding decoded hex gives the input in lower case: decoding loses nothing but case |
| KeyImport.HexDecodeIgnoresCase | warchest/src/core/solana.js:104-106 | two spellings of the same hex that differ only in case decode to the same bytes |
| KeyImport.ToUint8 | warchest/src/core/solana.js:103 | `Uint8Array.from` keeps a number in 0..255 and otherwise takes it modulo 256 |
| KeyImport.ToBytes | warchest/src/core/solana.js:99-103 | the key file's array becomes one byte per number, in order |
| KeyImport.DecodeInput | warchest/src/core/solana.js:98-110 | the detection order: an existing `.json` file (unparsable, not an array, or numbers), else 128 hex digits, else base58, which fails when the string is not base58 |
| KeyImport.DecodeKeyInput | warchest/src/core/solana.js:98-114 | the input is accepted exactly when it decodes to 64 bytes; any other decoded length is rejected with that length |
| KeyImport.HexKeyDecodes | warchest/src/core/solana.js:98-110 | a 128-digit hex input is never taken for a file and always decodes to 64 bytes, whatever the environment |
| KeyImport.Rebuild | warchest/src/core/solana.js:116-121 | the key rebuilt from `slice(0, 32)` and `slice(32)` equals the decoded key |
| KeyImport.ImportWallet | warchest/src/core/solana.js:51-83 | `importWallet` succeeds exactly when the base58 decodes to 64 bytes that the signer accepts; it then returns the derived address and the name, and saves under the name a 128-digit hex that decodes back to the key |
| KeyImport.ImportWalletFlexible | warchest/src/core/solana.js:94-127 | an input that does not decode to 64 bytes fails with the decoder's error |
| KeyImport.FlexibleImportStoresDecodedKey | warchest/src/core/solana.js:94-127 | when base58 decoding inverts encoding on the key, a flexible import succeeds exactly when the input decodes and the signer accepts the key, and then returns the key's derived address, keeps the name as the keychain reference and saves the key's hex under that name |
| KeyImport.SavedHexReimports | warchest/src/core/solana.js:68-106 | the hex an import saves is itself an accepted input that decodes to the saved key |

## Left out

- The Prisma engine itself. The ledger is an in-memory store with one field per table. Generated ids come from a counter per table. Timestamps that the database fills in (`createdAt` of a PnlScan or PnlToken) are not kept.
- The data API client (`getWallet`, `getWalletPnL`): its responses are the `fetched` parameter. A network failure is the `Failure` case.
- `EventBus.emit` notifications and the debug and `chalk` console output. These only report, and do not change what is written or returned.
- `errorHandler` (`warchest/src/core/errorHandler.js:12-15`) prints the error and calls `process.exit(1)`. The catch blocks at `solana.js:80`, `124`, `320` and `378` call it, so an error ends the process, and the rethrow after it is never reached. A `Failure` result in the model stands for that exit. The writes made before the error stay in the tables.
- The file system, `JSON.parse`, the `bs58` codec and `createKeyPairSignerFromBytes`: all four are foreign or I/O. They enter as the fields of `KeyImport.KeyEnv`, and a throw is `None` or a dedicated `JsonContent` case.
- `keychain.saveKey` failures: the keychain is the OS keychain. The saved entry is returned as data (`savedName`, `savedHex`).
- `createWallet` and `getPrivateKey`: key generation is randomness and the keychain read is I/O. Neither touches the ledger or the decoder. `warchest/src/core/keychain.js` is not part of this model.
- The scan's and the PnL snapshot's transaction semantics. The scan's upserts share no transaction, so an error keeps the earlier writes. That is modelled. The PnL nested create is one atomic append. A database failure inside either is not modelled.
- Holding or pool elements that are themselves `null`, `data.tokens` or `data.summary` missing from a response, and non-integer or non-number elements in a JSON key file: these inputs are outside the modelled payload types.
- `Object.entries` key order for integer-like interval labels: the events of a holding are taken in the order the provider lists them.
- `Provider.PoolDesc.createdAt`: a present value is taken to be truthy. A falsy non-null `createdAt` (such as `0`), which the code stores as null, is not distinguished.
- Provider fields that are absent from a payload (`undefined`) are modelled as null. Prisma's `upsert` skips an `undefined` field on update and keeps the stored column, but the model writes null there. The Token, Pool and Balance contracts therefore describe payloads whose fields are present or explicitly null.
- `SyncReplay.TokenWritesLastWins`: the last holding's Token data wins column by column only for columns its payload carries. For an omitted (`undefined`) field, an earlier holding's value or the stored value stays. This case is not modelled.
- `SyncReplay.ScanTokenTable`: it states the Token rows for payloads whose token fields are present or null. An omitted field keeps the stored column, which is not modelled.
- `new Date(...)` conversion: a stored date wraps the provider's value, and the conversion itself is not modelled.
- `KeyImport.ImportWalletFlexible`: its own contract states only the failure path. The success path depends on the `bs58` round trip and is stated by `KeyImport.FlexibleImportStoresDecodedKey`, under the assumption that `bs58` decoding inverts its encoding.
- `warchest/src/core/warchest.js`, the CLI, `testprompt.js` and the tests: these are front ends and tooling around the modelled core.
