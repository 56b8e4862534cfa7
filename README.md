# ValutaTrade Hub exchange-rate engine in Dafny

This project models the core of ValutaTrade Hub, a small currency-trading application: the
exchange-rate engine and the use cases built on it.

The rate engine has these parts:
- **Rate store.** It keeps two persisted files:
  - a snapshot of the current pairs (`rates.json`), replaced whole by each save;
  - an append-only ledger of historical records (`exchange_rates.json`), extended by saves and pruned by age.
- **Update coordinator.** It fetches from each requested provider in order and tolerates each provider's failure on its own.
- **Provider clients.** Each turns a parsed response into a `FROM_TO -> rate` map, and maps transport failures to `ApiRequestError`.
- **Rate resolver.** `get_rate` is a first-match chain: the snapshot, then a TTL-bounded secondary tier, then a synchronous update.
- **Scheduler.** It runs the update periodically.

Around the engine the model covers:
- the currency registry;
- the `User`, `Wallet` and `Portfolio` objects;
- the list-of-records database;
- the parser configuration;
- the helpers;
- registration, login, buying and selling;
- the selection logic of the `update-rates` and `show-rates` commands.

## How the model is built

- **Modules.** Each source file is one module: `Currencies`, `Models`, `Utils`, `Database`, `Config`, `ApiClients`, `Storage`, `Updater`, `UseCases`, `Scheduler` and `Interface`.
  - `Common` holds `Option`/`Result`/`Outcome`.
  - `Errors` turns the exception classes into one datatype.
  - `Text` holds the string helpers: `upper`, `isupper`, `strip`, `startswith`, `endswith` and splitting at `_`.
  - `RateMaps` holds the shape of a client's result.
- **Objects.** Objects whose fields the source updates are classes, and their methods carry `modifies` clauses:
  - `Wallet`, `Portfolio` and `User`;
  - the currency registry;
  - `DatabaseManager`, whose entity files are a map field;
  - `RatesStorage`, which has one field per file;
  - `ParserScheduler`, `UserManager`, `PortfolioManager` and `RateManager`.
- **Pure logic.** Pure parts are functions with lemmas: the client map building, error classification, filters, TTL checks and the show-rates selection.
- **Outside the model.** Everything outside the program becomes a parameter of the operation that meets it:
  - the clock: an `Instant` in microseconds;
  - the contents of the files: datatypes for missing, malformed or written;
  - whether an atomic temp-file-and-rename write succeeds: `writeOk`;
  - each provider's fetch: an `Attempt` or an HTTP exchange result;
  - the password hash: an uninterpreted function;
  - the salt;
  - the point where the scheduling library raises.
- **Exceptions.** An exception is an `Err`/`Fail` value carrying an `Errors.Error` variant. A call that would raise a Python `KeyError`, `AttributeError` or `UnboundLocalError` is modelled as such a value.

These source behaviours are kept as they are and stated in the contracts:
- **Secondary tier.** It reads the same `rates.json` the store writes. That file's top-level keys are never pair keys, so the tier never answers (`UseCases.SecondaryTierNeverAnswers`), and a malformed file makes `get_rate` raise `DatabaseError`.
- **`buy_currency` wallet test.** It tests the raw code, not the upper-cased one, against the wallet keys. A wallet stored under a lower-case key is therefore never deposited into. The portfolio is still saved and the rate still looked up before the receipt fails on the unassigned `old_balance` (`UseCases.PortfolioManager.BuyInto`).
- **Scheduler `start`.** It marks the scheduler running before registering the one-off update, so a failure there raises while the scheduler runs.
- **Missing updater methods.** `get_status` while running and the cleanup job call updater methods that do not exist. The model gives `AttributeError` for both; the cleanup job swallows it.
- **History append failure.** A provider whose snapshot was written but whose history append failed is reported as failed, and its snapshot stays (`Updater.HistoryFailureKeepsSnapshot`).
- **JSON decode errors.** A JSON decode error is a `RequestException` as well as a `ValueError`. It is therefore reported by the earlier `RequestException` clause (`ApiClients.EarlierClauseWins`).

## Model

| member | source | states |
|---|---|---|
| Currencies.CheckNameAndCode | valutatrade_hub/core/currencies.py:7-12 | accepted iff the name is not blank and the code is 2-5 characters, upper-case and space-free; a blank name is reported before a bad code |
| Currencies.NewFiat | valutatrade_hub/core/currencies.py:36-43 | a fiat currency is built iff the base checks pass and the issuing country is not blank, with the error of the first failing check otherwise |
| Currencies.NewCrypto | valutatrade_hub/core/currencies.py:53-62 | a crypto currency is built iff the base checks pass, the algorithm is not blank and the market cap is not negative, checked in that order |
| Currencies.ValidCodeIsUpper | valutatrade_hub/core/currencies.py:10-12 | a code that passes the check is unchanged by upper-casing |
| Currencies.DefaultsWellFormed | valutatrade_hub/core/currencies.py:103-114 | all six default currencies pass their constructors' checks |
| Currencies.Registry.Default | valutatrade_hub/core/currencies.py:103-116 | the initial registry holds exactly USD, EUR, RUB, BTC, ETH and LTC, each default under its own code |
| Currencies.DefaultCodes | valutatrade_hub/core/currencies.py:103-116 | the six default codes, in registration order, are USD, EUR, RUB, BTC, ETH and LTC, each exactly once |
| Currencies.Registry.Register | valutatrade_hub/core/currencies.py:83-84 | stores the currency under its code, replacing any entry with that code, and nothing else changes |
| Currencies.Registry.Get | valutatrade_hub/core/currencies.py:87-92 | finds a currency iff the upper-cased code is registered; otherwise `CurrencyNotFoundError` carrying the upper-cased code |
| Currencies.Registry.GetRegistered | valutatrade_hub/core/currencies.py:87-92 | a currency found by any casing of a code carries the upper-cased code and is well formed |
| Currencies.Registry.All | valutatrade_hub/core/currencies.py:95-96 | a map with the registry's keys and entries, as a separate value |
| Utils.ConvertAmount | valutatrade_hub/core/utils.py:52-69 | identity for equal codes; else the direct pair; else both legs through USD; else `ValutaTradeError`, exactly when a leg is missing |
| Utils.DirectPairPreferred | valutatrade_hub/core/utils.py:59-61 | the direct pair wins even when the USD route exists and gives a different value |
| Utils.MaxId | valutatrade_hub/core/utils.py:41 | the maximum of the ids: no id exceeds it and one id equals it |
| Utils.NextUserId | valutatrade_hub/core/utils.py:37-41 | 1 without users; otherwise exactly one more than some stored id, and strictly above every stored id |
| Utils.ValidateCurrencyCode | valutatrade_hub/core/utils.py:44-49 | true iff the upper-cased code is registered |
| Utils.AmountDecimals | valutatrade_hub/core/utils.py:72-76 | 6 decimals exactly for BTC, ETH and LTC, 2 otherwise |
| Database.EmptyFiltersMatchAll | valutatrade_hub/infra/database.py:56 | no filters match every record |
| Database.Where | valutatrade_hub/infra/database.py:65-66 | the records whose match equals `keep`: each kept record comes from the list, and every such record is kept |
| Database.WhereAppend | valutatrade_hub/infra/database.py:65-66 | selection distributes over concatenation, so the original order is kept |
| Database.WhereSplits | valutatrade_hub/infra/database.py:89-90 | matching and non-matching records together account for the whole list |
| Database.NothingRemoved | valutatrade_hub/infra/database.py:89-93 | delete keeps the list as it was iff no record matches |
| Database.FindFirst | valutatrade_hub/infra/database.py:55-58 | returns a matching record with no match before it, or `None` iff nothing matches |
| Database.FindFirstIsHeadOfWhere | valutatrade_hub/infra/database.py:53-66 | `find_one` returns the head of what `find_all` returns |
| Database.MergeIfMatching | valutatrade_hub/infra/database.py:77-80 | a matching record gets every update key with its new value and keeps its other fields; a non-matching record is unchanged |
| Database.DatabaseManager.constructor | valutatrade_hub/infra/database.py:21-24 | the manager over the given entity files |
| Database.DatabaseManager.Read | valutatrade_hub/infra/database.py:29-41 | a missing file reads as `[]`, malformed JSON raises `DatabaseError`, and a written file gives its records |
| Database.DatabaseManager.FindOne | valutatrade_hub/infra/database.py:53-58 | `DatabaseError` from the read; otherwise exactly `FindFirst` of the stored records: the first matching record, or `None` iff no record matches |
| Database.DatabaseManager.FindAll | valutatrade_hub/infra/database.py:60-66 | everything without filters; with filters, exactly `Where` of the stored records: the matching records in their stored order, each as often as stored |
| Database.DatabaseManager.Insert | valutatrade_hub/infra/database.py:68-71 | appends the record after the existing ones and touches no other entity; a read error writes nothing |
| Database.DatabaseManager.Update | valutatrade_hub/infra/database.py:73-83 | merges the updates into every matching record and leaves the others; the file is rewritten only if something matched |
| Database.DatabaseManager.Delete | valutatrade_hub/infra/database.py:85-93 | removes exactly the matching records in order; the file is rewritten only if the count dropped |
| Config.ChooseApiKey | valutatrade_hub/parser_service/config.py:32-36 | a non-empty environment value, else a non-empty setting, else `demo_key`; never empty |
| Config.JoinPath | valutatrade_hub/parser_service/config.py:57-58 | the path ends with the file name and is `dir/name` for a directory without a trailing slash |
| Config.ParserConfig.constructor | valutatrade_hub/parser_service/config.py:29-69 | the key by precedence; each setting overrides its default; both files live in the data directory; the fixed id map |
| Config.ParserConfig.Validate | valutatrade_hub/parser_service/config.py:71-85 | passes iff the configuration is acceptable; a missing or demo key, then an empty fiat list, then an empty crypto list, then `UnknownCrypto` of the first crypto code, in list order, that has no id |
| Config.DemoKeyRejected | valutatrade_hub/parser_service/config.py:72-75 | with no key configured anywhere, validation fails |
| RateMaps.SourceName | valutatrade_hub/parser_service/storage.py:26 | the meta's source, or `Unknown` when absent |
| RateMaps.Clean | valutatrade_hub/parser_service/storage.py:17 | exactly the keys not starting with `_`, with their rates |
| ApiClients.Classify | valutatrade_hub/parser_service/api_clients.py:44-58 | the reason the first matching `except` clause gives: timeout, connection, 429, 401, other status, other request error, JSON |
| ApiClients.EarlierClauseWins | valutatrade_hub/parser_service/api_clients.py:44-58 | a JSON decode error is reported as a request error and a connect timeout as a timeout, because earlier clauses catch them |
| ApiClients.MakeRequest | valutatrade_hub/parser_service/api_clients.py:22-58 | the decoded body and its meta on success; otherwise `ApiRequestError` with the classified reason |
| ApiClients.AddBothDirections | valutatrade_hub/parser_service/api_clients.py:84-89 | sets `CODE_BASE` to the raw value and adds `BASE_CODE = 1/raw` only when raw > 0; other keys keep their values |
| ApiClients.NormaliseKeys | valutatrade_hub/parser_service/api_clients.py:82-89 | every key a client builds is one direction of a visited code with the base |
| ApiClients.NormaliseEntry | valutatrade_hub/parser_service/api_clients.py:117-125 | for distinct codes free of `_`, each quoted code has its forward pair, and its reverse iff the quote is positive; an unquoted code has neither |
| ApiClients.CryptoIdMapSeparable | valutatrade_hub/parser_service/config.py:60-69 | the fixed id map's codes are distinct, free of `_` and differ from `USD` |
| ApiClients.CryptoIdMapCodes | valutatrade_hub/parser_service/config.py:60-69 | the codes of the id map are pairwise distinct, contain no `_` and none of them is `USD` |
| ApiClients.FirstUnknownCrypto | valutatrade_hub/parser_service/api_clients.py:64-67 | `None` iff every requested code has an id; otherwise the first code in request order that has none |
| ApiClients.FetchCoinGecko | valutatrade_hub/parser_service/api_clients.py:63-97 | `KeyError` for an unknown code before the request; the classified error if the request fails; otherwise both-direction pairs for the id map against the base, tagged `CoinGecko` |
| ApiClients.FetchExchangeRate | valutatrade_hub/parser_service/api_clients.py:102-137 | the classified error; a provider error when the result is not `success`; otherwise both-direction pairs of the fiat codes found, with `BASE_BASE = 1.0`, tagged with the source and base |
| Storage.GenerateRecordId | valutatrade_hub/parser_service/storage.py:133-136 | the id depends only on the pair and the whole second containing the instant |
| Storage.SameSecondSameId | valutatrade_hub/parser_service/storage.py:133-136 | two saves of one pair within the same second get equal ids |
| Storage.RecordMetaOf | valutatrade_hub/parser_service/storage.py:78-90 | each record meta field comes from the source meta, or is its default when absent |
| Storage.MakeRecord | valutatrade_hub/parser_service/storage.py:69-91 | a record with the id, both halves of the key, the rate, the save time and the source; `IndexError` iff the key has no `_` |
| Storage.RecordOfPairKey | valutatrade_hub/parser_service/storage.py:73-74 | a pair key of two codes free of `_` is recorded with those two codes |
| Storage.KeepAfter | valutatrade_hub/parser_service/storage.py:156-159 | exactly the records stamped strictly after the cutoff |
| Storage.KeepAfterAppend | valutatrade_hub/parser_service/storage.py:156-159 | pruning distributes over concatenation, so it keeps the ledger's order |
| Storage.KeepAfterAll | valutatrade_hub/parser_service/storage.py:161-163 | nothing is pruned iff no record is at or before the cutoff, and then the list is unchanged |
| Storage.KeepAfterIdempotent | valutatrade_hub/parser_service/storage.py:156-159 | pruning twice with one cutoff equals pruning once |
| Storage.Cutoff | valutatrade_hub/parser_service/storage.py:154 | now minus the age in days, never after now for a non-negative age |
| Storage.SnapshotOf | valutatrade_hub/parser_service/storage.py:17-33 | exactly the clean keys, each with its rate, all stamped with the one save time that is also `last_refresh`, and with the meta's source |
| Storage.RatesStorage.GetCurrentRates | valutatrade_hub/parser_service/storage.py:138-146 | the written snapshot, or the empty snapshot for a missing or corrupt file |
| Storage.RatesStorage.LoadLedger | valutatrade_hub/parser_service/storage.py:97-105 | the written records, or `[]` for a missing or corrupt file |
| Storage.RatesStorage.BuildPairs | valutatrade_hub/parser_service/storage.py:22-27 | one entry per clean key with its rate, the save time and the source |
| Storage.RatesStorage.SaveCurrentRates | valutatrade_hub/parser_service/storage.py:13-56 | an empty map changes nothing; a failed write raises `RuntimeError` and keeps the old snapshot; otherwise the snapshot is exactly `SnapshotOf` the input, with nothing of the old one left |
| Storage.RatesStorage.BuildRecords | valutatrade_hub/parser_service/storage.py:68-93 | one record per clean key in iteration order, or `IndexError` iff some key lacks `_` |
| Storage.RatesStorage.SaveHistoricalRecord | valutatrade_hub/parser_service/storage.py:58-95 | an empty map changes nothing; otherwise the loaded ledger is kept as a prefix and one record is appended per clean pair; an `IndexError` or a failed write leaves the file |
| Storage.RatesStorage.CleanupOldRecords | valutatrade_hub/parser_service/storage.py:148-168 | keeps exactly the records after the cutoff in order, rewrites only when something was removed, and returns how many were removed; a failed rewrite raises and keeps the ledger |
| Updater.TallyPrefix | valutatrade_hub/parser_service/updater.py:38-77 | the result lists of a prefix of the sources are prefixes of the final lists, so they keep request order |
| Updater.TallyPartition | valutatrade_hub/parser_service/updater.py:38-77 | every requested name that has a client lands in exactly one list, and unknown names in neither |
| Updater.TallyTotal | valutatrade_hub/parser_service/updater.py:52-66 | the total counts at least one pair per successful source, and is 0 iff none succeeded |
| Updater.TallyOutcome | valutatrade_hub/parser_service/updater.py:45-77 | with distinct names, a known source is successful iff its own fetch was usable and both writes succeeded, whatever the other sources did |
| Updater.LastSnapshotWins | valutatrade_hub/parser_service/updater.py:57-60 | after the run, the snapshot is the one written by the last source that wrote one |
| Updater.HistoryFailureKeepsSnapshot | valutatrade_hub/parser_service/updater.py:57-77 | a source whose history append failed is reported failed, and its written snapshot stays |
| Updater.RatesUpdater.constructor | valutatrade_hub/parser_service/updater.py:13-21 | the updater over the given store |
| Updater.RatesUpdater.ProcessSource | valutatrade_hub/parser_service/updater.py:38-77 | one loop pass: the results and snapshot after the source; the ledger becomes the loaded records followed by the source's `BatchOf`, which is one record per clean pair in the order the store visited them for a successful source and nothing otherwise; the ledger file changes only for a successful source |
| Updater.BatchOfLength | valutatrade_hub/parser_service/updater.py:52-66 | a successful source appends exactly the batch of its clean pairs, one record each; any other source appends nothing |
| Updater.LedgerStep | valutatrade_hub/parser_service/updater.py:38-77 | one more source appends its batch after the batches of the sources before it |
| Updater.LedgerDone | valutatrade_hub/parser_service/updater.py:23-91 | after the last source the ledger is the loaded records followed by `Appended`: it keeps them as a prefix and grows by exactly `Growth` records |
| Updater.RatesUpdater.RunUpdate | valutatrade_hub/parser_service/updater.py:23-91 | the default sources when none are given; results are the tally; the snapshot is the last one saved; the ledger becomes the loaded records followed by `Appended`, the batches of the successful sources in request order with one record per clean pair, so it keeps its prefix and grows by `Growth`; the file is untouched when nothing was appended |
| Models.User.constructor | valutatrade_hub/core/models.py:10-16 | a user with the given fields |
| Models.User.SetUsername | valutatrade_hub/core/models.py:26-30 | a blank name is rejected and the old one kept; any other name is set |
| Models.User.VerifyPassword | valutatrade_hub/core/models.py:59-64 | true iff hashing the candidate with the stored salt gives the stored hash |
| Models.User.ChangePassword | valutatrade_hub/core/models.py:49-57 | a password shorter than 4 characters is rejected and nothing changes; after a change, the new password verifies |
| Models.Wallet.constructor | valutatrade_hub/core/models.py:68-70 | a wallet with the given code and balance, unchecked |
| Models.Wallet.SetBalance | valutatrade_hub/core/models.py:76-82 | a negative value is rejected and the balance kept; otherwise it is set |
| Models.Wallet.Deposit | valutatrade_hub/core/models.py:84-89 | a non-positive amount is rejected; otherwise the balance grows by exactly the amount, unless the sum is still negative and the setter refuses it |
| Models.Wallet.Withdraw | valutatrade_hub/core/models.py:91-100 | a non-positive amount is rejected; more than the balance raises `InsufficientFundsError` and changes nothing; otherwise it subtracts, leaving a non-negative balance |
| Models.TotalValueRemove | valutatrade_hub/core/models.py:146-160 | the total is one wallet's value plus the total of the rest, whichever wallet comes first |
| Models.ValuationKeyShape | valutatrade_hub/core/models.py:136-142 | every key of the fixed table is a three-letter code followed by `_USD` |
| Models.NoRateIntoOtherBase | valutatrade_hub/core/models.py:150-160 | for a base other than USD, neither the direct key nor the `USD_BASE` key is in the table |
| Models.TotalInOtherBase | valutatrade_hub/core/models.py:146-160 | for a base other than USD, only a wallet in the base itself contributes, at its balance |
| Models.Portfolio.constructor | valutatrade_hub/core/models.py:108-110 | a portfolio over the given wallets |
| Models.Portfolio.Wallets | valutatrade_hub/core/models.py:116-118 | a separate map with the same codes and the same wallet objects |
| Models.Portfolio.GetWallet | valutatrade_hub/core/models.py:131-133 | the wallet under the upper-cased code, or `None` iff there is none |
| Models.Portfolio.AddCurrency | valutatrade_hub/core/models.py:120-129 | an unknown code fails and nothing changes; an existing wallet is returned unchanged; otherwise a fresh zero-balance wallet is added under the upper-cased code |
| Models.Portfolio.GetTotalValue | valutatrade_hub/core/models.py:135-162 | the sum over all wallets of each one's value in the base |
| UseCases.SecondaryFromFile | valutatrade_hub/core/usecases.py:248-250 | a malformed `rates.json` makes the secondary read fail with `DatabaseError`; otherwise the document has no entry under any pair key |
| UseCases.StoreKeysAreNotPairs | valutatrade_hub/parser_service/storage.py:29-33 | no top-level key of the store's document is a pair of upper-cased codes |
| UseCases.SnapshotLookup | valutatrade_hub/core/usecases.py:238-244 | the snapshot's entry for the pair, whatever its age, with its rate, time and source |
| UseCases.SecondaryLookup | valutatrade_hub/core/usecases.py:246-259 | an entry counts only while strictly younger than the TTL, and is reported with the document's source, or `Cache` |
| UseCases.TtlIsStrict | valutatrade_hub/core/usecases.py:254 | an entry exactly as old as the TTL is not returned |
| UseCases.SecondaryTierNeverAnswers | valutatrade_hub/core/usecases.py:248-259 | for any state of the store's file, the secondary tier raises or finds nothing |
| UseCases.RateManager.GetRate | valutatrade_hub/core/usecases.py:217-276 | unknown codes fail before any read; equal codes give 1.0 from `System`; then the snapshot hit; then the secondary tier; then one default update and a re-read, else `ApiRequestError`; only the update step changes the store; the result equals `Resolve` of the registered codes and the snapshot file before the call |
| UseCases.IntField | valutatrade_hub/core/usecases.py:70-75 | the integer stored under the key, `KeyError` when absent, `TypeError` when of another type |
| UseCases.StrField | valutatrade_hub/core/usecases.py:70-75 | the string stored under the key, `KeyError` when absent, `TypeError` when of another type |
| UseCases.CredentialsOf | valutatrade_hub/core/usecases.py:70-76 | the five stored fields of a well-typed user record |
| UseCases.Authenticate | valutatrade_hub/core/usecases.py:58-79 | `UserNotFoundError` when no record has the name; otherwise the first such record's fields, then the password check against its salt and hash |
| UseCases.RegistrationKeepsUsersUnique | valutatrade_hub/core/usecases.py:26-47 | a registration that passes the name check keeps usernames and ids unique |
| UseCases.StoredUsersDiffer | valutatrade_hub/core/usecases.py:26-32 | once the name check passes, no stored user has that name or the next id |
| UseCases.UserRecordRoundTrip | valutatrade_hub/core/usecases.py:39-45 | the stored user record is well typed and reads back as the credentials it was built from |
| UseCases.RegisterThenLogin | valutatrade_hub/core/usecases.py:21-82 | right after registering, login finds the new user and accepts its password, and refuses any password with a different hash |
| UseCases.UserManager.constructor | valutatrade_hub/core/usecases.py:18-19 | no current user |
| UseCases.UserManager.CreateEmptyPortfolio | valutatrade_hub/core/usecases.py:91-103 | inserts `{user_id, wallets: {}}` iff the user has no portfolio; otherwise nothing changes |
| UseCases.UserManager.RegisterUser | valutatrade_hub/core/usecases.py:21-55 | a short password, then a taken name, is rejected before any write; otherwise the user with the next id and the salted hash is appended, then the empty portfolio is created |
| UseCases.UserManager.LoginUser | valutatrade_hub/core/usecases.py:57-82 | the result of `Authenticate` on the stored users; only success sets the current user |
| UseCases.StoredBalance | valutatrade_hub/core/usecases.py:118 | the stored balance as a number, 0 when absent, `TypeError` when not numeric |
| UseCases.DecodeWallets | valutatrade_hub/core/usecases.py:114-119 | no wallets when absent; `AttributeError` for a non-object; otherwise each stored balance under its stored key |
| UseCases.WalletsRoundTrip | valutatrade_hub/core/usecases.py:123-135 | decoding what the save writes gives back the saved balances |
| UseCases.LoadBalances | valutatrade_hub/core/usecases.py:107-119 | a read error passes through; `PortfolioNotFoundError` iff the user has no portfolio; otherwise the first one's balances |
| UseCases.FindFirstSaved | valutatrade_hub/core/usecases.py:131-135 | saving keeps each record's `user_id`, so the user's first portfolio stays first and gets the new wallets |
| UseCases.SaveThenLoad | valutatrade_hub/core/usecases.py:107-135 | loading right after saving gives back the saved balances |
| UseCases.AfterAdd | valutatrade_hub/core/usecases.py:148-149 | the add step runs only when the raw code is not a key, and adds a zero wallet under the upper-cased code only when absent |
| UseCases.LowerCaseKeyHidesWallet | valutatrade_hub/core/usecases.py:148-151 | a wallet under a code that is not upper-case stops the add, so no wallet exists under the upper-cased code |
| UseCases.Credit | valutatrade_hub/core/usecases.py:153-154 | the balance grows by the amount unless the sum is negative; other wallets are unchanged |
| UseCases.Debit | valutatrade_hub/core/usecases.py:192-193 | refused with `InsufficientFundsError` iff the amount exceeds the balance; otherwise the balance drops by it; other wallets are unchanged |
| UseCases.TradesUndo | valutatrade_hub/core/usecases.py:137-214 | selling what was just bought restores the balances when the balance was not negative; buying back what was just sold always does |
| UseCases.Resolve | valutatrade_hub/core/usecases.py:218-276 | the answer of `get_rate` as a function of the registry, the snapshot file and the refresh's outcomes; it fails only with an unknown code, `DatabaseError` (and then only for a malformed rate file) or `ApiRequestError` |
| UseCases.CachedRateIgnoresRefresh | valutatrade_hub/core/usecases.py:232-244 | a pair present in the snapshot is answered from it, whatever a refresh would fetch |
| UseCases.UsdQuote | valutatrade_hub/core/usecases.py:158-165 | the rate a trade reports: the USD rate of the code, `None` when the lookup raises a missing currency or an API failure; the quote itself fails only with `DatabaseError` for a malformed rate file |
| UseCases.UsdQuotesItself | valutatrade_hub/core/usecases.py:219-230 | a trade in a code that upper-cases to `USD` is quoted at exactly 1.0 |
| UseCases.Tolerated | valutatrade_hub/core/usecases.py:159-165 | a rate on success; `None` for `CurrencyNotFoundError` or `ApiRequestError`; any other error propagates |
| UseCases.Estimate | valutatrade_hub/core/usecases.py:162 | the amount times the rate exactly when there is a rate |
| UseCases.PortfolioManager.GetUserPortfolio | valutatrade_hub/core/usecases.py:107-121 | a portfolio of fresh wallets holding the stored balances under their stored keys, or the error of `LoadBalances` |
| UseCases.PortfolioManager.WalletsOf | valutatrade_hub/core/usecases.py:114-119 | one fresh wallet per stored balance, under the code it holds, with that balance |
| UseCases.PortfolioManager.SaveUserPortfolio | valutatrade_hub/core/usecases.py:123-135 | every stored portfolio of the user gets the current balances; the file is untouched when the user has none |
| UseCases.PortfolioManager.WalletsDocOf | valutatrade_hub/core/usecases.py:124-129 | the serialised wallets: per code, its code and balance |
| UseCases.PortfolioManager.SaveAndQuote | valutatrade_hub/core/usecases.py:156-165 | saves the portfolio, then returns exactly `UsdQuote` of the code over the snapshot file before the call |
| UseCases.PortfolioManager.QuoteUsd | valutatrade_hub/core/usecases.py:158-165 | exactly `UsdQuote` of the code: the tolerated result of `get_rate(code, "USD")` |
| UseCases.PortfolioManager.OpenPortfolio | valutatrade_hub/core/usecases.py:141-146 | a non-positive amount, then an unknown code, then the load error, before any wallet is touched |
| UseCases.PortfolioManager.DepositInto | valutatrade_hub/core/usecases.py:153-154 | the balances after the deposit are those of `Credit` |
| UseCases.PortfolioManager.WithdrawFrom | valutatrade_hub/core/usecases.py:192-193 | the balances after the withdrawal are those of `Debit`; a refusal changes nothing |
| UseCases.PortfolioManager.BuyCurrency | valutatrade_hub/core/usecases.py:137-175 | the checks fail before the load; then the result is `PurchaseResult` of the balances after the wallet check and `UsdQuote` of the code: a failed lookup blanks the rate and the estimate, otherwise the receipt carries the USD rate; the purchase is saved before the lookup |
| UseCases.PortfolioManager.EnsureWallet | valutatrade_hub/core/usecases.py:148-149 | the balances after the step are `AfterAdd` of the old ones |
| UseCases.PortfolioManager.BuyInto | valutatrade_hub/core/usecases.py:146-175 | adds, deposits, saves and quotes, with the result `PurchaseResult` of the balances and `UsdQuote`; a wallet hidden by a lower-case key gives `UnboundLocalError` after the save and the lookup |
| UseCases.PortfolioManager.CreditAndQuote | valutatrade_hub/core/usecases.py:151-175 | deposit, save and quote once the wallet exists; the result is `PurchaseResult`: the old and new balance and the quoted rate, or the quote's error |
| UseCases.PortfolioManager.SellCurrency | valutatrade_hub/core/usecases.py:177-214 | the same checks; then the result is `SaleResult` of the stored balances and `UsdQuote` of the code: no wallet under the upper-cased code, an excessive amount (both before any save), or the receipt with the USD rate, blank when the lookup failed; the reduced balance is saved before the lookup |
| UseCases.PortfolioManager.SellFrom | valutatrade_hub/core/usecases.py:186-214 | the sale once the portfolio is loaded: the result is `SaleResult` of the balances and `UsdQuote`; a refused sale changes nothing, a sale saves the reduced balances |
| UseCases.PortfolioManager.DebitAndQuote | valutatrade_hub/core/usecases.py:192-214 | a withdrawal beyond the balance fails before anything is saved; otherwise the reduced balances are saved and the result is `SaleResult`: the old and new balance and the quoted rate, or the quote's error |
| Scheduler.StartJobs | valutatrade_hub/parser_service/scheduler.py:23-58 | three jobs with distinct ids; only `initial_update` runs once |
| Scheduler.Classify | valutatrade_hub/parser_service/scheduler.py:82-87 | error iff nothing succeeded, warning iff some succeeded and some failed, info iff all succeeded |
| Scheduler.ClassifyDefaultRun | valutatrade_hub/parser_service/scheduler.py:77-96 | with the default sources, an error is logged iff both fetches failed and info iff both succeeded |
| Scheduler.ParserScheduler.constructor | valutatrade_hub/parser_service/scheduler.py:11-15 | no scheduler and not running |
| Scheduler.ParserScheduler.Start | valutatrade_hub/parser_service/scheduler.py:17-68 | a no-op when running; a library failure propagates, leaving the flag false except after the runner started; success registers the three jobs and runs |
| Scheduler.ParserScheduler.Stop | valutatrade_hub/parser_service/scheduler.py:70-75 | shuts down only a running scheduler; afterwards it is not running, so a second stop changes nothing |
| Scheduler.ParserScheduler.GetStatus | valutatrade_hub/parser_service/scheduler.py:115-132 | exactly the stopped report when not running; otherwise `AttributeError` from the missing updater method |
| Scheduler.ParserScheduler.ScheduledUpdate | valutatrade_hub/parser_service/scheduler.py:77-96 | one default run, never raising, logged by its classification; the snapshot, the ledger's contents (the loaded records followed by `Appended` over the default sources) and the ledger file are as that run leaves them |
| Scheduler.ParserScheduler.ScheduledCleanup | valutatrade_hub/parser_service/scheduler.py:98-113 | the missing cleanup method's `AttributeError` is caught and logged; nothing changes |
| Interface.SourcesFor | valutatrade_hub/cli/interface.py:316-322 | a single client name selects itself; `all` and any other value select both; the result is non-empty and duplicate-free |
| Interface.FilterOf | valutatrade_hub/cli/interface.py:360-361 | a filter iff the currency is given and non-empty, upper-cased |
| Interface.Select | valutatrade_hub/cli/interface.py:362-365 | exactly the pairs starting with `CUR_` or ending with `_CUR` (all without a filter), each once, with its entry |
| Interface.InsertByRate | valutatrade_hub/cli/interface.py:373-377 | inserting into a list sorted by non-increasing rate keeps it sorted and adds exactly that row |
| Interface.SortByRate | valutatrade_hub/cli/interface.py:373-377 | a permutation of the rows in non-increasing rate order |
| Interface.Shown | valutatrade_hub/cli/interface.py:379-380 | all rows for no `top` or 0; `min(top, n)` for positive `top`; Python's `[:top]` count for negative `top` |
| Interface.Ranked | valutatrade_hub/cli/interface.py:373-380 | the sorted, cut rows: sorted by rate, drawn from the selection, as many as `Shown` |
| Interface.NothingKept | valutatrade_hub/cli/interface.py:360-369 | under a filter, nothing is selected iff no key of the snapshot names the currency |
| Interface.ShowRates | valutatrade_hub/cli/interface.py:343-405 | the empty notice iff there are no pairs; not found iff a given currency matches no key; otherwise rows sorted by rate, drawn from the matching pairs, with a total equal to the row count |
| Interface.RankedKeepsHighest | valutatrade_hub/cli/interface.py:373-380 | a selected row that was cut ranks no higher than any shown row |
| Interface.ShowRatesComplete | valutatrade_hub/cli/interface.py:360-405 | without `top` every matching pair is shown; with positive `top`, `min(top, n)` rows are shown; every matching pair left out has a rate no higher than each shown one |

## Left out

- HTTP transport, `requests` sessions and headers, and response objects: each fetch is a given outcome. The timing fields of request meta (`request_ms`) are given values.
- The file system, JSON encoding, `tempfile` and `os.replace`. Each file is a field, and an atomic write is one step that either replaces the whole file or fails (`writeOk`). Removing the temp file has no observable effect and is not modelled.
- Wall-clock reads and ISO 8601 text. Times are integer microseconds. `registration_date` is stored as that integer, not as an ISO string. The snapshot's `updated_at` is an instant, so its parsing in `get_rate` cannot fail.
- Floating point. Rates, balances and reciprocals are `real`, so rounding and `float(value)` are not modelled. Python's `1 == 1.0` equality between stored integers and floats is not modelled: stored values are typed.
- SHA-256, MD5, `os.urandom` and `secrets.token_hex`. The password hash is an uninterpreted function, the salt is a parameter, and a record id is the digest input (the pair and the whole second) rather than its hex digest.
- Dictionary iteration order. Maps are unordered. The order of the snapshot's pairs is a parameter of `Interface.ShowRates`. The order of a fetched map is that of the Dafny map's keys. The order in which a ledger batch visits its pairs is a ghost result (`order`, `orders`): any order that visits each clean pair once.
- Interface.SortByRate: Python's `sorted` is stable; the insertion used keeps equal rates in input order, but stability is not stated or proved.
- Types that the source does not check. Stored fields of the wrong JSON type mostly give `TypeError` or `AttributeError` where Python would fail. Where Python would carry a wrong-typed value on without failing, the model reports `TypeError`.
- UseCases.StoredId: a stored `user_id` that is not an integer counts as 0. Python's `max` raises `TypeError` when it meets a string id among integers, and a float id is carried on into the next id. `Utils.NextUserId` therefore never fails in the model.
- Unicode case. `str.upper` and `str.isupper` are modelled on the ASCII letters only; every other character counts as uncased. Whitespace for `strip()` is Python's full set.
- Currencies.CheckNameAndCode: a code with a non-ASCII lower-case letter, such as `"àB"`, is accepted, where `isupper()` rejects it.
- Currencies.NewFiat: inherits the ASCII-only code check of `CheckNameAndCode`.
- Currencies.NewCrypto: inherits the ASCII-only code check of `CheckNameAndCode`.
- Currencies.Registry.Get: upper-cases only ASCII letters, so a code with a non-ASCII lower-case letter is looked up as given.
- Utils.ValidateCurrencyCode: upper-cases only ASCII letters, as `Registry.Get` does.
- Models.Portfolio.GetWallet: upper-cases only ASCII letters.
- Models.Portfolio.AddCurrency: upper-cases only ASCII letters.
- Interface.FilterOf: upper-cases only ASCII letters.
- Database.DatabaseManager.Insert: a failed write is not modelled. In Python, `write` raises `DatabaseError` on any failure, after `open(..., "w")` may already have emptied the file. So a registration whose portfolio insert fails after the user was stored is not modelled.
- Database.DatabaseManager.Update: a failed rewrite is not modelled, for the same reason. So a trade whose save fails after the wallet changed is not modelled.
- Database.DatabaseManager.Delete: a failed rewrite is not modelled, for the same reason.
- Printing, logging, the `log_action` decorator, PrettyTable, number formatting and argparse dispatch in the command-line interface. Only the source selection and the show-rates selection are modelled.
- `UserManager.logout_user`, `get_user_info`, `get_balance_info`, `get_display_info`, `read_json_file`, `write_json_file` and the date conversion helpers are not part of this model. They are printing or plain I/O wrappers.
- Settings loading (`settings.py`), the singleton machinery of `DatabaseManager.__new__` and the lazy creation of the updater and scheduler in the interface. Settings arrive as parameters.
- The background scheduler library's threads and job timing. The library is modelled by its job list and running flag; the step where it raises is a parameter. A failure of `shutdown` in `stop` is not modelled.
- UseCases.RateManager.GetRate: the `except Exception` around the update in `get_rate` is not modelled, because the modelled `run_update` never raises.
- UseCases.PortfolioManager.BuyCurrency: the state of the rate store after a trade is not stated; the lookup may refresh it, as `GetRate` states.
- UseCases.PortfolioManager.SellCurrency: the state of the rate store after a trade is not stated; the lookup may refresh it, as `GetRate` states.
- Models.Portfolio.constructor: it requires every wallet to be stored under its own code. Every caller in the application satisfies this: `get_user_portfolio` builds each wallet from its key, and `add_currency` stores under the wallet's code.
- The CoinGecko client requests quotes in `"usd"` but labels them with the configured base currency. The model reproduces this and does not check that the base is USD.
