# go-simple-bank: transfer endpoints and random-data helpers

This project models two parts of a small Go banking API and proves what they guarantee.

- The HTTP transfer endpoints of package `api` (`createTransfer`, `getTransfer`, `listTransfer`). `createTransfer` runs a fixed sequence of checks with early returns: request binding, source-account lookup, source currency against the requested currency, destination-account lookup, destination currency against the requested currency, and source currency against destination currency. Only when every check passes does it call the store's transfer engine `TransferTx`. Each failure is answered with its own HTTP status.
- The random test-data helpers of package `util` (`RandomInt`, `RondomString`, `RondomOwner`, `RondomMoney`, `RondomCurrency`).

Files:

- `wrappers.dfy`: `Option` (the result of request binding) and `Result` (the `(value, err)` pair a store call returns).
- `goint.dfy`: Go's `int32`/`int64` as newtypes, with two's-complement wrap-around written out (`Wrap32`, `Wrap64`, `Sub32`, `Mul32`, `Add64`, `Sub64`).
- `store.dfy`: the database store the handlers call. It is abstract: a snapshot `Db` fixes its answers. That snapshot has accounts by id (`{id, currency, balance}`), transfers by id, the ids whose lookups fail with an error other than `sql.ErrNoRows`, and the outcomes of `TransferTx` and `ListTransfers`. The class `Store` logs every call with its arguments.
- `transfer.dfy`: the handlers as methods of `Server`. They work on the `Store` and on a `Context`, which collects the JSON responses written. Each handler's postcondition ties the calls it made and the one response it wrote to a function of the snapshot and the bound request (`CreateTransferOutcome`, `GetTransferOutcome`, `ListTransferOutcome`). `ListTransfersArgs` is the page-to-offset arithmetic in wrapping int32.
- `transfer_properties.dfy`: the lemmas about those functions. They cover which status each failure gets, when `TransferTx` is reached, its arguments, that it is called at most once, that balances are never consulted, and the offset arithmetic together with its overflow.
- `random.dfy`: the helpers. Go's global `math/rand` source is modelled by two oracle methods, `Int63n` and `Intn`. Each promises only `0 <= r < n` and requires `n > 0`, because Go panics otherwise. Any value in range may come back, so every property holds whatever the draws are.

Behaviour of the code that the model keeps as written:

- `createTransfer` performs no balance check; the Go handler marks it as a to-do at `api/transfer.go:61`. An amount larger than the source balance still reaches `TransferTx` (`BalanceNeverChecked`, `OverdraftReachesTransferTx`). The code has no insufficient-funds rejection.
- The final comparison of the two accounts' currencies (`api/transfer.go:55-59`) can never reject (`CurrencyPairCheckUnreachable`). In the method `Server.CreateTransfer` that branch holds `assert false`, which proves it dead. `CreateTransferOutcome` keeps the Go handler's 400 answer there.
- `TransferTx` failing with any error (even `ErrNoRows`) is answered 500.
- `Offset = (PageID-1)*PageSize` is computed in int32. `page_id` has no upper bound, so the product can overflow and wrap. Page 300000000 of size 10 asks for offset -1294967306. Page 536870913 of size 8 asks for offset 0, which is the first page again (`OffsetWrapsPastOverflow`). Below the overflow the offset is exactly `(PageID-1)*PageSize` (`OffsetIsRowsBefore`).
- `RondomString(n)` returns the empty string for a negative `n`, because the loop does not run.
- For `min <= max`, `RandomInt` hands `Int63n` a positive bound exactly when `max-min+1` fits in an int64 (`SpanPositiveIff`). Otherwise the call panics.

## Model

| member | source | states |
|---|---|---|
| GoInt.Wrap32 | api/transfer.go:120 | int32 arithmetic: the result equals the true value when it fits in int32 and is congruent to it modulo 2^32 |
| GoInt.Wrap64 | util/random.go:17 | int64 arithmetic: the result equals the true value when it fits in int64 and is congruent to it modulo 2^64 |
| Random.AlphabetIsLetters | util/random.go:9 | the alphabet has 26 characters, position i holds 'a'+i, and a character is in it exactly when it is a lower-case letter |
| Random.Int63n | util/random.go:17 | the oracle for `rand.Int63n`: requires a positive bound and returns some value in [0, n) |
| Random.Intn | util/random.go:25 | the oracle for `rand.Intn`: requires a positive bound and returns some value in [0, n) |
| Random.SpanPositiveIff | util/random.go:17 | for min <= max, the wrapped bound `max-min+1` is positive exactly when the true width fits in int64, and then it equals the true width |
| Random.RandomInt | util/random.go:15-18 | requires the bound handed to `Int63n` to be positive (Go panics otherwise); for min <= max the result lies in [min, max] |
| Random.Spell | util/random.go:24-27 | the letters a sequence of draws from [0, 26) selects: one per draw, all in the alphabet, all lower-case |
| Random.RondomString | util/random.go:20-29 | returns exactly n characters (none for negative n), all drawn from the alphabet and so lower-case; the string is `Spell` of the n draws, each in [0, 26) |
| Random.RondomOwner | util/random.go:31-34 | a six-character lower-case string |
| Random.RondomMoney | util/random.go:36-39 | a value in [0, 1000] |
| Random.RondomCurrency | util/random.go:41-46 | one of "EUR", "USD", "CAD" (the index drawn stays within the three codes) |
| Store.Store.GetAccount | api/transfer.go:27 | logs one `GetAccount` call and answers the row, `ErrNoRows` for a missing id, or another error for a failing id |
| Store.Store.GetTransfer | api/transfer.go:89 | logs one `GetTransfer` call and answers the row, `ErrNoRows`, or another error |
| Store.Store.ListTransfers | api/transfer.go:123 | logs one `ListTransfers` call with its arguments and answers the store's listing outcome |
| Store.Store.TransferTx | api/transfer.go:69 | logs one `TransferTx` call with its arguments and answers the engine's outcome; promises nothing about the database afterwards |
| TransferApi.QueryErrorStatus | api/transfer.go:28-34 | the status table `CreateTransferOutcome` and `GetTransferOutcome` use for a failed lookup (404 for `ErrNoRows`, 500 otherwise); the mapping is proved end to end in `SourceLookupFailure`, `DestinationRejected` and `GetTransferStatus` |
| TransferApi.CreateTransferOutcome | api/transfer.go:19-76 | a transfer request is answered 200, 400, 404 or 500, after at most three store calls; a 200 comes only from a bound request whose `TransferTx` call, with the request's from, to and amount, was made and succeeded, and carries exactly its result |
| TransferApi.GetTransferOutcome | api/transfer.go:82-100 | a transfer lookup is answered 200, 400, 404 or 500; a 200 comes only from a bound request whose lookup succeeded and carries exactly the transfer found |
| TransferApi.ListTransfersArgs | api/transfer.go:116-121 | the query is built with the request's account ids and `Limit = PageSize`; for PageID >= 1 without overflow, `Offset = (PageID-1)*PageSize` exactly |
| TransferApi.ListTransferOutcome | api/transfer.go:109-130 | a listing is answered 200, 400 or 500 (never 404); a 200 comes only from a bound request whose listing query succeeded and carries exactly its rows |
| TransferApi.Server.CreateTransfer | api/transfer.go:19-76 | the handler makes exactly the store calls and writes exactly the one response that `CreateTransferOutcome` gives; the database is untouched unless `TransferTx` was called |
| TransferApi.Server.GetTransfer | api/transfer.go:82-100 | the handler makes exactly the store calls and writes exactly the one response that `GetTransferOutcome` gives |
| TransferApi.Server.ListTransfer | api/transfer.go:109-130 | the handler makes exactly the store calls and writes exactly the one response that `ListTransferOutcome` gives |
| TransferProperties.BindFailureIsBadRequest | api/transfer.go:20-24 | a request that fails to bind is answered 400 and no store operation is called |
| TransferProperties.SourceLookupFailure | api/transfer.go:27-35 | a missing source account is answered 404 and a failing lookup 500; only the source is looked up, so neither the destination lookup nor `TransferTx` happens |
| TransferProperties.SourceCurrencyMismatch | api/transfer.go:36-40 | a source account in a currency other than the requested one is answered 400 naming that account; neither the destination lookup nor `TransferTx` happens |
| TransferProperties.DestinationRejected | api/transfer.go:41-54 | after the source passes, a missing destination is answered 404, a failing lookup 500 and a currency mismatch 400 naming the destination; exactly two lookups happen and `TransferTx` does not |
| TransferProperties.CurrencyPairCheckUnreachable | api/transfer.go:36-59 | for every store and request, the source-versus-destination currency check never produces its rejection |
| TransferProperties.TransferTxReachedIff | api/transfer.go:19-69 | `TransferTx` is called if and only if the request binds, both accounts can be read, and both hold the requested currency |
| TransferProperties.TransferTxCalledOnceWithRequest | api/transfer.go:61-75 | once the gate is cleared, the calls are source lookup, destination lookup, then one `TransferTx` with the request's from, to and amount unchanged; engine failure is answered 500, success 200 with its result |
| TransferProperties.TransferTxAtMostOnce | api/transfer.go:63-69 | no request causes more than one `TransferTx` call |
| TransferProperties.CreateTransferOkIff | api/transfer.go:69-75 | a 200 answer comes exactly from a request that clears the gate and an engine call that succeeds |
| TransferProperties.BalanceNeverChecked | api/transfer.go:61-69 | calls and response do not depend on account balances: two stores that differ only in balances give the same outcome |
| TransferProperties.OverdraftReachesTransferTx | api/transfer.go:61-75 | a transfer of 100 from an account holding 0 still reaches `TransferTx` with those arguments and is answered 200 when the engine succeeds |
| TransferProperties.GetTransferStatus | api/transfer.go:82-99 | a binding failure is answered 400 with no store call; otherwise one lookup, answered 200 with the transfer, 404 for a missing one, 500 for a failing one |
| TransferProperties.ListTransferQueriesPage | api/transfer.go:105-123 | with PageID >= 1, 5 <= PageSize <= 10 and no overflow, the handler runs exactly one listing query, for the request's accounts, with `Limit = PageSize` and the non-negative `Offset = (PageID-1)*PageSize` |
| TransferProperties.ListTransferOkIff | api/transfer.go:109-130 | a listing is answered 200 exactly when the query binds and the listing succeeds; a binding failure is answered 400 with no store call; a failed listing is answered 500 whatever the error, `ErrNoRows` included |
| TransferProperties.OffsetIsRowsBefore | api/transfer.go:105-121 | with PageID >= 1, 5 <= PageSize <= 10 and a product that fits in int32, the offset is the non-negative multiple (PageID-1)*PageSize, and 0 for the first page |
| TransferProperties.NextPageFollows | api/transfer.go:119-120 | without overflow, page PageID+1 starts at this page's offset plus its limit |
| TransferProperties.OffsetWrapsPastOverflow | api/transfer.go:105-120 | page 300000000 of size 10 gets a negative offset (-1294967306), and page 536870913 of size 8 gets offset 0, the same as page 1 |

## Left out

- `api/server.go`: router construction, route registration, validator registration and `Start`. This is wiring with no logic of its own.
- The transfer engine `TransferTx` and the queries behind `GetAccount`, `GetTransfer` and `ListTransfers`. They live in `db/sqlc`, which is not part of this model. The engine is an abstract call with a fixed outcome, and the listing query answers with a fixed outcome too. Atomicity, lock ordering, entries, balance updates and rollback are not modelled.
- Store.Store.TransferTx: promises nothing about the database snapshot after the call, because the engine's writes are not part of this model. So `Server.CreateTransfer` says nothing about the store's state once `TransferTx` has run.
- Request binding and validation (`ShouldBindJSON`, `ShouldBindUri`, `ShouldBindQuery` and the `binding` tags). Each is an abstract outcome: the handler receives `None` when binding failed and the bound request otherwise. This is why the offset lemmas take the tag bounds (`page_id >= 1`, `5 <= page_size <= 10`) as hypotheses.
- JSON serialisation and `errorResponse`: an error response carries a structured `ApiError` instead of the formatted message text.
- The request context's cancellation and deadlines, and concurrency between simultaneous handler calls or database transactions.
- The `init` seeding in `util/random.go`, which depends on the clock, and any claim about the statistical distribution of random outputs.
- Go's `int` is taken as 64 bits wide (`rand.Intn`'s bound and `RondomString`'s `n` are `int64`); 32-bit platforms are not modelled.
- Random.RandomInt: for `min > max` where the wrapped bound happens to be positive, the result is `min + r` with wrap-around, and the contract says nothing about it.
