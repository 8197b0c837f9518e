# Gas estimate fee-history aggregation, in Dafny

This project models the core of a small Go service that answers
`GET /gas/estimate` with three priority-fee tiers (slow, average, fast) for an
Ethereum-compatible chain. The handler `Estimate` dials a JSON-RPC provider,
fetches the latest block header, parses the configured block-scan window
(`GasEstimateBlockScan`), asks the provider for the fee history of that many
blocks at the 25th, 50th and 75th reward percentiles, turns the answer into one
`BlockFeeData` record per block (`FeeHistoryToDataPerBlock`), and averages each
percentile over the records with big-integer arithmetic
(`averagePriorityFeePerGas`).

Modules:

- `Results` (results.dfy): `Option` and `Result`, used for failed provider calls and panics.
- `Errors` (errors.dfy): the two error kinds of the error handler and their `type` tags.
- `Decimal` (decimal.dfy): `strconv.ParseUint(s, 10, 64)` and `big.Int.String`.
  The parser follows Go's digit loop, including its overflow cut-off and the
  64-bit wrap-around check `n1 < n`.
- `Gas` (gas.dfy): the fee history and per-block records, the backward walk, and
  the tier average. Each has a pure function and a loop method proved equal to it.
- `Estimate` (estimate.dfy): the handler as a pure function of an abstract
  provider and the window text. Each run returns the provider calls it made,
  so the order of steps and the calls left out after a failure can be stated.

Wei amounts and block numbers are Go `*big.Int` values, so they are unbounded
`int`s here. `big.Int.Div` is Euclidean division, and so is Dafny's `/` on `int`.
Go panics (an index out of range, a division by zero) are not preconditions.
They are explicit `Panic` results, so the pipeline states which inputs reach them.
The server's recover middleware turns such a panic into a 500 response.

Three facts about the code shape the model:

- `big.Int.Div` panics on a zero-length record list, and a window of `"0"`
  parses and so reaches that division once the provider answers the query
  for zero blocks (`Estimate.ZeroWindowPanics`).
- The walk indexes the three arrays without a bounds check. The model returns
  `IndexOutOfRange` exactly when an array has fewer than `blocks` entries.
- Record `i` is labelled `oldestBlock - i` while it reads entry `i` of the
  provider's arrays. Nothing reads the `number` field, so the labels have no
  effect on the response.

## Model

| member | source | states |
|---|---|---|
| Errors.TypeTag | internal/errors/errors.go:15-20 | each error kind has its own `type` tag, "ProviderError" or "ConfigurationError" |
| Decimal.ParseUint | internal/gas/estimate.go:36 | the window parses exactly when it is a non-empty string of decimal digits whose value fits in 64 bits; the result is that value; empty text is a syntax error, an all-digit overflow is a range error, text with a non-digit whose preceding digits did not overflow is a syntax error, and one whose preceding digits overflowed is a range error |
| Decimal.FormatInt | internal/gas/estimate.go:57-59 | a tier is rendered as its decimal digits without leading zeros, with a leading minus exactly for negative values |
| Decimal.FormatParseRoundTrip | internal/gas/estimate.go:36 | parsing a rendered non-negative value gives it back when it fits in 64 bits, and a range error otherwise |
| Decimal.ParseFormatRoundTrip | internal/gas/estimate.go:36 | an accepted window text without a leading zero is exactly the rendering of its value |
| Gas.Walk | internal/gas/estimate.go:95-113 | from block `blockNum` and index `index`, the loop emits one record per block above `untilBlock`, record `k` labelled `blockNum - k` and taken from entry `index + k`; it panics exactly when an entry it needs is missing |
| Gas.FeeHistoryToDataPerBlock | internal/gas/estimate.go:93-115 | the walk succeeds exactly when all three arrays have at least `blocks` entries; it then yields exactly `blocks` records, record `i` holding base fee, gas-used ratio and rewards of entry `i`, labelled `oldestBlock - i`; `blocks = 0` yields no records |
| Gas.NormalizeByLoop | internal/gas/estimate.go:93-115 | the loop form, counting the block number down and the index up, has the same outcome and records as the function |
| Gas.AveragePriorityFeePerGas | internal/gas/estimate.go:67-74 | the average succeeds exactly when there is at least one record and every record has the tier; a missing tier is an index panic and an empty list a division-by-zero panic; the result `avg` satisfies `avg*n <= sum < avg*n + n` for `n` records |
| Gas.AverageByLoop | internal/gas/estimate.go:67-74 | the running-total loop followed by one division gives the same outcome as the function |
| Gas.TierSumPermutation | internal/gas/estimate.go:69-71 | the tier sum of a reordering of the records equals the original sum |
| Gas.AverageOrderIndependent | internal/gas/estimate.go:67-74 | reordering the records changes neither the average nor whether it panics |
| Gas.TierSumBounds | internal/gas/estimate.go:68-71 | if every reward lies in `[lo, hi]`, the sum lies in `[lo*n, hi*n]` |
| Gas.AverageWithinBounds | internal/gas/estimate.go:67-74 | the average lies between any lower and upper bound of the averaged rewards, so between their minimum and maximum |
| Gas.AverageOfUniform | internal/gas/estimate.go:67-74 | when every record has the same reward `c` in the tier, the average is exactly `c` |
| Estimate.Tiers | internal/gas/estimate.go:48-51 | a response is produced exactly when `0 < blocks`, all arrays have `blocks` entries and each reward row has three tiers; tiers 0, 1 and 2 become slow, average and fast; every failure here is a panic; an array shorter than `blocks` or a reward row with fewer than three tiers is an index panic and `blocks = 0` panics dividing by zero |
| Estimate.Estimate | internal/gas/estimate.go:22-51 | calls are made in the order dial, header, fee history and stop at the first failure; a failed dial, header or fee-history call is a provider error and a window that does not parse is a configuration error, each with the title and message the handler passes and no fee-history query is made; the query asks for the parsed window at the header's block with percentiles 25, 50 and 75; a response is produced exactly when every call succeeded and the tiers could be computed; once the fee history arrives, the outcome, panic reason included, is that of `Estimate.Tiers` |
| Estimate.ZeroWindowPanics | internal/gas/estimate.go:36-51 | a window of zero passes parsing, reaches the provider, and ends in a division-by-zero panic |
| Estimate.MockHistoryTiers | internal/gas/estimate_test.go:29-34 | over the test's mocked history (three blocks from 100, rewards 500, 600 and 700 in every block), the tiers are "500", "600" and "700" |

## Left out

- HTTP routing, the echo context, JSON rendering of the response and `log.Println` (internal/gas/estimate.go:53-64, main.go): I/O. The response is modelled as its three decimal strings.
- `errors.HandleError` (internal/errors/errors.go:22-35): only the error kind, title and message passed to it are kept. The HTTP status (500 for every failure), the status text and the logging are response formatting.
- `ethclient.Dial`, `HeaderByNumber` and `FeeHistory`: network calls. They are the abstract `Estimate.Provider`: whether dialling succeeds, the latest block number or a failure, and a fee-history answer or a failure for each query.
- Environment loading (internal/config.go): global state read from the OS. The window text is a parameter of `Estimate.Estimate`, and the provider URL is inside the abstract provider.
- `gasUsedRatio` is a `float64` that nothing computes with. It is carried as its 64-bit pattern.
- The requested percentiles are `float64` values 25, 50 and 75 in the code. They are the integers 25, 50 and 75 here.
- Pointer aliasing: `blockNum` aliases `history.OldestBlock` and is decremented in place. So every record's `number` points at one shared `*big.Int`, and the caller's `OldestBlock` changes. Block numbers are values here, and each record keeps the number it was labelled with when created.
- Gas.FeeHistoryToDataPerBlock: a panic carries no index or array length.
- Decimal.ParseUint: the error carries only its kind (syntax or range), not Go's `NumError` fields (function name, input text), nor the value Go returns beside the error (0, or 2^64-1 on a range error); the handler reads only whether there was an error.
- The conversion `int64(len(feeData))` is exact here: a Go slice never holds 2^63 records.
- The golden strings in the test (internal/gas/estimate_test.go:62-67) come from a simulated chain backend that is not part of this model, so they are not stated.
- Idempotence of the endpoint holds because `Estimate.Estimate` is a function: the same provider answers and the same window give the same run.
