# Gophermart loyalty service: a verified model of its core

The loyalty service accepts order numbers from its users, checks them with
the Luhn formula, and stores them. A background agent asks an external
accrual service how many points each pending order earned and writes the
answer back. Users register, log in, and spend points by withdrawing them
against an order number.

This Dafny project models the parts of the service that make decisions:

- `luhn.dfy` (`Luhn`): the order-number check `CheckNumber` and `GetNumberFromBody`. The check is proved against a reference Luhn sum read from the right, following ISO/IEC 7812-1, Annex B.
- `storage.dfy` (`Storage`): the retry loop `retry2` with its `retryPolicy`. Each database call goes through this loop.
- `agent.dfy` (`Agent`): the agent's tick loop `Run`, the batch `processingOrders` with its per-order job, and `worker`.
- `orders.dfy` (`Orders`): the `Order` and `OrderBalance` records, i.e. orders and withdrawals. Covers their decoding from database rows, their JSON decoding (with the mapping of the accrual service's `REGISTERED` status to `NEW`), their JSON encoding with the order number as base-10 text, and `NewOrderBalanceByRequestBody`.
- `users.dfy` (`Users`): the `User` and `UserBalance` records.
  - Row decoding. `users.go` and `models.go` declare it twice, identically, and both are modelled once.
  - `NewUserByRequestBody` with its empty-login and empty-password checks.
  - `NewUserByJSON`.
  - `CheckPassword`, against an abstract password hash.

Three supporting modules describe the library behaviour these files rely on:

- `decimal.dfy` (`Decimal`) models `strconv.ParseInt(s, 10, 64)` and `strconv.Itoa`, and proves the decimal round trip.
- `rows.dfy` (`Rows`) models a pgx row as a list of values beside a list of column names. It defines `strings.ToLower` for comparison with ASCII names, and the column fold shared by every `ScanRow`.
- `io.dfy` and `wrappers.dfy` hold bytes, I/O and JSON errors, `Option` and `Result`.

Classes model the records whose pointer-receiver methods update fields: `Order`, `OrderBalance`, `User` and `UserBalance`. Each has a `Data()` snapshot and `ScanRow`/`UnmarshalJSON` methods with `modifies this`.

Two modelling choices apply throughout:

- **Loops are methods.** The retry loop, the Luhn loop, the column loops, `worker`, `processingOrders` and `Run` are methods with loop invariants. Each is proved against a specification function (`SumFromRight`, `Scan`, `BatchCalls`, `Logged`, `RunCalls`). Lemmas then state what those functions mean: `LastSet`, `Fetched` and the scenario lemmas.
- **The outside world is a parameter.** This covers the database (`op`, `Services`, `Row`), the accrual service, the JSON decoder (`decode`), the password hash (`hash`), the request body (a `Result` of bytes or an I/O error) and the context (`cancelled`, `Done` events).

## Model

| member | source | states |
|---|---|---|
| Luhn.Contribution | iternal/luhnalg/luhnalg.go:25-31 | An undoubled digit contributes itself. A doubled digit contributes the sum of the digits of its double (2d, or 2d − 9 above 9). Every contribution lies in 0..9. |
| Luhn.ContributionInjective | iternal/luhnalg/luhnalg.go:25-31 | Two different digits never contribute the same amount, doubled or not. |
| Luhn.CheckNumber | iternal/luhnalg/luhnalg.go:12-37 | The left-to-right loop, which doubles the digit at `idx` when `idx % 2 == len % 2`, returns true exactly when every byte is an ASCII digit and the right-to-left Luhn sum is divisible by 10. Any non-digit byte gives false. |
| Luhn.LoopParityIsRightParity | iternal/luhnalg/luhnalg.go:15-25 | The loop's parity rule doubles exactly the digits at an odd distance from the check digit. |
| Luhn.SumUpdate | iternal/luhnalg/luhnalg.go:18-34 | Replacing one digit changes the sum by exactly the difference of that position's contributions. |
| Luhn.SumUnchangedBeyond | iternal/luhnalg/luhnalg.go:18-34 | The sum of a prefix depends only on the bytes in that prefix. |
| Luhn.SingleDigitErrorDetected | iternal/luhnalg/luhnalg.go:12-37 | A valid number with any single digit changed to another digit fails the check. |
| Luhn.PrependZeroSum | iternal/luhnalg/luhnalg.go:15-33 | A leading '0' adds nothing to the sum and shifts no doubling. |
| Luhn.LeadingZeroIrrelevant | iternal/luhnalg/luhnalg.go:15-36 | Prepending '0' never changes the verdict, for every byte string. |
| Luhn.DecimalBytesIsDecimal | iternal/luhnalg/luhnalg_test.go:9-39 | `DecimalBytes(n)`, the text the test numbers stand for, reads back as `n` and has no leading zero. |
| Luhn.DecimalBytesSum | iternal/luhnalg/luhnalg.go:18-34 | The Luhn sum of the decimal text of `n` equals the same sum computed on `n` digit by digit from its last digit. |
| Luhn.VectorAccepted4561261212345467 | iternal/luhnalg/luhnalg_test.go:10-13 | The decimal text of 4561261212345467 passes the check (its Luhn sum is 60). |
| Luhn.VectorAccepted3465502494 | iternal/luhnalg/luhnalg_test.go:15-18 | The decimal text of 3465502494 passes the check (its Luhn sum is 40). |
| Luhn.VectorAccepted7000166989766106378 | iternal/luhnalg/luhnalg_test.go:20-23 | The decimal text of 7000166989766106378 passes the check (its Luhn sum is 80). |
| Luhn.VectorRejected4561261212345464 | iternal/luhnalg/luhnalg_test.go:25-28 | The decimal text of 4561261212345464 fails the check (its Luhn sum is 57). |
| Luhn.VectorRejected346550249 | iternal/luhnalg/luhnalg_test.go:30-33 | The decimal text of 346550249 fails the check (its Luhn sum is 42). |
| Luhn.VectorRejected700016698976610637 | iternal/luhnalg/luhnalg_test.go:35-38 | The decimal text of 700016698976610637 fails the check (its Luhn sum is 75). |
| Luhn.EmptyNumberPasses | iternal/luhnalg/luhnalg.go:13-36 | The empty body has sum 0 and passes the check. |
| Luhn.GetNumberFromBody | iternal/luhnalg/luhnalg.go:39-54 | A read failure is reported as an invalid body. Otherwise the body's bytes are returned unchanged exactly when they pass the Luhn check, and the result is `ErrInvalidNumber` otherwise. |
| Decimal.ParseUintDigitsCorrect | iternal/models/orders.go:64 | The digit loop of `strconv.ParseUint` succeeds exactly on digit strings whose value fits in 64 unsigned bits, and returns that value. Otherwise a syntax error carries 0 and a range error carries the maximum. |
| Decimal.ParseUintCorrect | iternal/models/orders.go:64 | Likewise for the whole unsigned parse: the empty text is a syntax error. |
| Decimal.ParseInt | iternal/models/orders.go:64 | Parsing succeeds exactly on an optional sign followed by digits whose value fits in `int64`, and then yields that value. Any other text is an error: a syntax error carries 0, and a range error, which the digit scan can report before it reaches a non-digit, carries the bound of the text's sign (`MinInt64` exactly when the text starts with '-'). |
| Decimal.FormatUint | iternal/models/orders.go:84 | The text is non-empty, made of digits, and denotes `n`. It starts with '0' only when `n` is 0, so it has no leading zero. |
| Decimal.FormatInt | iternal/models/orders.go:84 | The text is decimal and denotes `n`. It starts with '-' exactly when `n` is negative, never with '+', and its digits have no leading zero. |
| Decimal.FormatParseRoundTrip | iternal/models/orders.go:148-160 | Parsing the printed form of any `int64` gives it back with no error. |
| Rows.FoldChar | iternal/models/orders.go:29 | ASCII capitals fold to their lower case, U+0130 to 'i' and the Kelvin sign U+212A to 'k'; every other character is left as it is. A folded ASCII lower-case letter therefore comes only from a letter or one of those two runes. |
| Rows.LowerMatchesKey | iternal/models/orders.go:29 | A column name matches a lower-case key, ignoring case as `strings.ToLower` does, exactly when it has the key's length and each character is the key's letter, its ASCII capital, or (for 'i' and 'k') U+0130 or U+212A. |
| Rows.LastSet | iternal/models/orders.go:28-45 | The result is the index of the last non-null column named `key` (ignoring case), or none when no such column exists. |
| Rows.ScanField | iternal/models/orders.go:28-45 | The column fold leaves each field as the last non-null column of its name says, or unchanged when there is none. |
| Storage.Retry | iternal/storage/storage.go:94-117 | At most `retryCount + 1` calls are made. A success or non-transient first result is returned at once with no wait. Only transient failures are retried. Wait k lasts `duration + k·increment`. The loop stops on a cancelled wait, a non-transient result, or exhausted retries, and returns the last retry's result. With no retry it returns the zero value and a nil error. |
| Storage.RetryKeepingLastResult | iternal/storage/storage.go:94-117 | The corrected loop has the same bound, schedule and stop conditions. It always returns the result of the last call made, so it never reports success after a failed call. |
| Storage.CancelledBeforeFirstRetry | iternal/storage/storage.go:99-110 | A transient first failure followed by a cancelled first wait is reported by `Retry` as success with no error, and by the corrected loop as that failure. |
| Storage.DefaultPolicyRecovers | iternal/storage/storage.go:28 | Under policy {3, 1, 2}, three transient failures then a success give 4 calls, waits of 1, 3 and 5 seconds, and the success. |
| Storage.DefaultPolicyGivesUp | iternal/storage/storage.go:28 | Under policy {3, 1, 2}, a call that keeps failing transiently is made 4 times, and the fourth error is returned. |
| Orders.ScanOrderByLastSet | iternal/models/orders.go:28-45 | `number`, `status`, `accrual` and `uploadedAt` each take the value of the last column of their name (ignoring case) that has a value. A field with no such column is unchanged. A null accrual leaves `Accrual` as it was, and other columns are ignored. |
| Orders.Order.ScanRow | iternal/models/orders.go:22-48 | A failed read returns its error and assigns nothing. Otherwise the new fields are the column fold over the row, with no error. |
| Orders.NormalizeStatus | iternal/models/orders.go:65-69 | "REGISTERED" becomes "NEW", every other status is kept, and the result is never "REGISTERED". |
| Orders.NormalizeStatusIdempotent | iternal/models/orders.go:65-69 | Normalising a normalised status changes nothing. |
| Orders.MarshalOrder | iternal/models/orders.go:76-88 | The number is printed as decimal text that parses back to it with no error, and every other field is printed as it is. |
| Orders.Order.UnmarshalJSON | iternal/models/orders.go:63-73 | The number is `ParseInt` of the service's order text, and its error is exactly a failure to be base-10 `int64`. The status is normalised, the accrual is copied, and the upload time is kept. |
| Orders.ScanBalanceByLastSet | iternal/models/orders.go:120-130 | `order`, `sum` and `processedAt` each take the last column of their name. A field with no such column is unchanged. |
| Orders.OrderBalance.ScanRow | iternal/models/orders.go:114-133 | A failed read returns its error and assigns nothing. Otherwise the new fields are the column fold over the row. |
| Orders.MarshalBalance | iternal/models/orders.go:152-164 | The order number is printed as decimal text that parses back to it, and the sum and time are printed as they are. |
| Orders.OrderBalance.UnmarshalJSON | iternal/models/orders.go:135-150 | A malformed document is reported. Otherwise the sum and time are taken over and the order text is parsed. The call fails exactly when that text is not base-10 `int64`, and the parsed value is stored either way. |
| Orders.MarshalUnmarshalBalance | iternal/models/orders.go:135-164 | A withdrawal printed and read back is the same withdrawal, with no error. |
| Orders.NewOrderBalanceByRequestBody | iternal/models/orders.go:96-112 | A read failure and a malformed document are reported as such. Otherwise the call succeeds exactly when the order text is base-10 `int64`, giving the parsed number with the document's sum and time. |
| Orders.EmptyBalanceBodyRejected | iternal/models/orders.go:96-112 | An empty body is a JSON error whenever the decoder rejects the empty document. |
| Users.ScanUserByLastSet | iternal/models/users.go:54-63 | Login, password and salt each take the last column of their name (ignoring case). A field with no such column is unchanged, and other columns are ignored. |
| Users.User.ScanRow | iternal/models/users.go:48-66 | A failed read returns its error and assigns nothing. Otherwise the new fields are the column fold over the row. The same-bodied `ScanRow` at `iternal/models/models.go:17-35` is modelled by this member too. |
| Users.NewUserByRequestBody | iternal/models/users.go:22-46 | Errors come in this order: read failure, malformed document, empty login, empty password. A user is returned exactly when both login and password are non-empty. It carries the document's login and password and an empty salt. |
| Users.NewUserByJSON | iternal/models/models.go:37-46 | The call fails exactly on a malformed document. An empty login or password is accepted, and the salt is never taken from the document. |
| Users.RequestBodyIsJSONWithChecks | iternal/models/users.go:22-46 | `NewUserByRequestBody` on a readable body succeeds exactly when `NewUserByJSON` succeeds with a non-empty login and password, and then returns the same user. |
| Users.EmptyUserBodyRejected | iternal/models/users.go:30-35 | An empty body is a JSON error whenever the decoder rejects the empty document. |
| Users.User.CheckPassword | iternal/models/users.go:78-90 | The check succeeds exactly when hash(candidate, salt) equals the stored password. A hash failure is returned as it is. The result is `ErrPWDNotEqual` exactly when the hash was computed and differs. |
| Users.ScanBalanceByLastSet | iternal/models/users.go:103-111 | `Current` takes the last "current" column. `Withdrawn` takes the last "withdrawn" column and stays absent on a fresh balance when there is none. |
| Users.UserBalance.ScanRow | iternal/models/users.go:97-114 | A failed read returns its error and assigns nothing. Otherwise the new fields are the column fold over the row. |
| Agent.RunJob | iternal/agent/agent.go:65-83 | A job fetches first. On a fetch error it returns that error and makes no update. Otherwise it updates with exactly the fetched order and returns the update's error. It succeeds exactly when both calls do. |
| Agent.FetchedAppend | iternal/agent/agent.go:64-84 | The fetches of two call sequences put together are the fetches of each, in order. |
| Agent.EveryJobRuns | iternal/agent/agent.go:64-84 | In a batch, every listed number is fetched exactly once and in list order, whatever earlier jobs returned. |
| Agent.UpdatesFollowFetchesInBatch | iternal/agent/agent.go:69-82 | Every update in a batch comes straight after the fetch whose result it writes. |
| Agent.NothingLoggedIffAllSucceed | iternal/agent/agent.go:90-100 | The workers log nothing exactly when every job succeeds, and log at most one error per job. |
| Agent.Worker | iternal/agent/agent.go:90-101 | The worker runs every job in order, goes on after failures, and logs the failing jobs' errors. |
| Agent.ProcessingOrders | iternal/agent/agent.go:51-88 | "No rows" succeeds with no job. Any other listing error is returned, wrapped, with no job. Otherwise one job per listed number is submitted in list order, the jobs run, and the batch succeeds whatever they return. |
| Agent.Run | iternal/agent/agent.go:28-49 | Each tick runs one batch. The loop returns nil when the context is done, and returns an error only for a failed listing, namely the first one. Otherwise it keeps waiting. The calls made are those of the batches run. |

## Left out

- Concurrency: the worker goroutines, the buffered `jobs` channel and the `sync.WaitGroup` are not modelled. Jobs run sequentially, in submission order, within their batch. `wg.Add(1)` sits inside the job, so `wg.Wait` does not actually wait for the batch. A `workerLimit` of 0 would block the first submission forever. Each job is taken to fetch its own listed number: the closure at `iternal/agent/agent.go:64-69` captures the loop variable `val`, which is per iteration only under Go 1.22 or later; under earlier semantics the jobs could all see the last number.
- Timers and clocks: retry and tick intervals are recorded, not slept. Whether the context or the timer wins a `select` is the `cancelled` choice in `Retry` and the `Done`/`Tick` events in `Run`.
- Agent.Run: the endless loop is modelled over a finite schedule of events, and `Waiting` is the state when the schedule ends.
- `isonnectionException` (pg SQLSTATE connection-exception class) is the abstract `transient` predicate of `Retry`.
- The store's SQL is not part of this model: `NewStorage` beyond its default policy, `createTables`, `CreateUser`, `GetNotProcessedOrders` and `UpdateOrder`. The listing and the update are inputs (`Listing`, `Services`).
- `encoding/json` parsing and printing: documents are datatypes and the decoder is a parameter. A document holds every key. A missing key stands for the value of a fresh receiver, and decoding into a receiver that already holds values is not modelled.
- Orders.Order.UnmarshalJSON: requires a non-empty service "order" field. The fallback branch (a decode error, or an empty "order") decodes the text into the `Order` itself again, which re-enters this same method. That branch is not modelled. Text printed by `Order.MarshalJSON` carries its number under the key "number", not "order", so reading it back always takes that fallback; the model therefore states no print-then-read round trip for `Order` (the number's own round trip is `MarshalOrder`'s contract).
- Orders.OrderBalance.UnmarshalJSON: on a malformed document it leaves the receiver unchanged. `encoding/json` may have assigned some fields before failing; the callers discard the receiver then.
- Orders.Order.ScanRow: requires each value to have the Go type its column's type assertion expects, and at least as many column names as values. The Go method panics otherwise. The same holds for Orders.OrderBalance.ScanRow, Users.User.ScanRow and Users.UserBalance.ScanRow.
- Rows.Lower: gives `strings.ToLower`'s result only as far as comparison with the lower-case ASCII column names is concerned. Other non-ASCII characters are left as they are.
- Floating-point values (`Accrual`, `Sum`, `Current`, `Withdrawn`) are opaque values with no arithmetic. Timestamps are opaque too.
- The password hash (SHA-256 over the hex-decoded salt) is the abstract `hash` parameter. `iternal/hasher/hasher.go` is not part of this model.
- `strconv.Itoa(int(n))` assumes a 64-bit `int`, so no truncation.
- Error texts (`fmt.Errorf` wrapping, "empty login", ...) are constructors of error datatypes. Logging is not modelled.
- Luhn.GetNumberFromBody returns the body's bytes where the Go function returns them as a `string`.
- The Luhn test cases in `iternal/luhnalg/luhnalg_test.go` pass integers to `CheckNumber`, which takes a `[]byte`. The model checks the decimal text of each integer (`DecimalBytes`).
- The HTTP client, the handlers, gzip middleware, JWT tokens, configuration loading and `main` are not part of this model.

## Findings

| source | as written | input that shows it | evidently intended | confidence | as-written member | corrected member |
|---|---|---|---|---|---|---|
| iternal/storage/storage.go:95-110 | The first call's `(value, error)` is scoped to the `if`. When the context is done before the first timer fires, or the policy allows no retries, `retry2` returns the zero value and a nil error. | A first call that fails with a connection exception, then a context that is done before the first retry (`Storage.CancelledBeforeFirstRetry`). | Return the first call's error, so that a failed database call is never reported as a success. | high; not executed | Storage.Retry | Storage.RetryKeepingLastResult |
