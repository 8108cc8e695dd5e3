# Compound liquidity monitor — a Dafny model

A model of the decision logic of the Compound liquidity monitor (`src/main.rs`).
The monitor polls a Compound market, either a V2 cToken or a V3 Comet. It posts
an alert to a webhook when the available liquidity falls below a threshold. It
also has three command-line operations: supply, withdraw, and a balance report.

Contract reads, the webhook and the signing client are not modelled as calls.
Their answers are inputs: an `Option` or `Result` per read (`None`/`Err` is a
failed call), and a `TxFate` per transaction. Every operation is therefore a
function of the configuration and those answers, and the properties are proved
for all of them.

Modules (one file each):

- `Common`: `Option`, `Result`, and the library integer types as bounded naturals (`U256`, `I256`, `U64`, `U8`, `Address`).
- `Decimal`: decimal digit strings. This covers how an unsigned integer is printed, the value a digit string denotes, zero padding, and trimming trailing zeros.
- `Formatter`: `format_balance`, plus a reference reader of decimal amounts (`ParseAmount`) used to state its round trip.
- `Config`: the configuration fields the logic consults.
- `Snapshot`: `check_liquidity` with its V2 and V3 read sequences, the reserve clamp and the V3 symbol default.
- `Monitor`: the body of the polling loop (`Tick`), the alert it builds, and the loop itself over a finite run of ticks (`Run`).
- `Transactions`: `supply_v3` (with its allowance branch) and `withdraw_v3`.
- `Balance`: `check_balance` and `check_balance_batch`.
- `Cli`: the supply/withdraw arms of `main` (amount parse, version gate, key resolution) and the balance arm.

## Model

| member | source | states |
|---|---|---|
| `Decimal.NatToString` | src/main.rs:462-464 | The printed form of an unsigned integer is a non-empty digit string, and it starts with `0` only for zero. |
| `Decimal.NatToStringValue` | src/main.rs:523-526 | The digits printed for `n` denote `n`. So the alert's numeric text is exact. |
| `Decimal.NatToStringInjective` | src/main.rs:523-526 | Different amounts are never printed the same. |
| `Decimal.PadLeft` | src/main.rs:467 | Padding to `width` has length `max(|s|, width)`, ends with `s`, and has only zeros in front. |
| `Decimal.TrimTrailingZeros` | src/main.rs:468 | The trimmed text is a prefix of the input. Everything removed is a `0`. The result does not end in `0`. |
| `Decimal.LeadingZerosValue` | src/main.rs:467 | Zero padding on the left does not change the value of a digit string. |
| `Decimal.ConcatValue` | src/main.rs:467-473 | Two digit strings written one after the other denote the first times 10^len(second) plus the second. |
| `Decimal.NatToStringLengthBound` | src/main.rs:467 | A number below 10^k is printed with at most k digits, so the padding width of 10^k is always enough. |
| `Decimal.Pow10Length` | src/main.rs:467 | 10^k is printed with k+1 digits, so the fraction width for divisor 10^k is k. |
| `Formatter.FractionText` | src/main.rs:467-468 | The fraction text is digits and never ends in `0`; `FractionNonEmpty` and `FractionDigits` show it is non-empty and denotes the remainder. |
| `Formatter.FormatBalance` | src/main.rs:455-475 | The output is non-empty digits with at most one point, and it starts and ends with a digit. |
| `Formatter.ZeroDivisorIsPlain` | src/main.rs:456-458 | With divisor 0 the output is exactly the balance's decimal text, and it reads back as the balance. |
| `Formatter.FormatCases` | src/main.rs:460-473 | A zero remainder gives the quotient's text alone; otherwise the output is quotient, point, fraction text. |
| `Formatter.FormatShape` | src/main.rs:460-473 | The text before the point is the quotient's decimal text. A point appears iff the division leaves a remainder. The fraction after it is non-empty digits not ending in `0`. |
| `Formatter.FractionNonEmpty` | src/main.rs:466-473 | A non-zero remainder never trims to the empty string, so the formatter's empty-fraction branch is unreachable. |
| `Formatter.FractionDigits` | src/main.rs:467-468 | For divisor 10^k the fraction has at most k digits. Right-padded with zeros to k digits, it denotes the remainder. |
| `Formatter.FormatRoundTrip` | src/main.rs:455-475 | With divisor 10^k the output, read at k decimals, gives back exactly the balance: nothing is lost and nothing is rounded. |
| `Formatter.SplitDigits` | src/main.rs:473 | A digit string splits at its only point into the whole text and the fraction text. |
| `Formatter.ExampleOneAndAHalf` | src/main.rs:467-473 | 1 500 000 base units of a six-decimal token print as `1.5`. |
| `Formatter.ExampleWholeAndZero` | src/main.rs:463-465 | 2 000 000 prints as `2`, and 0 prints as `0`, with divisor 10^6. |
| `Snapshot.CheckLiquidity` | src/main.rs:195-203 | An unparsable market address is the error `Invalid market address`, and only a V3 read can panic; the version-specific rows and `V3Snapshot`/`V2Snapshot` state the rest. |
| `Snapshot.ReadV2` | src/main.rs:205-230 | The read succeeds iff all four calls do, reports the cash as liquidity and the cToken's symbol, never panics, and a failed cash read gives its own context message. |
| `Snapshot.ReadV3` | src/main.rs:232-297 | A panic needs reserves or a utilization of 2^128 or more; a snapshot reports the base token's balance held by the market, the clamped reserves and the configured or default symbol. |
| `Snapshot.ReservesToUnsigned` | src/main.rs:256-261 | A negative reserve becomes 0. A reserve in [0, 2^128) passes unchanged. The conversion fails (panics) exactly for reserves of 2^128 or more. |
| `Snapshot.V3Snapshot` | src/main.rs:232-297 | A V3 read succeeds iff every call succeeds and both narrowings fit. It then reports the base token's balance held by the market, the total borrow, the clamped reserves, and the configured name or `cUSDCv3`. |
| `Snapshot.V3LiquidityIgnoresAccounting` | src/main.rs:239-264 | The reported total supply and total borrow change neither the success of a V3 read nor the liquidity it reports. |
| `Snapshot.NegativeReservesAreZero` | src/main.rs:256-261 | A reserve of -100 is reported as 0. |
| `Snapshot.V2Snapshot` | src/main.rs:205-230 | A V2 read succeeds iff all four calls succeed; it passes their answers through unchanged and never panics. |
| `Snapshot.PanicOnlyOnWideValues` | src/main.rs:195-297 | Only a V3 reserve or utilization of 2^128 or more panics. An unparsable market address is an error before any call. |
| `Monitor.BuildAlert` | src/main.rs:522-534 | Every numeric field of the alert is digit text denoting its value. Address, symbol and timestamp are carried over. |
| `Monitor.SendAlert` | src/main.rs:299-316 | Posting fails only when the webhook cannot be reached. Any HTTP status, success or not, counts as sent. |
| `Monitor.Tick` | src/main.rs:514-548 | A tick aborts iff the read panics; an alert is sent only with notifications on and skipped only with them off; every alert built reports a liquidity strictly below the threshold and the tick's time. `TickDecision` gives the converse directions. |
| `Config.NotificationsDefaultOn` | src/main.rs:537 | Notifications are on unless the configuration says `false`; a missing setting means on. |
| `Monitor.TickDecision` | src/main.rs:514-548 | An alert is built iff the read succeeds with liquidity strictly below the threshold. It is sent iff notifications are also not switched off. A failed read is only an error. Only a panic ends the loop. |
| `Monitor.DispatchCount` | src/main.rs:511-550 | The number of alerts dispatched (a POST attempted, whether or not the webhook was reached) is the number of breaching ticks while notifications are enabled, and zero when they are off. |
| `Monitor.OneAlertPerTick` | src/main.rs:514-548 | Every tick dispatches at most one alert. |
| `Monitor.NoMoreAlertsThanTicks` | src/main.rs:511-550 | No more alerts are dispatched over a run than there are ticks. |
| `Monitor.DispatchedAreBelowThreshold` | src/main.rs:516-540 | Every dispatched alert reports a liquidity strictly below the threshold and carries the threshold's exact text. |
| `Monitor.DispatchesFrom` | src/main.rs:511-550 | The alerts from tick i on are those of tick i, then those of the rest, unless tick i panics. |
| `Monitor.Run` | src/main.rs:511-550 | The loop dispatches exactly the alerts of the run, in order, counting those whose POST failed. It completes every tick before the first panic and stops at that panic. |
| `Transactions.Connect` | src/main.rs:321-334 | Connecting succeeds iff the key parses, the provider and market parse, and the base-token read succeeds. A bad key fails with `Invalid private key`. |
| `Transactions.Confirm` | src/main.rs:343-350 | A sent transaction is a success iff it is mined. A missing receipt fails with the path's own message. |
| `Transactions.SupplyV3` | src/main.rs:318-358 | At most two transactions, only approvals and supplies, sent only after the reads succeed; success needs the last one to be a mined supply. `SupplyApproval`, `SupplyAfterApproval`, `SupplySent` and `SupplyOutcome` pin down the rest. |
| `Transactions.WithdrawV3` | src/main.rs:360-388 | At most one transaction, a withdrawal of `amount` of the base token from the market, sent only after connecting; success iff it connects and the withdrawal is mined. |
| `Transactions.SupplyApproval` | src/main.rs:337-345 | An approval is sent iff every read succeeds and the allowance is strictly below the amount. It is then the first transaction and grants the market `U256::MAX` of the base token. |
| `Transactions.SupplyAfterApproval` | src/main.rs:337-351 | The supply is sent at most once and last. It is sent only after every read succeeded and after any needed approval was mined, and it moves `amount` of the base token into the market. At most two transactions are sent. |
| `Transactions.SupplySent` | src/main.rs:336-351 | The supply is handed to the client iff the reads succeed and any needed approval is mined, whether or not it is then mined. An unmined approval ends the path after that single transaction, so at most one approval is sent. Two transactions are always an approval followed by a supply. A dropped supply fails with "Supply transaction failed". |
| `Transactions.SupplyOutcome` | src/main.rs:318-358 | Supply succeeds iff the reads succeed, any needed approval is mined, and the supply is mined. |
| `Transactions.WithdrawIgnoresAllowance` | src/main.rs:360-388 | Withdraw sends only withdrawals, and its behaviour does not depend on the allowance or on an approval. |
| `Transactions.WithdrawOutcome` | src/main.rs:375-381 | Withdraw sends exactly one withdrawal of `amount` iff it connects, and succeeds iff that withdrawal is mined. |
| `Balance.CheckBalance` | src/main.rs:390-428 | The check succeeds iff the address parses and every read succeeds. A bad address fails with `Invalid address`. The report carries the raw balances and decimals it read. |
| `Balance.Pow10Fits` | src/main.rs:411 | 10^decimals fits 128 bits for decimals up to 38. |
| `Balance.ReportIsExact` | src/main.rs:408-413 | Both rendered balances read back, at the token's decimals, as exactly the raw balances. |
| `Balance.CheckBalanceBatch` | src/main.rs:430-453 | A load error is the result. Otherwise every entry is checked once, in list order, with its own answers. A failed entry does not affect the others. The batch succeeds, and an empty list checks nothing. |
| `Cli.ResolveKey` | src/main.rs:579-582 | The key is the command-line key if given, else the configured key, else the error `Private key not provided…`. |
| `Cli.RunTransactionCommand` | src/main.rs:571-600 | A transaction is sent only for a parsed amount on a V3 market, and an unparsable amount is the error `Invalid amount`; `AmountThenVersion` and `TransactionsNeedGateAndKey` state the order of the gates and the key used. |
| `Cli.AmountThenVersion` | src/main.rs:571-577 | An unparsable amount fails as `Invalid amount` whatever the market. A parsed amount on a non-V3 market fails with the V3-only message. Neither sends a transaction. |
| `Cli.TransactionsNeedGateAndKey` | src/main.rs:571-600 | A transaction is sent only for a parsed amount, a V3 market and a resolved key. The command then runs supply or withdraw with that amount and the resolved key. |
| `Cli.RunBalanceCommand` | src/main.rs:601-609 | With an address, the command is one check of it whose failure is the command's. Without one, it is the batch over the address list. |

## Left out

- `calculate_apy` and the utilization percentage: floating-point `powf` and division that only feed a log line. The 128-bit narrowing of the utilization that precedes the percentage is modelled, because it can panic.
- Contract calls, provider construction, wallet signing, sending and confirmation: library I/O. Their answers are inputs (`ChainReads`, `TxEnv`, `BalanceReads`), and the libraries' error messages are carried through as given.
- The HTTP POST and JSON serialisation of `send_alert`: only the outcome (reached or unreachable) is modelled, through `Delivery`.
- Timers, the wall clock and logging: the interval timer becomes a finite sequence of ticks, and the clock a `now` field of each tick. Log lines are not modelled.
- Reading and deserialising `config.json` and `monitor_address.json`, and clap's argument parsing: the parsed values are inputs (`Config`, the `loaded` address list, the command's arguments).
- Address, key, URL and decimal-amount parsing by the libraries: their results are inputs. `Config.parsedMarket`, `Config.rpcEndpoint`, `TxEnv.keys`, `BalanceReads.account` and the command's `amount` stand for them.
- `CompoundMonitor::new`: building the provider and parsing the threshold happen before any command. The model takes the threshold as an already-parsed `U256`.
- `main`'s monitor arm: it runs the loop, which is `Monitor.Run`.
- Balance.CheckBalance: requires decimals of at most 38 when every read succeeds and the divisor is computed. For larger decimals `10u128.pow` overflows 128 bits, which panics in a debug build and wraps in a release build. Neither behaviour is modelled; a check that fails at an earlier read is modelled for any decimals.
- Balance.CheckBalanceBatch: the answers to the i-th check are given as `answers(i)`, so the link between an entry's address text and the account parsed from it is an input, not modelled.
- Formatter.FormatRoundTrip: the round trip is stated for divisors that are powers of ten, the only divisors the program passes. For other divisors the fraction is not a base-ten fraction of the divisor (5 with divisor 3 prints `1.2`).
- In the V3 reader a failure to read the utilization or either rate fails the whole read, although those values only feed a log line. A utilization or reserve of 2^128 or more panics and ends the process instead of returning a read error; the model ends the run there.
