# FIFO lot ledger

This project models a multi-currency wallet ledger that keeps every deposit as a
funding lot. Each currency has a queue of lots. A lot (`Party`) holds a spendable
`current_amount`, the `original_amount` paid in, the transaction id that funded it
and the currency it came from.

The ledger's operations are modelled as follows.

- **deposit** appends one lot. Its spendable amount is the amount net of the fee,
  clamped at zero.
- **_spend_funds** drains `total_amount + fee` from the front of a queue, lot by lot.
  - Every take is split between principal and fee in the ratio of the request.
  - Every take is charged a proportional share of the lot's original amount.
  - A used-up lot is popped. A partly used lot stays at the front.
- **withdraw** reports the spend records, rounded to six places.
- **convert** re-deposits the principal of every record, rescaled to `amount_to`,
  as new lots of the target currency. The new lots carry the records' provenance.
- **balance** sums every queue and rounds the sum to six places.

The model is in two layers.

- **Values** (`rounding.dfy`, `lots.dfy`, `spend.dfy`, `outputs.dfy`). These are pure
  functions on lot values:
  - `Take` is one iteration of the spend loop;
  - `Drain` is the whole loop;
  - `Report` is withdraw's mapping;
  - `Converted` is the list of lots convert appends;
  - `Round6` is `round(·, 6)` on a `Decimal`, rounding half to even.

  The ledger's promises are lemmas on these functions: conservation, proportional
  fees, FIFO order, provenance, and the exact re-deposit of `amount_to`.
- **Objects** (`ledger.dfy`). `Party` and `Ledger` are classes whose methods mutate
  lots and queues in place, with the same loops as the code.
  - `Ledger.Queue(c)` reads currency `c`'s queue as lot values.
  - Every method states its new queues from the old ones through the value
    functions.
  - `Valid()` is kept throughout: every lot in a queue is owned, no lot is in two
    places, and no balance is negative.

`scenarios.dfy` replays the worked examples of `test_ledger.py` on the value layer.

Amounts are `real`, which is exact rational arithmetic. The transaction id is an
opaque type compared only by equality. An exception is the `Err` case of a `Result`.

## Model

| member | source | states |
|---|---|---|
| Rounding.Round6 | ledger.py:151-152 | `round(x, 6)`: the result has six decimal places, lies within half a unit (5e-7) of `x`, and is non-negative when `x` is |
| Rounding.Round6Keeps | ledger.py:164 | an amount that already has six places is reported unchanged |
| Lots.Total | ledger.py:163 | the sum of `current_amount` over a queue, front to back; 0 for an empty queue |
| Lots.TotalAppend | ledger.py:163 | the balance of two queues placed end to end is the sum of their balances |
| Lots.TotalNonNegative | ledger.py:163 | a queue with no negative lot has a non-negative balance |
| Lots.Fraction | ledger.py:54-85 | the share of the request one take removes lies between 0 and 1: all of it exactly when the lot covers what is still owed, otherwise the lot's balance over what is still owed |
| Lots.Take | ledger.py:50-103 | one loop iteration keeps the lot's identity and never raises or negates its balance. Either the lot is used up, or the request is covered. What leaves the lot is what leaves the request. There is a record exactly when the lot held something, and that record is what the lot and the request lose |
| Lots.TakeInRatio | ledger.py:54-84 | a take removes the same fraction of the remaining principal and of the remaining fee, in both the covered and the partial branch |
| Lots.TakeLockstep | ledger.py:88-103 | `original_used` is to the take as `original_amount` is to `available`, and the lot's original amount shrinks in the same proportion as its balance |
| Spend.Drain | ledger.py:42-108 | the spend loop leaves a non-negative queue that is no longer than before, and non-negative remainders. No record is a zero take |
| Spend.DrainConserves | ledger.py:42-85 | conservation: the principal taken plus the principal still owed is `total_amount`, and likewise for the fee. The queue's balance falls by exactly what was drained |
| Spend.DrainCompletes | ledger.py:46-48 | a queue that holds the request is never exhausted with something still owed, so the empty-queue `break` is unreachable |
| Spend.SpendIsExact | ledger.py:42-85 | when the funds check passes, the records carry exactly `total_amount` of principal and exactly `fee` of fee, and the queue's balance falls by `total_amount + fee` |
| Spend.ZeroRequestIsNoOp | ledger.py:46 | a zero request yields no records and leaves the queue as it was |
| Spend.SufficientAsWritten | ledger.py:39 | the funds check as written: `Round6` of the holdings is at least `total_amount + fee` |
| Spend.SufficientIffCompletes | ledger.py:39-48 | the exact funds check passes if and only if the loop covers the whole request |
| Spend.RoundedCheckAdmitsShortSpend | ledger.py:39 | the rounded check as written passes a request of 0.000001 against holdings of 0.0000006, which the exact check refuses. The spend then pays only 0.0000006 and leaves 0.0000004 owed |
| Spend.RoundedCheckRefusesCoveredSpend | ledger.py:39 | the rounded check as written refuses a request of 0.0000012 against holdings of 0.0000014 that cover it |
| Spend.TakeKeepsRatio | ledger.py:54-84 | the loop invariant `remaining_amount * fee == remaining_fee * total_amount` survives one iteration, and the iteration's record is in the same ratio |
| Spend.DrainProportional | ledger.py:54-84 | every record's principal and fee are in the ratio `total_amount : fee`, and so are the remainders |
| Spend.SpendIsProportional | ledger.py:54-84 | every record satisfies `amount_taken * fee == fee_taken * total_amount` |
| Spend.DrainIsFifo | ledger.py:46-107 | FIFO order: the loop pops a prefix of the queue and records every lot of it that held something, whole and in order. At most one further lot is partly spent; it stays at the front with a positive balance and its original amount scaled alike, and its record comes last. The lots behind it are untouched |
| Spend.DrainKeepsOrigin | ledger.py:94-101 | records and leftover lots of a queue whose lots all come from one currency come from that currency |
| Outputs.Withdrawn | ledger.py:148-155 | one entry of withdraw's result: the record's `tx_id` and `original_currency`, with `amount_taken` and `original_used` each passed through `Round6` |
| Outputs.Report | ledger.py:146-157 | withdraw returns one entry per record, in order, with the same `tx_id` and `original_currency`. Both amounts are rounded to six places and lie within half a unit of `amount_taken` and `original_used` |
| Outputs.ReportNearTaken | ledger.py:151 | the reported amounts add up to the principal taken, within half a unit per entry |
| Outputs.ReportSnoc | ledger.py:147-155 | one more record appends one more entry |
| Outputs.ReportKeepsSixPlaces | ledger.py:151-152 | a record whose amounts have six places is reported unchanged |
| Ledgers.ReportEntries | ledger.py:146-157 | the reporting loop returns `Report` of the records |
| Outputs.ConvertedLot | ledger.py:126-139 | the new lot's balance is to `amount_to` as the principal taken is to `amount_from`, or 0 when `amount_from <= 0`. It carries `tx_id`, `original_used` and `original_currency`, and it is non-negative for non-negative `amount_taken` and `amount_to` |
| Outputs.LotsFor | ledger.py:126-139 | one pass of convert's loop: the record's `ConvertedLot` when its `amount_taken` is positive, nothing otherwise |
| Outputs.Converted | ledger.py:125-140 | convert appends at most one lot per record |
| Outputs.ConvertedTotal | ledger.py:125-140 | with positive `amount_from`, the new lots' total is to `amount_to` as the principal taken is to `amount_from` |
| Outputs.ConvertedKeepsEveryRecord | ledger.py:125-140 | when every record took principal, record `i` becomes lot `i` |
| Outputs.ConvertedKeepsOrigin | ledger.py:134-139 | new lots keep the records' original currency |
| Outputs.ConvertedSnoc | ledger.py:125-140 | one more record appends its lot, if it took principal |
| Outputs.ConvertedSumsToAmountTo | ledger.py:125-140 | with positive `amount_from`, records whose principal sums to `amount_from` become lots that sum to `amount_to` |
| Outputs.SpendTakesPrincipalEachTime | ledger.py:126 | with positive `amount_from`, no record is fee only, so the `amount_taken > 0` filter drops nothing |
| Outputs.ConvertedOfFeeOnly | ledger.py:126 | records that took no principal are all dropped by the `amount_taken > 0` filter, so they become no lots |
| Outputs.ConvertFromZeroAppendsNothing | ledger.py:125-131 | converting a zero `amount_from` appends nothing, whatever `amount_to` is: the ratio is 0 and every record is fee only |
| Outputs.ConvertIsExact | ledger.py:119-140 | with positive `amount_from`, a conversion that passes the funds check appends lots that total exactly `amount_to`, one per record, in order. The fee is re-deposited nowhere |
| Ledgers.Party.constructor | ledger.py:9-19 | a new lot holds exactly the given fields |
| Ledgers.Party.Spend | ledger.py:50-103 | the loop body on one lot object updates the lot and returns the remainders and record as `Take` does |
| Ledgers.DepositedLot | ledger.py:29-33 | the deposited lot holds `max(amount - fee, 0)`, original amount `amount`, in `currency` |
| Ledgers.InsufficientFunds | ledger.py:40 | the refusal message: "Insufficient funds in " followed by the currency |
| Ledgers.Ledger.QueueIsFunded | ledger.py:163 | under `Valid()`, no queue holds a negative lot, so no currency holds a negative sum |
| Ledgers.Ledger.Balance | ledger.py:159-165 | balance has one key per queue, empty queues included. Each value is non-negative, has six places, and lies within half a unit of the exact sum of the queue. It changes nothing |
| Ledgers.Ledger.constructor | ledger.py:23-25 | a new ledger has no queues and no deposit totals |
| Ledgers.Ledger.Append | ledger.py:34 | the lot goes to the tail of its queue, creating the queue if needed. Every other queue is unchanged |
| Ledgers.Ledger.Deposit | ledger.py:27-35 | appends exactly `DepositedLot` at the tail of `currency`'s queue and adds `amount` to `total_deposited[currency]`. Earlier lots and other queues are unchanged |
| Ledgers.Ledger.TakeFront | ledger.py:50-107 | one iteration on the front lot object is `Take` on its value, and pops the lot once its balance is not positive. Other queues are unchanged |
| Ledgers.Ledger.PopFront | ledger.py:106-107 | `popleft` drops the front lot and changes nothing else |
| Ledgers.Ledger.SpendFront | ledger.py:46-107 | one iteration is one step of `Drain`. It either covers the request or shortens the queue, which is the loop's termination argument |
| Ledgers.Ledger.SpendFunds | ledger.py:37-108 | when the exact holdings fall short, the result is `Err("Insufficient funds in " + currency)` and no queue changes. Otherwise the result is `Drain`'s records and the queue is `Drain`'s rest. No other queue, key or deposit total changes |
| Ledgers.Ledger.Withdraw | ledger.py:142-157 | the same outcome as the spend, reporting `Report` of the records |
| Ledgers.Ledger.OpenQueue | ledger.py:122-123 | the target currency gets an empty queue if it has none; no queue changes |
| Ledgers.Ledger.AppendConvertedLot | ledger.py:126-140 | one record appends its converted lot, if it took principal |
| Ledgers.Ledger.AppendConverted | ledger.py:125-140 | the loop appends `Converted` of the records to the target queue and touches no other queue |
| Ledgers.Ledger.Convert | ledger.py:110-140 | on `Err`, nothing changes. Otherwise the source queue is `Drain`'s rest, and the target queue is its old content (or that rest, for the same currency) followed by `Converted` of the records. The target key exists afterwards, and other queues are unchanged |
| Scenarios.DepositThenBalance | test_ledger.py:8-13 | two deposits of 110 with fee 10 give lots of 100 (original 110), and balances of 100 and then 200 |
| Scenarios.FirstWithdrawalRecords | test_ledger.py:21-35 | withdrawing 150 with fee 10 records (93.75, 6.25, 110) from t1 and (56.25, 3.75, 66) from t2 |
| Scenarios.WithdrawFifoAndFee | test_ledger.py:16-36 | that withdrawal reports (93.75, 110) and (56.25, 66), leaving t2 with 40 (original 44), and balance 40 |
| Scenarios.WithdrawTheRest | test_ledger.py:38-47 | withdrawing 30 with fee 10 then reports (30, 44) and empties the queue |
| Scenarios.ConvertFirstWithdrawal | test_ledger.py:54-55 | converting 150 USDT into 300 ABC creates ABC lots of 187.5 and 112.5 |
| Scenarios.WithdrawFromConverted | test_ledger.py:55-57 | ABC holds 300, and a withdrawal of 200 with fee 20 leaves 80 |
| Scenarios.ConvertThenWithdraw | test_ledger.py:50-57 | the whole example: USDT stays at 40, and ABC goes to 300 and then to 80 |
| Scenarios.WithdrawBeyondHoldings | test_ledger.py:64-66 | 45 USDT cannot cover 100 with fee 1 |
| Scenarios.DepositBelowFee | test_ledger.py:62-68 | a deposit of 10 with fee 15, or of -10 with fee 1, adds a lot with balance 0; ledger.py raises nothing |

## Left out

- `Decimal` context precision is not modelled. Amounts are exact rationals, so the quotients in the spend loop and in convert are exact where `Decimal` keeps 28 significant digits. Nor is the overflow of `round(x, 6)`, which is a `quantize`: for |x| >= 10^22 the result needs more than 28 digits and `Decimal` raises `InvalidOperation`. Because `_spend_funds` calls `balance()`, which rounds every currency's total (ledger.py:39, 164), one holding that large in any currency makes every withdraw and convert raise; `Round6` is total and never fails.
- `InsufficientFundsError` and `InvalidOperationError`, which `test_ledger.py` imports at line 5, and `get_history`, which it calls, are not defined in `ledger.py`. That import fails, so none of the file's tests can be collected against `ledger.py` as written. The model has no deposit validation and no history. The values in `scenarios.dfy` are worked out from `ledger.py`'s arithmetic, and the test file serves only as the source of the examples.
- The pytest and logging entry point of `test_ledger.py` is not modelled.
- Ledgers.Ledger.SpendFunds: requires non-negative `total_amount` and `fee`. The code does not validate signs, and its behaviour on negative inputs is not modelled.
- Ledgers.Ledger.Withdraw: requires non-negative `amount` and `fee`, for the same reason.
- Ledgers.Ledger.Convert: requires non-negative `amount_from`, `fee` and `amount_to`. A negative `amount_to` would create lots with a negative balance, which the ledger invariant `Valid()` excludes.
- Ledgers.Ledger.Balance: its contract bounds each value to six places and half a unit of the exact sum instead of naming the tie-breaking rule. The value is `Round6` of the sum (half to even).
- Outputs.Report: its contract bounds each amount to half a unit instead of naming the tie-breaking rule. The entries are built with `Round6`.
- The funds check uses the exact holdings, not the rounded `balance()` the code compares (ledger.py:39). The gap is recorded under Findings.
- The error is a `Result` value carrying the message. Python raises `ValueError`.
- Dictionary order is not modelled. `balance()` and the reported entries are dicts; here they are a map and a datatype.
- Python's `defaultdict` creates an empty queue when a missing currency is read. The model never relies on this, since the spend loop only reads a currency whose holdings cover a positive request.
- `total_deposited` is updated by deposit and read by no operation. It is kept as a map, not interpreted further.

## Findings

| source | as written | input that shows it | evidently intended | confidence | as-written member | corrected member |
|---|---|---|---|---|---|---|
| ledger.py:39 | the funds check compares the balance rounded to six places with `total_amount + fee` | one lot of 0.0000006 and a withdrawal of 0.000001 with fee 0. The check passes because the holdings round to 0.000001. The loop takes 0.0000006, empties the queue and leaves through the `break` with 0.0000004 unpaid, yet no error is raised | refuse whenever the exact holdings are below the request, so that a spend that passes the check always pays in full | not executed | Spend.RoundedCheckAdmitsShortSpend | Spend.SufficientIffCompletes |
| ledger.py:39 | the same rounded check | one lot of 0.0000014 and a withdrawal of 0.0000012. The holdings round down to 0.000001, so a request the queue covers is refused | accept any request the exact holdings cover | not executed | Spend.RoundedCheckRefusesCoveredSpend | Spend.SufficientIffCompletes |
