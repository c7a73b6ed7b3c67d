# Trading-account ledger

A Dafny model of the account ledger of the engineering-team trading simulation
(`06_engineering_team/output/accounts.py`): a fixed share-price table and an
`Account` object that holds a cash balance, the cumulative amount deposited
(`initial_deposit`), a portfolio mapping stock symbols to share counts, and an
append-only list of transaction records. Four guarded mutators (deposit,
withdraw, buy, sell) either reject their input and leave the account alone, or
apply one exact update and append one record. Read-only queries value the
portfolio, compute profit/loss, list holdings, return the history and build a
profit/loss report.

Files:

- `model.dfy`, module `AccountModel`: the price table `SharePrice`; the
  `Transaction` records, one constructor per record type (`Deposit`,
  `Withdrawal`, `Buy`, `Sell`); the account state as a value; one pure step
  function per mutator; the valuation functions; and a reference reading of
  the history. `Replay` rebuilds an account from its records alone.
- `accounts.dfy`, module `Accounts`: class `Account`. Its fields are updated
  in place. Each mutator is proved to leave exactly the state, and return
  exactly the flag, that the matching step function gives. The two read-only
  loops (`CalculatePortfolioValue`, `GetHoldings`) are proved against the
  valuation functions.
- `proofs.dfy`, module `AccountProofs`: the lemmas.
  - Every mutator keeps the ledger invariant and the audit trail.
  - The history only grows, by exactly one record per successful call.
  - The dead `price == 0.0` branch of a sale is unreachable.
  - Portfolio value behaves as a sum.
  - Buying or selling at the quoted price leaves profit/loss unchanged.
  - Four unit-test scenarios are stated as lemmas; the others follow from the mutator contracts.

Money is an exact `real`; share quantities are unbounded `int`s. `Total(price,
quantity)` is the `price * quantity` of the source, computed exactly (for
quantities beyond the float range the source raises instead; see "## Left out"). The ledger invariant
(`Invariant`) is:

- the balance is never negative;
- every held quantity is positive;
- every held symbol has a non-zero quoted price.

The audit trail (`Audited`) says that replaying the records from a fresh
account gives back the whole state. It also says that every record's
`balanceAfter` is the balance that record left. `Account.Valid()` is the
conjunction of the two.

A price source is a value of type `PriceOracle` (`string -> real`). The
valuation functions take one as a parameter, so a re-quoted market (such as a
unit test that patches the price lookup) can be stated. The class methods use
the fixed table `SharePrice`, as the source does.

## Model

| member | source | states |
|---|---|---|
| AccountModel.SharePrice | 06_engineering_team/output/accounts.py:6-22 | Prices are never negative; a price is non-zero exactly for the three quoted symbols AAPL, TSLA and GOOGL (every other symbol quotes 0). |
| AccountModel.DepositFunds | 06_engineering_team/output/accounts.py:65-79 | Succeeds iff amount > 0. On failure the state is unchanged. On success balance and deposits both rise by the amount, holdings are untouched, and exactly one Deposit record carrying the new balance is appended. That record is what `Apply` replays. |
| AccountModel.WithdrawFunds | 06_engineering_team/output/accounts.py:91-104 | Succeeds iff 0 < amount <= balance. On failure the state is unchanged. On success the balance drops by exactly the amount and one Withdrawal record with the new balance is appended. Deposits and holdings never change. |
| AccountModel.BuyShares | 06_engineering_team/output/accounts.py:117-148 | Succeeds iff quantity > 0, the symbol has a non-zero price and price*quantity <= balance. On failure nothing changes. On success cash falls by price*quantity and the symbol's holding grows by the quantity, created if absent. Other symbols are untouched. One Buy record with total = price*quantity is appended. Deposits never change. |
| AccountModel.SellShares | 06_engineering_team/output/accounts.py:161-191 | Succeeds iff quantity > 0, the symbol is held with at least that quantity and its price is non-zero. On failure nothing changes. On success cash rises by price*quantity and the holding falls by the quantity. The symbol leaves the portfolio exactly when the holding reaches 0. Other symbols are untouched and one Sell record is appended. |
| AccountModel.Perform | 06_engineering_team/output/accounts.py:55-191 | Across the four mutators: a successful call appends exactly one record and its effect is that record's replay; a failed call changes nothing; only a deposit changes `initial_deposit`. |
| AccountModel.Percentage | 06_engineering_team/output/accounts.py:266 | With positive deposits the percentage times the deposits equals 100 times the profit/loss (so it has the sign of the profit/loss); with no deposits it is 0. |
| AccountProofs.ReplayAppend | 06_engineering_team/output/accounts.py:77 | Replaying a history with one more record appended is applying that record to the replay of the rest. |
| AccountProofs.AuditedApply | 06_engineering_team/output/accounts.py:71-77 | Appending a record whose balance_after is the balance it leaves keeps the history a complete account of the state. |
| AccountProofs.FreshIsSound | 06_engineering_team/output/accounts.py:45-53 | The reset account (zero cash, zero deposits, no holdings, empty history) satisfies the invariant and is the replay of the empty history. |
| AccountProofs.DepositSound | 06_engineering_team/output/accounts.py:65-79 | A deposit keeps the invariant and the audit trail. |
| AccountProofs.WithdrawSound | 06_engineering_team/output/accounts.py:91-104 | A withdrawal keeps the invariant (balance stays >= 0) and the audit trail. |
| AccountProofs.BuySound | 06_engineering_team/output/accounts.py:117-148 | A purchase keeps the balance non-negative, every holding positive and every held symbol priced, and keeps the audit trail. |
| AccountProofs.SellSound | 06_engineering_team/output/accounts.py:161-191 | A sale keeps the invariant (a holding sold to zero is removed, so no zero entries remain) and the audit trail. |
| AccountProofs.PerformSound | 06_engineering_team/output/accounts.py:55-191 | Every mutator, whatever its arguments, keeps the invariant and the audit trail. |
| AccountProofs.SessionSound | 06_engineering_team/output/accounts.py:55-191 | Every account reached from a sound one by any sequence of calls is sound. |
| AccountProofs.SessionAppendOnly | 06_engineering_team/output/accounts.py:77 | Over any sequence of calls the old history stays a prefix, and the history grows by exactly the number of successful calls. |
| AccountProofs.SellSucceedsWhenHeld | 06_engineering_team/output/accounts.py:164-169 | Under the invariant a sale succeeds iff quantity > 0 and the symbol is held with at least that quantity: the `price == 0.0` branch is unreachable. |
| AccountProofs.PortfolioValueRemove | 06_engineering_team/output/accounts.py:200-206 | The portfolio value is the value of any one holding plus the value of the rest, so the order in which the loop visits symbols does not matter. |
| AccountProofs.PortfolioValueUpdate | 06_engineering_team/output/accounts.py:132-135 | Setting one holding replaces exactly its price*quantity term in the portfolio value. |
| AccountProofs.PortfolioValueHeld | 06_engineering_team/output/accounts.py:200-206 | The portfolio value is the price times the held quantity of any symbol (0 if absent) plus the value of the other holdings. |
| AccountProofs.SingleHoldingValue | 06_engineering_team/output/accounts.py:200-206 | A portfolio of one holding is worth price*quantity of that holding. |
| AccountProofs.PortfolioValueNonNegative | 06_engineering_team/output/accounts.py:200-206 | Non-negative quantities at non-negative prices are worth a non-negative amount. |
| AccountProofs.SoundPortfolioValue | 06_engineering_team/output/accounts.py:193-206 | A sound account's portfolio is worth a non-negative amount at the table prices. |
| AccountProofs.HoldingsPositive | 06_engineering_team/output/accounts.py:228-239 | In a sound account every holdings line has a positive value. |
| AccountProofs.BuyKeepsProfitLoss | 06_engineering_team/output/accounts.py:208-218 | Buying at the quoted price leaves profit/loss unchanged, whether or not the purchase succeeds. |
| AccountProofs.SellKeepsProfitLoss | 06_engineering_team/output/accounts.py:208-218 | Selling at the quoted price leaves profit/loss unchanged, whether or not the sale succeeds. |
| AccountProofs.CashMovesProfitLoss | 06_engineering_team/output/accounts.py:208-218 | At any prices a deposit leaves profit/loss unchanged and a successful withdrawal lowers it by exactly the amount. |
| AccountProofs.DepositThenBuy | 06_engineering_team/output/test_accounts.py:111-123 | Depositing 10000 and buying 10 AAPL succeeds, leaves cash 8500, deposits 10000 and a single holding of 10 AAPL. |
| AccountProofs.BreakEvenThenProfit | 06_engineering_team/output/test_accounts.py:240-253 | That account breaks even at the table price, and shows a profit of 500 under any quote that prices AAPL at 200. |
| AccountProofs.TwoStockValue | 06_engineering_team/output/test_accounts.py:225-233 | Depositing 10000 and buying 10 AAPL and then 5 TSLA succeeds both times, and the holdings are worth 10*150 + 5*800 = 5500. |
| AccountProofs.HistoryInCallOrder | 06_engineering_team/output/test_accounts.py:271-281 | Deposit 10000, buy 10 AAPL, sell 5 AAPL: three records in call order (Deposit, Buy, Sell), cash 9250 and 5 AAPL held. |
| Accounts.Account.constructor | 06_engineering_team/output/accounts.py:31-43 | A new account keeps its user id and starts with no cash, no deposits, no holdings and no history, and is valid. |
| Accounts.Account.CreateAccount | 06_engineering_team/output/accounts.py:45-53 | Resets balance and deposits to 0 and empties the portfolio and the history; the result is valid. |
| Accounts.Account.DepositFunds | 06_engineering_team/output/accounts.py:55-79 | The flag and the new fields are exactly those of `AccountModel.DepositFunds` on the old fields; validity is kept. |
| Accounts.Account.WithdrawFunds | 06_engineering_team/output/accounts.py:81-104 | The flag and the new fields are exactly those of `AccountModel.WithdrawFunds` on the old fields; validity is kept. |
| Accounts.Account.BuyShares | 06_engineering_team/output/accounts.py:106-148 | The flag and the new fields are exactly those of `AccountModel.BuyShares` on the old fields; validity is kept. |
| Accounts.Account.SellShares | 06_engineering_team/output/accounts.py:150-191 | The flag and the new fields are exactly those of `AccountModel.SellShares` on the old fields, including the in-place decrement and delete; validity is kept. |
| Accounts.Account.CalculatePortfolioValue | 06_engineering_team/output/accounts.py:193-206 | The loop returns the sum of price*quantity over the portfolio, 0 for an empty one. It is non-negative when the invariant holds. |
| Accounts.Account.CalculateProfitLoss | 06_engineering_team/output/accounts.py:208-218 | Profit/loss plus deposits equals portfolio value plus cash. |
| Accounts.Account.GetHoldings | 06_engineering_team/output/accounts.py:220-239 | Exactly the portfolio's symbols. Each entry holds the held quantity, the table price and value = price*quantity. Every value is positive when the invariant holds. |
| Accounts.Account.GetTransactionHistory | 06_engineering_team/output/accounts.py:241-248 | Returns the full history, oldest first. For an audited account, replaying it rebuilds the account exactly. |
| Accounts.Account.GetProfitLossReport | 06_engineering_team/output/accounts.py:250-270 | The report holds the deposits and cash, plus the portfolio value. It holds total assets = value + cash and profit/loss = total assets - deposits. Its percentage follows `Percentage`, and its holdings are exactly the `GetHoldings` entries. |

## Left out

- Timestamps (`created_at` and each record's `timestamp`) are left out, because they read the wall clock.
- IEEE floating-point rounding is not modelled. Amounts and prices are exact reals, so `price * quantity` and the sums are exact.
- Amounts are finite reals: NaN and ±infinity are not modelled. In the source a NaN amount gets past both `amount <= 0` (accounts.py:65, 91) and `amount > self.balance` (accounts.py:91), so a deposit or withdrawal of NaN succeeds and the balance becomes NaN. Depositing and then withdrawing infinity also leaves NaN. The front end reaches this, since `float(amount)` accepts "nan" and "inf" (app.py:16, 26). `WithdrawFunds`, `DepositFunds` and the invariant `balance >= 0` (`Invariant`, `DepositSound`, `WithdrawSound`) are therefore stated and proved only for finite amounts.
- AccountModel.Total is the exact product, so AccountModel.BuyShares, AccountModel.SellShares and the valuation functions return a result for every quantity. In the source `price * quantity` converts the int quantity to a float. That raises `OverflowError` for quantities of 2**1024 or more, at accounts.py:124, and at 171, 204 and 232 when such a holding was assigned directly. `buy_shares('AAPL', 10**309)` therefore raises there instead of returning False, and the front end can reach this, because app.py:36 converts Textbox text with `int(...)` and catches only `ValueError`. The model does not represent that exception.
- Quantities are restricted to `int`. The source also accepts fractional quantities: `buy_shares('AAPL', 2.5)` passes the guards at accounts.py:117, 121 and 126, stores 2.5 shares and succeeds, and `sell_shares` does the same. Its only front-end caller converts the quantity with `int(...)` first (app.py:36, 46).
- Python's run-time type errors are not modelled, such as a non-numeric amount or quantity raising `TypeError`. The model's parameters are typed.
- Accounts.Account.GetTransactionHistory returns the history as a value. The source returns the list object itself, so a caller could mutate the account's history through it; that aliasing is not modelled.
- Accounts.Account.CalculatePortfolioValue and Accounts.Account.GetHoldings visit symbols in an unspecified order, where Python visits them in dict insertion order. The portfolio value does not depend on the order, as `PortfolioValueRemove` shows. `GetHoldings` returns a map whose contents its ensures fix completely; the key order of the dict the source returns follows the visit order, and the model does not capture that order.
- Accounts.Account mutators do not require `Valid()`. They promise `old(Valid()) ==> Valid()`, because the source's methods accept any state. Tests that assign fields directly (`test_accounts.py:38-41`) can build a state outside `Valid()`: it may satisfy `Invariant`, but its history does not rebuild it.
- The class methods always use the fixed table `SharePrice`. Patching the module-level price function at run time, as a unit test does, appears only in the lemmas, through a `PriceOracle` parameter (`BreakEvenThenProfit`).
- The `__main__` demo block (`accounts.py:272-286`) is left out: it only prints.
- The Gradio front end (`app.py`) is not part of this model. It only formats and forwards calls.
- The asynchronous research pipeline (`deep_research/research_manager.py`) is not part of this model. It is concurrent fan-out over LLM agent calls.
- The e-mail and push-notification senders and the crewAI entry points are not part of this model. They are external I/O and configuration.
