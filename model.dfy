/**
 The trading-account ledger as values: the fixed quote table, the transaction
 records, the account state and one pure step function per guarded mutator.
 Money is an exact `real`; share quantities are unbounded `int`s.
 */
module AccountModel {

  /** Symbols the simulation quotes; every other symbol is priced at 0. */
  const KnownSymbols: set<string> := {"AAPL", "TSLA", "GOOGL"}

  /** A price source: the fixed table below, or any other quote a caller substitutes. */
  type PriceOracle = string -> real

  /** The simulation's fixed quote table; unknown symbols quote 0. */
  function SharePrice(symbol: string): (price: real)
    ensures price >= 0.0
    ensures price != 0.0 <==> symbol in KnownSymbols
  {
    if symbol == "AAPL" then 150.0
    else if symbol == "TSLA" then 800.0
    else if symbol == "GOOGL" then 2800.0
    else 0.0
  }

  /** What `quantity` shares cost, or fetch, at `price` each. */
  function Total(price: real, quantity: int): real
  {
    price * (quantity as real)
  }

  /** One entry of the append-only history; every entry records the balance after it. */
  datatype Transaction =
    | Deposit(amount: real, balanceAfter: real)
    | Withdrawal(amount: real, balanceAfter: real)
    | Buy(symbol: string, quantity: int, price: real, total: real, balanceAfter: real)
    | Sell(symbol: string, quantity: int, price: real, total: real, balanceAfter: real)

  /** The mutable part of an account: cash, cumulative deposits, holdings and history. */
  datatype AccountState = AccountState(
    balance: real,
    initialDeposit: real,
    portfolio: map<string, int>,
    transactions: seq<Transaction>)

  /** The state of a new account, and of one after `create_account`. */
  const Fresh := AccountState(0.0, 0.0, map[], [])

  /** What a mutator reports (its boolean result) together with the state it leaves. */
  datatype Outcome = Outcome(ok: bool, state: AccountState)

  /** Shares of `symbol` held, 0 when the symbol is absent. */
  function Held(portfolio: map<string, int>, symbol: string): int
  {
    if symbol in portfolio then portfolio[symbol] else 0
  }

  /** The two portfolios agree on every symbol other than `symbol`. */
  ghost predicate SameExcept(p: map<string, int>, q: map<string, int>, symbol: string)
  {
    forall t :: t != symbol ==> (t in p <==> t in q) && Held(p, t) == Held(q, t)
  }

  /** The three facts every reachable account satisfies. */
  ghost predicate Invariant(s: AccountState)
  {
    && s.balance >= 0.0
    && (forall t :: t in s.portfolio ==> s.portfolio[t] > 0)
    && (forall t :: t in s.portfolio ==> SharePrice(t) != 0.0)
  }

  // ---------------------------------------------------------------------------
  // Reference semantics of the history: replaying the records rebuilds the state.

  /** The effect of one history record on a state, read off the record alone. */
  function Apply(s: AccountState, t: Transaction): (r: AccountState)
    ensures r.transactions == s.transactions + [t]
  {
    var logged := s.(transactions := s.transactions + [t]);
    match t
    case Deposit(amount, _) =>
      logged.(balance := s.balance + amount, initialDeposit := s.initialDeposit + amount)
    case Withdrawal(amount, _) =>
      logged.(balance := s.balance - amount)
    case Buy(symbol, quantity, _, total, _) =>
      logged.(balance := s.balance - total,
              portfolio := s.portfolio[symbol := Held(s.portfolio, symbol) + quantity])
    case Sell(symbol, quantity, _, total, _) =>
      var left := Held(s.portfolio, symbol) - quantity;
      logged.(balance := s.balance + total,
              portfolio := if left == 0 then s.portfolio - {symbol} else s.portfolio[symbol := left])
  }

  /** The state obtained by applying a whole history to a fresh account. */
  function Replay(history: seq<Transaction>): (s: AccountState)
    decreases |history|
  {
    if history == [] then Fresh
    else Apply(Replay(history[..|history| - 1]), history[|history| - 1])
  }

  /** The history accounts for the whole state, and each record's balance is the one it left. */
  ghost predicate Audited(s: AccountState)
  {
    && Replay(s.transactions) == s
    && forall i :: 0 <= i < |s.transactions| ==>
         s.transactions[i].balanceAfter == Replay(s.transactions[..i + 1]).balance
  }

  // ---------------------------------------------------------------------------
  // The four guarded mutators.

  /** Deposit: rejects a non-positive amount; otherwise credits cash and deposits. */
  function DepositFunds(s: AccountState, amount: real): (r: Outcome)
    ensures r.ok <==> amount > 0.0
    ensures !r.ok ==> r.state == s
    ensures r.ok ==> r.state.balance == s.balance + amount
    ensures r.ok ==> r.state.initialDeposit == s.initialDeposit + amount
    ensures r.ok ==> r.state.portfolio == s.portfolio
    ensures r.ok ==> r.state.transactions == s.transactions + [Deposit(amount, r.state.balance)]
    ensures r.ok ==> r.state == Apply(s, Deposit(amount, r.state.balance))
  {
    if amount <= 0.0 then Outcome(false, s)
    else
      var balance := s.balance + amount;
      Outcome(true, s.(balance := balance,
                       initialDeposit := s.initialDeposit + amount,
                       transactions := s.transactions + [Deposit(amount, balance)]))
  }

  /** Withdraw: succeeds exactly when 0 < amount <= balance. */
  function WithdrawFunds(s: AccountState, amount: real): (r: Outcome)
    ensures r.ok <==> 0.0 < amount <= s.balance
    ensures !r.ok ==> r.state == s
    ensures r.ok ==> r.state.balance == s.balance - amount
    ensures r.state.initialDeposit == s.initialDeposit && r.state.portfolio == s.portfolio
    ensures r.ok ==> r.state.transactions == s.transactions + [Withdrawal(amount, r.state.balance)]
    ensures r.ok ==> r.state == Apply(s, Withdrawal(amount, r.state.balance))
  {
    if amount <= 0.0 || amount > s.balance then Outcome(false, s)
    else
      var balance := s.balance - amount;
      Outcome(true, s.(balance := balance,
                       transactions := s.transactions + [Withdrawal(amount, balance)]))
  }

  /** Buy: needs a positive quantity of a quoted symbol that the cash covers. */
  function BuyShares(s: AccountState, symbol: string, quantity: int): (r: Outcome)
    ensures r.ok <==> quantity > 0 && SharePrice(symbol) != 0.0
                      && Total(SharePrice(symbol), quantity) <= s.balance
    ensures !r.ok ==> r.state == s
    ensures r.ok ==> r.state.balance == s.balance - Total(SharePrice(symbol), quantity)
    ensures r.state.initialDeposit == s.initialDeposit
    ensures r.ok ==> r.state.portfolio.Keys == s.portfolio.Keys + {symbol}
    ensures r.ok ==> r.state.portfolio[symbol] == Held(s.portfolio, symbol) + quantity
    ensures SameExcept(r.state.portfolio, s.portfolio, symbol)
    ensures r.ok ==>
      r.state.transactions == s.transactions +
        [Buy(symbol, quantity, SharePrice(symbol), Total(SharePrice(symbol), quantity), r.state.balance)]
    ensures r.ok ==> r.state == Apply(s, r.state.transactions[|s.transactions|])
  {
    if quantity <= 0 then Outcome(false, s)
    else
      var price := SharePrice(symbol);
      if price == 0.0 then Outcome(false, s)
      else
        var totalCost := Total(price, quantity);
        if totalCost > s.balance then Outcome(false, s)
        else
          var balance := s.balance - totalCost;
          var portfolio := if symbol in s.portfolio
                           then s.portfolio[symbol := s.portfolio[symbol] + quantity]
                           else s.portfolio[symbol := quantity];
          Outcome(true, s.(balance := balance,
                           portfolio := portfolio,
                           transactions := s.transactions + [Buy(symbol, quantity, price, totalCost, balance)]))
  }

  /**
   Sell: needs a positive quantity no larger than the holding, and a quoted symbol;
   a holding sold down to zero disappears from the portfolio.
   */
  function SellShares(s: AccountState, symbol: string, quantity: int): (r: Outcome)
    ensures r.ok <==> quantity > 0 && symbol in s.portfolio && s.portfolio[symbol] >= quantity
                      && SharePrice(symbol) != 0.0
    ensures !r.ok ==> r.state == s
    ensures r.ok ==> r.state.balance == s.balance + Total(SharePrice(symbol), quantity)
    ensures r.state.initialDeposit == s.initialDeposit
    ensures r.ok ==> Held(r.state.portfolio, symbol) == s.portfolio[symbol] - quantity
    ensures r.ok ==> (symbol in r.state.portfolio <==> s.portfolio[symbol] != quantity)
    ensures SameExcept(r.state.portfolio, s.portfolio, symbol)
    ensures r.ok ==>
      r.state.transactions == s.transactions +
        [Sell(symbol, quantity, SharePrice(symbol), Total(SharePrice(symbol), quantity), r.state.balance)]
    ensures r.ok ==> r.state == Apply(s, r.state.transactions[|s.transactions|])
  {
    if quantity <= 0 then Outcome(false, s)
    else if symbol !in s.portfolio || s.portfolio[symbol] < quantity then Outcome(false, s)
    else
      var price := SharePrice(symbol);
      if price == 0.0 then Outcome(false, s)
      else
        var totalValue := Total(price, quantity);
        var balance := s.balance + totalValue;
        var left := s.portfolio[symbol] - quantity;
        var portfolio := if left == 0 then s.portfolio - {symbol} else s.portfolio[symbol := left];
        Outcome(true, s.(balance := balance,
                         portfolio := portfolio,
                         transactions := s.transactions + [Sell(symbol, quantity, price, totalValue, balance)]))
  }

  // ---------------------------------------------------------------------------
  // A sequence of calls on one account.

  /** One call of a mutator, with its arguments. */
  datatype Request =
    | DepositRequest(amount: real)
    | WithdrawRequest(amount: real)
    | BuyRequest(symbol: string, quantity: int)
    | SellRequest(symbol: string, quantity: int)

  /** Dispatches one request to its mutator. */
  function Perform(s: AccountState, req: Request): (r: Outcome)
    ensures r.ok ==> |r.state.transactions| == |s.transactions| + 1
    ensures r.ok ==> r.state == Apply(s, r.state.transactions[|s.transactions|])
    ensures r.ok ==> r.state.transactions[|s.transactions|].balanceAfter == r.state.balance
    ensures !r.ok ==> r.state == s
    ensures !req.DepositRequest? ==> r.state.initialDeposit == s.initialDeposit
  {
    match req
    case DepositRequest(amount) => DepositFunds(s, amount)
    case WithdrawRequest(amount) => WithdrawFunds(s, amount)
    case BuyRequest(symbol, quantity) => BuyShares(s, symbol, quantity)
    case SellRequest(symbol, quantity) => SellShares(s, symbol, quantity)
  }

  /** The state after performing the requests in order. */
  function Session(s: AccountState, reqs: seq<Request>): AccountState
    decreases |reqs|
  {
    if reqs == [] then s else Session(Perform(s, reqs[0]).state, reqs[1..])
  }

  /** How many of the requests, performed in order, succeed. */
  function Successes(s: AccountState, reqs: seq<Request>): nat
    decreases |reqs|
  {
    if reqs == [] then 0
    else (if Perform(s, reqs[0]).ok then 1 else 0) + Successes(Perform(s, reqs[0]).state, reqs[1..])
  }

  // ---------------------------------------------------------------------------
  // Valuation.

  /** Sum of price * quantity over the portfolio, 0 for an empty one. */
  ghost function PortfolioValue(portfolio: map<string, int>, price: PriceOracle): real
    decreases |portfolio|
  {
    if portfolio == map[] then 0.0
    else
      var t :| t in portfolio;
      Total(price(t), portfolio[t]) + PortfolioValue(portfolio - {t}, price)
  }

  /** Total assets (holdings at `price` plus cash) minus everything deposited. */
  ghost function ProfitLoss(s: AccountState, price: PriceOracle): real
  {
    PortfolioValue(s.portfolio, price) + s.balance - s.initialDeposit
  }

  /** One line of the holdings view. */
  datatype Holding = Holding(quantity: int, price: real, value: real)

  /** The holdings line for `quantity` shares of `symbol` at the table price. */
  function HoldingOf(symbol: string, quantity: int): Holding
  {
    Holding(quantity, SharePrice(symbol), Total(SharePrice(symbol), quantity))
  }

  /** The profit/loss report. */
  datatype Report = Report(
    initialDeposit: real,
    currentBalance: real,
    portfolioValue: real,
    totalAssets: real,
    profitLoss: real,
    profitLossPercentage: real,
    holdings: map<string, Holding>)

  /** Profit or loss as a percentage of the deposits, 0 when nothing was deposited. */
  function Percentage(profitLoss: real, initialDeposit: real): (p: real)
    ensures initialDeposit > 0.0 ==> p * initialDeposit == profitLoss * 100.0
    ensures initialDeposit > 0.0 ==> (p > 0.0 <==> profitLoss > 0.0)
    ensures initialDeposit <= 0.0 ==> p == 0.0
  {
    if initialDeposit > 0.0 then (profitLoss / initialDeposit) * 100.0 else 0.0
  }
}
