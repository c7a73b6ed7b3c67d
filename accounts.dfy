/**
 The account object itself: its fields are updated in place by the four guarded
 mutators, and each method is proved to do exactly what the matching step
 function of `AccountModel` describes.
 */
module Accounts {
  import opened AccountModel
  import AccountProofs

  class Account {
    const userId: string
    var balance: real
    var initialDeposit: real
    var portfolio: map<string, int>
    var transactions: seq<Transaction>

    /** The fields as one value. */
    function State(): AccountState
      reads this
    {
      AccountState(balance, initialDeposit, portfolio, transactions)
    }

    /** The object invariant: the ledger facts plus a complete audit trail. */
    ghost predicate Valid()
      reads this
    {
      Invariant(State()) && Audited(State())
    }

    /** A new account for `userId`, with no cash, holdings or history. */
    constructor (userId: string)
      ensures this.userId == userId
      ensures State() == Fresh && Valid()
    {
      this.userId := userId;
      balance := 0.0;
      initialDeposit := 0.0;
      portfolio := map[];
      transactions := [];
      new;
      AccountProofs.FreshIsSound();
    }

    /** Resets cash, deposits, holdings and history; the user stays the same. */
    method CreateAccount()
      modifies this
      ensures State() == Fresh && Valid()
    {
      balance := 0.0;
      initialDeposit := 0.0;
      portfolio := map[];
      transactions := [];
      AccountProofs.FreshIsSound();
    }

    method DepositFunds(amount: real) returns (ok: bool)
      modifies this
      ensures Outcome(ok, State()) == AccountModel.DepositFunds(old(State()), amount)
      ensures old(Valid()) ==> Valid()
    {
      if amount <= 0.0 {
        return false;
      }
      balance := balance + amount;
      initialDeposit := initialDeposit + amount;
      transactions := transactions + [Deposit(amount, balance)];
      ok := true;
      assert State() == AccountModel.DepositFunds(old(State()), amount).state;
      if old(Valid()) {
        AccountProofs.DepositSound(old(State()), amount);
      }
    }

    method WithdrawFunds(amount: real) returns (ok: bool)
      modifies this
      ensures Outcome(ok, State()) == AccountModel.WithdrawFunds(old(State()), amount)
      ensures old(Valid()) ==> Valid()
    {
      if amount <= 0.0 || amount > balance {
        return false;
      }
      balance := balance - amount;
      transactions := transactions + [Withdrawal(amount, balance)];
      ok := true;
      assert State() == AccountModel.WithdrawFunds(old(State()), amount).state;
      if old(Valid()) {
        AccountProofs.WithdrawSound(old(State()), amount);
      }
    }

    method BuyShares(symbol: string, quantity: int) returns (ok: bool)
      modifies this
      ensures Outcome(ok, State()) == AccountModel.BuyShares(old(State()), symbol, quantity)
      ensures old(Valid()) ==> Valid()
    {
      if quantity <= 0 {
        return false;
      }
      var price := SharePrice(symbol);
      if price == 0.0 {
        return false;
      }
      var totalCost := Total(price, quantity);
      if totalCost > balance {
        return false;
      }
      balance := balance - totalCost;
      if symbol in portfolio {
        portfolio := portfolio[symbol := portfolio[symbol] + quantity];
      } else {
        portfolio := portfolio[symbol := quantity];
      }
      transactions := transactions + [Buy(symbol, quantity, price, totalCost, balance)];
      ok := true;
      assert State() == AccountModel.BuyShares(old(State()), symbol, quantity).state;
      if old(Valid()) {
        AccountProofs.BuySound(old(State()), symbol, quantity);
      }
    }

    method SellShares(symbol: string, quantity: int) returns (ok: bool)
      modifies this
      ensures Outcome(ok, State()) == AccountModel.SellShares(old(State()), symbol, quantity)
      ensures old(Valid()) ==> Valid()
    {
      if quantity <= 0 {
        return false;
      }
      if symbol !in portfolio || portfolio[symbol] < quantity {
        return false;
      }
      var price := SharePrice(symbol);
      if price == 0.0 {
        return false;
      }
      var totalValue := Total(price, quantity);
      balance := balance + totalValue;
      ghost var left := portfolio[symbol] - quantity;
      portfolio := portfolio[symbol := portfolio[symbol] - quantity];
      if portfolio[symbol] == 0 {
        portfolio := portfolio - {symbol};
        assert portfolio == old(portfolio) - {symbol};
      }
      assert portfolio == if left == 0 then old(portfolio) - {symbol} else old(portfolio)[symbol := left];
      transactions := transactions + [Sell(symbol, quantity, price, totalValue, balance)];
      ok := true;
      assert State() == AccountModel.SellShares(old(State()), symbol, quantity).state;
      if old(Valid()) {
        AccountProofs.SellSound(old(State()), symbol, quantity);
      }
    }

    /** Sums price * quantity over the holdings, one symbol at a time. */
    method CalculatePortfolioValue() returns (totalValue: real)
      ensures totalValue == PortfolioValue(portfolio, SharePrice)
      ensures Invariant(State()) ==> totalValue >= 0.0
    {
      var held := portfolio;
      totalValue := 0.0;
      var rest := held;
      while rest != map[]
        invariant totalValue + PortfolioValue(rest, SharePrice) == PortfolioValue(held, SharePrice)
        decreases |rest|
      {
        var symbol :| symbol in rest;
        var price := SharePrice(symbol);
        AccountProofs.RemoveShrinks(rest, symbol);
        AccountProofs.PortfolioValueRemove(rest, symbol, SharePrice);
        totalValue := totalValue + Total(price, rest[symbol]);
        rest := rest - {symbol};
      }
      if Invariant(State()) {
        AccountProofs.SoundPortfolioValue(State());
      }
    }

    /** Holdings at the quoted prices plus cash, minus everything deposited. */
    method CalculateProfitLoss() returns (profitLoss: real)
      ensures profitLoss == ProfitLoss(State(), SharePrice)
      ensures profitLoss + initialDeposit == PortfolioValue(portfolio, SharePrice) + balance
    {
      var portfolioValue := CalculatePortfolioValue();
      var totalAssets := portfolioValue + balance;
      profitLoss := totalAssets - initialDeposit;
    }

    /** One entry per held symbol: quantity, quoted price and their product. */
    method GetHoldings() returns (holdings: map<string, Holding>)
      ensures holdings.Keys == portfolio.Keys
      ensures forall symbol :: symbol in holdings ==> holdings[symbol] == HoldingOf(symbol, portfolio[symbol])
      ensures Invariant(State()) ==> forall symbol :: symbol in holdings ==> holdings[symbol].value > 0.0
    {
      holdings := map[];
      var pending := portfolio.Keys;
      while pending != {}
        invariant pending <= portfolio.Keys
        invariant holdings.Keys == portfolio.Keys - pending
        invariant forall symbol :: symbol in holdings ==> holdings[symbol] == HoldingOf(symbol, portfolio[symbol])
        decreases pending
      {
        var symbol :| symbol in pending;
        var quantity := portfolio[symbol];
        var price := SharePrice(symbol);
        var value := Total(price, quantity);
        holdings := holdings[symbol := Holding(quantity, price, value)];
        pending := pending - {symbol};
      }
      if Invariant(State()) {
        AccountProofs.HoldingsPositive(State(), holdings);
      }
    }

    /** The history, oldest record first; replaying it rebuilds the account. */
    method GetTransactionHistory() returns (history: seq<Transaction>)
      ensures history == transactions
      ensures Audited(State()) ==> Replay(history) == State()
    {
      history := transactions;
    }

    /** The profit/loss report: deposits, cash, holdings value, totals and holdings. */
    method GetProfitLossReport() returns (report: Report)
      ensures report.initialDeposit == initialDeposit && report.currentBalance == balance
      ensures report.portfolioValue == PortfolioValue(portfolio, SharePrice)
      ensures report.totalAssets == report.portfolioValue + balance
      ensures report.profitLoss == report.totalAssets - initialDeposit
      ensures report.profitLossPercentage == Percentage(report.profitLoss, initialDeposit)
      ensures report.holdings.Keys == portfolio.Keys
      ensures forall symbol :: symbol in report.holdings ==>
                report.holdings[symbol] == HoldingOf(symbol, portfolio[symbol])
    {
      var portfolioValue := CalculatePortfolioValue();
      var profitLoss := CalculateProfitLoss();
      var holdings := GetHoldings();
      report := Report(initialDeposit, balance, portfolioValue, portfolioValue + balance,
                       profitLoss, Percentage(profitLoss, initialDeposit), holdings);
    }
  }
}
