/**
 What the ledger promises across calls: the invariant and the audit trail are
 kept by every mutator, the history only grows, and valuation behaves as a sum.
 */
module AccountProofs {
  import opened AccountModel

  // ---------------------------------------------------------------------------
  // History.

  /** Replaying one more record is applying it to the replay of the rest. */
  lemma ReplayAppend(history: seq<Transaction>, t: Transaction)
    ensures Replay(history + [t]) == Apply(Replay(history), t)
  {
    assert (history + [t])[..|history|] == history;
  }

  /** A record whose balance is the one it leaves keeps the audit trail complete. */
  lemma AuditedApply(s: AccountState, t: Transaction)
    requires Audited(s)
    requires t.balanceAfter == Apply(s, t).balance
    ensures Audited(Apply(s, t))
  {
    var s' := Apply(s, t);
    var h := s.transactions;
    assert Replay(s'.transactions) == s' by {
      ReplayAppend(h, t);
    }
    forall i | 0 <= i < |s'.transactions|
      ensures s'.transactions[i].balanceAfter == Replay(s'.transactions[..i + 1]).balance
    {
      if i < |h| {
        assert s'.transactions[..i + 1] == h[..i + 1];
      } else {
        assert s'.transactions[..i + 1] == s'.transactions;
      }
    }
  }

  /** The state of a new account is sound and its history is empty. */
  lemma FreshIsSound()
    ensures Invariant(Fresh) && Audited(Fresh)
    ensures Replay([]) == Fresh
  {
  }

  lemma DepositSound(s: AccountState, amount: real)
    requires Invariant(s) && Audited(s)
    ensures Invariant(DepositFunds(s, amount).state) && Audited(DepositFunds(s, amount).state)
  {
    var r := DepositFunds(s, amount);
    if r.ok {
      AuditedApply(s, Deposit(amount, r.state.balance));
    }
  }

  lemma WithdrawSound(s: AccountState, amount: real)
    requires Invariant(s) && Audited(s)
    ensures Invariant(WithdrawFunds(s, amount).state) && Audited(WithdrawFunds(s, amount).state)
  {
    var r := WithdrawFunds(s, amount);
    if r.ok {
      AuditedApply(s, Withdrawal(amount, r.state.balance));
    }
  }

  lemma BuySound(s: AccountState, symbol: string, quantity: int)
    requires Invariant(s) && Audited(s)
    ensures Invariant(BuyShares(s, symbol, quantity).state) && Audited(BuyShares(s, symbol, quantity).state)
  {
    var r := BuyShares(s, symbol, quantity);
    if r.ok {
      AuditedApply(s, r.state.transactions[|s.transactions|]);
      forall t | t in r.state.portfolio
        ensures r.state.portfolio[t] > 0 && SharePrice(t) != 0.0
      {
        if t != symbol {
          assert Held(r.state.portfolio, t) == Held(s.portfolio, t);
        }
      }
    }
  }

  lemma SellSound(s: AccountState, symbol: string, quantity: int)
    requires Invariant(s) && Audited(s)
    ensures Invariant(SellShares(s, symbol, quantity).state) && Audited(SellShares(s, symbol, quantity).state)
  {
    var r := SellShares(s, symbol, quantity);
    if r.ok {
      AuditedApply(s, r.state.transactions[|s.transactions|]);
      forall t | t in r.state.portfolio
        ensures r.state.portfolio[t] > 0 && SharePrice(t) != 0.0
      {
        if t != symbol {
          assert Held(r.state.portfolio, t) == Held(s.portfolio, t);
        }
      }
    }
  }

  /** Every mutator keeps the invariant and the audit trail. */
  lemma PerformSound(s: AccountState, req: Request)
    requires Invariant(s) && Audited(s)
    ensures Invariant(Perform(s, req).state) && Audited(Perform(s, req).state)
  {
    match req
    case DepositRequest(amount) => DepositSound(s, amount);
    case WithdrawRequest(amount) => WithdrawSound(s, amount);
    case BuyRequest(symbol, quantity) => BuySound(s, symbol, quantity);
    case SellRequest(symbol, quantity) => SellSound(s, symbol, quantity);
  }

  /** Every account reached by a session from a sound one is sound. */
  lemma {:induction false} SessionSound(s: AccountState, reqs: seq<Request>)
    requires Invariant(s) && Audited(s)
    ensures Invariant(Session(s, reqs)) && Audited(Session(s, reqs))
    decreases |reqs|
  {
    if reqs != [] {
      PerformSound(s, reqs[0]);
      SessionSound(Perform(s, reqs[0]).state, reqs[1..]);
    }
  }

  /**
   The history is append-only: a session keeps the earlier records as a prefix
   and adds exactly one record per successful call.
   */
  lemma {:induction false} SessionAppendOnly(s: AccountState, reqs: seq<Request>)
    ensures s.transactions <= Session(s, reqs).transactions
    ensures |Session(s, reqs).transactions| == |s.transactions| + Successes(s, reqs)
    decreases |reqs|
  {
    if reqs != [] {
      var next := Perform(s, reqs[0]).state;
      SessionAppendOnly(next, reqs[1..]);
      assert s.transactions <= next.transactions;
    }
  }

  /**
   Given the invariant, the `price == 0.0` branch of a sale is dead: a sale
   succeeds exactly when a positive quantity no larger than the holding is asked for.
   */
  lemma SellSucceedsWhenHeld(s: AccountState, symbol: string, quantity: int)
    requires Invariant(s)
    ensures SellShares(s, symbol, quantity).ok <==>
            quantity > 0 && symbol in s.portfolio && s.portfolio[symbol] >= quantity
  {
  }

  // ---------------------------------------------------------------------------
  // Valuation.

  /** Taking one present key off a map shrinks it by one. */
  lemma RemoveShrinks(portfolio: map<string, int>, symbol: string)
    requires symbol in portfolio
    ensures |portfolio - {symbol}| == |portfolio| - 1
  {
    assert (portfolio - {symbol}).Keys == portfolio.Keys - {symbol};
  }

  /** Any holding can be split off the portfolio value, whichever one the sum picks first. */
  lemma {:induction false} PortfolioValueRemove(portfolio: map<string, int>, symbol: string, price: PriceOracle)
    requires symbol in portfolio
    ensures PortfolioValue(portfolio, price) ==
            Total(price(symbol), portfolio[symbol]) + PortfolioValue(portfolio - {symbol}, price)
    decreases |portfolio|
  {
    var t :| t in portfolio && PortfolioValue(portfolio, price) ==
      Total(price(t), portfolio[t]) + PortfolioValue(portfolio - {t}, price);
    if t != symbol {
      var rest := portfolio - {t};
      var other := portfolio - {symbol};
      RemoveShrinks(portfolio, t);
      RemoveShrinks(portfolio, symbol);
      PortfolioValueRemove(rest, symbol, price);
      PortfolioValueRemove(other, t, price);
      assert rest - {symbol} == other - {t};
      assert rest[symbol] == portfolio[symbol] && other[t] == portfolio[t];
    }
  }

  /** Setting one holding to `quantity` replaces its term in the portfolio value. */
  lemma PortfolioValueUpdate(portfolio: map<string, int>, symbol: string, quantity: int, price: PriceOracle)
    ensures PortfolioValue(portfolio[symbol := quantity], price) ==
            Total(price(symbol), quantity) + PortfolioValue(portfolio - {symbol}, price)
  {
    var updated := portfolio[symbol := quantity];
    PortfolioValueRemove(updated, symbol, price);
    assert updated - {symbol} == portfolio - {symbol};
  }

  /**
   The portfolio value splits into the term of any one symbol, price times its held
   quantity (0 when it is not held), plus the value of the other holdings.
   */
  lemma PortfolioValueHeld(portfolio: map<string, int>, symbol: string, price: PriceOracle)
    ensures PortfolioValue(portfolio, price) ==
            Total(price(symbol), Held(portfolio, symbol)) + PortfolioValue(portfolio - {symbol}, price)
  {
    if symbol in portfolio {
      PortfolioValueRemove(portfolio, symbol, price);
    } else {
      assert portfolio - {symbol} == portfolio;
    }
  }

  /** A non-negative quantity at a non-negative price is worth a non-negative amount. */
  lemma TotalNonNegative(price: real, quantity: int)
    requires price >= 0.0 && quantity >= 0
    ensures Total(price, quantity) >= 0.0
  {
  }

  /** Totals at one price add up over quantities. */
  lemma TotalAdds(price: real, a: int, b: int)
    ensures Total(price, a + b) == Total(price, a) + Total(price, b)
  {
  }

  /** A positive quantity at a positive price is worth a positive amount. */
  lemma TotalPositive(price: real, quantity: int)
    requires price > 0.0 && quantity > 0
    ensures Total(price, quantity) > 0.0
  {
  }

  /** A portfolio of one holding is worth that holding. */
  lemma SingleHoldingValue(symbol: string, quantity: int, price: PriceOracle)
    ensures PortfolioValue(map[symbol := quantity], price) == Total(price(symbol), quantity)
  {
    var none: map<string, int> := map[];
    PortfolioValueUpdate(none, symbol, quantity, price);
    assert none - {symbol} == none;
  }

  /** Non-negative quantities at non-negative prices are worth a non-negative amount. */
  lemma {:induction false} PortfolioValueNonNegative(portfolio: map<string, int>, price: PriceOracle)
    requires forall t :: t in portfolio ==> portfolio[t] >= 0 && price(t) >= 0.0
    ensures PortfolioValue(portfolio, price) >= 0.0
    decreases |portfolio|
  {
    if portfolio != map[] {
      var t :| t in portfolio;
      RemoveShrinks(portfolio, t);
      PortfolioValueRemove(portfolio, t, price);
      PortfolioValueNonNegative(portfolio - {t}, price);
      TotalNonNegative(price(t), portfolio[t]);
    }
  }

  /** A sound account's holdings are worth a non-negative amount at the quoted prices. */
  lemma SoundPortfolioValue(s: AccountState)
    requires Invariant(s)
    ensures PortfolioValue(s.portfolio, SharePrice) >= 0.0
  {
    PortfolioValueNonNegative(s.portfolio, SharePrice);
  }

  /** In a sound account every holdings line is worth a positive amount. */
  lemma HoldingsPositive(s: AccountState, holdings: map<string, Holding>)
    requires Invariant(s)
    requires forall symbol :: symbol in holdings ==>
               symbol in s.portfolio && holdings[symbol] == HoldingOf(symbol, s.portfolio[symbol])
    ensures forall symbol :: symbol in holdings ==> holdings[symbol].value > 0.0
  {
    forall symbol | symbol in holdings
      ensures holdings[symbol].value > 0.0
    {
      TotalPositive(SharePrice(symbol), s.portfolio[symbol]);
    }
  }

  /** Buying at the quoted price moves value from cash to holdings: profit/loss is unchanged. */
  lemma BuyKeepsProfitLoss(s: AccountState, symbol: string, quantity: int)
    ensures ProfitLoss(BuyShares(s, symbol, quantity).state, SharePrice) == ProfitLoss(s, SharePrice)
  {
    var r := BuyShares(s, symbol, quantity);
    if r.ok {
      var n := Held(s.portfolio, symbol) + quantity;
      assert r.state.portfolio == s.portfolio[symbol := n] by {
        assert r.state == Apply(s, Buy(symbol, quantity, SharePrice(symbol), Total(SharePrice(symbol), quantity), r.state.balance));
      }
      PortfolioValueHeld(s.portfolio, symbol, SharePrice);
      PortfolioValueUpdate(s.portfolio, symbol, n, SharePrice);
      TotalAdds(SharePrice(symbol), Held(s.portfolio, symbol), quantity);
    }
  }

  /** Selling at the quoted price moves value from holdings to cash: profit/loss is unchanged. */
  lemma SellKeepsProfitLoss(s: AccountState, symbol: string, quantity: int)
    ensures ProfitLoss(SellShares(s, symbol, quantity).state, SharePrice) == ProfitLoss(s, SharePrice)
  {
    var r := SellShares(s, symbol, quantity);
    if r.ok {
      PortfolioValueRemove(s.portfolio, symbol, SharePrice);
      var left := s.portfolio[symbol] - quantity;
      TotalAdds(SharePrice(symbol), left, quantity);
      if left == 0 {
        assert r.state.portfolio == s.portfolio - {symbol};
      } else {
        assert r.state.portfolio == s.portfolio[symbol := left];
        PortfolioValueUpdate(s.portfolio, symbol, left, SharePrice);
      }
    }
  }

  /** A deposit leaves profit/loss unchanged; a withdrawal lowers it by the amount taken. */
  lemma CashMovesProfitLoss(s: AccountState, amount: real, price: PriceOracle)
    ensures ProfitLoss(DepositFunds(s, amount).state, price) == ProfitLoss(s, price)
    ensures WithdrawFunds(s, amount).ok ==>
            ProfitLoss(WithdrawFunds(s, amount).state, price) == ProfitLoss(s, price) - amount
  {
  }

  // ---------------------------------------------------------------------------
  // Scenarios.

  /** Deposit 10000 and buy 10 AAPL: cash 8500, deposits 10000, one holding of 10. */
  lemma DepositThenBuy()
    ensures var bought := BuyShares(DepositFunds(Fresh, 10000.0).state, "AAPL", 10);
            && bought.ok
            && bought.state.balance == 8500.0
            && bought.state.initialDeposit == 10000.0
            && bought.state.portfolio == map["AAPL" := 10]
  {
    var deposited := DepositFunds(Fresh, 10000.0).state;
    assert deposited.balance == 10000.0 && deposited.initialDeposit == 10000.0 && deposited.portfolio == map[];
    var bought := BuyShares(deposited, "AAPL", 10);
    assert SharePrice("AAPL") == 150.0;
    assert bought.ok && bought.state.balance == 8500.0;
    assert bought.state.portfolio == map["AAPL" := 10];
  }

  /**
   The account of `DepositThenBuy` breaks even at the table price; under any quote
   that prices AAPL at 200 instead, it shows a profit of 500.
   */
  lemma BreakEvenThenProfit(s: AccountState, quote: PriceOracle)
    requires s.balance == 8500.0 && s.initialDeposit == 10000.0 && s.portfolio == map["AAPL" := 10]
    requires quote("AAPL") == 200.0
    ensures ProfitLoss(s, SharePrice) == 0.0
    ensures ProfitLoss(s, quote) == 500.0
  {
    SingleHoldingValue("AAPL", 10, SharePrice);
    SingleHoldingValue("AAPL", 10, quote);
  }

  /** Deposit 10000, buy 10 AAPL and 5 TSLA: both purchases succeed and the holdings are worth 5500. */
  lemma TwoStockValue()
    ensures var s1 := DepositFunds(Fresh, 10000.0).state;
            var s2 := BuyShares(s1, "AAPL", 10);
            var s3 := BuyShares(s2.state, "TSLA", 5);
            && s2.ok && s3.ok
            && PortfolioValue(s3.state.portfolio, SharePrice) == 5500.0
  {
    var s1 := DepositFunds(Fresh, 10000.0).state;
    var s2 := BuyShares(s1, "AAPL", 10);
    assert SharePrice("AAPL") == 150.0 && s2.ok && s2.state.balance == 8500.0;
    assert s2.state.portfolio == map["AAPL" := 10];
    var s3 := BuyShares(s2.state, "TSLA", 5);
    assert SharePrice("TSLA") == 800.0 && s3.ok;
    var both := map["AAPL" := 10, "TSLA" := 5];
    assert s3.state.portfolio == both;
    PortfolioValueRemove(both, "TSLA", SharePrice);
    assert both - {"TSLA"} == map["AAPL" := 10];
    SingleHoldingValue("AAPL", 10, SharePrice);
  }

  /** Deposit, buy, sell: three records in call order, and the sale leaves 5 shares. */
  lemma HistoryInCallOrder()
    ensures var s := Session(Fresh, [DepositRequest(10000.0), BuyRequest("AAPL", 10), SellRequest("AAPL", 5)]);
            && |s.transactions| == 3
            && s.transactions[0].Deposit?
            && s.transactions[1].Buy?
            && s.transactions[2].Sell?
            && s.balance == 9250.0
            && s.portfolio == map["AAPL" := 5]
  {
    var reqs := [DepositRequest(10000.0), BuyRequest("AAPL", 10), SellRequest("AAPL", 5)];
    var s1 := Perform(Fresh, reqs[0]).state;
    var s2 := Perform(s1, reqs[1]).state;
    var s3 := Perform(s2, reqs[2]).state;
    assert s1.balance == 10000.0;
    assert s2.portfolio == map["AAPL" := 10];
    assert s3.portfolio == map["AAPL" := 5];
    assert Session(Fresh, reqs) == Session(s1, reqs[1..]);
    assert Session(s1, reqs[1..]) == Session(s2, reqs[2..]);
    assert Session(s2, reqs[2..]) == Session(s3, []);
  }
}
