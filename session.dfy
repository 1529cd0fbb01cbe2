/** A session: the engine calls the menu makes, one per selection, applied in order.
    Rejected calls leave the state as it was. */
module Session {
  import opened Int32
  import opened Ledger

  datatype Request =
    | AddFundsRequest(amount: real)
    | AddStockRequest(stock: Stock)
    | BuyRequest(symbol: string, shares: int32, price: real)
    | SellRequest(symbol: string, shares: int32)

  function Outcome(s: AccountState, q: Request): Result<AccountState>
    requires Linked(s)
  {
    match q
    case AddFundsRequest(amount) => Ok(AddFunds(s, amount))
    case AddStockRequest(stock) => Ok(AddStock(s, stock))
    case BuyRequest(symbol, shares, price) => BuyStock(s, symbol, shares, price)
    case SellRequest(symbol, shares) => SellStock(s, symbol, shares)
  }

  /** One engine call. A rejected call changes nothing; a successful deposit, buy or
      sale appends exactly one record, whose balance is the new balance; adding a
      stock touches only the catalog. */
  function Apply(s: AccountState, q: Request): (r: AccountState)
    requires Linked(s)
    ensures Linked(r)
    ensures Consistent(s) ==> Consistent(r)
    ensures Outcome(s, q).Err? ==> r == s
    ensures Outcome(s, q).Ok? && !q.AddStockRequest? ==>
      && |r.history| == |s.history| + 1
      && r.history[..|s.history|] == s.history
      && Last(r.history).balanceAfter == r.balance
    ensures q.AddStockRequest? ==> r.history == s.history && r.balance == s.balance && r.holdings == s.holdings
    ensures r.balance != s.balance ==> |r.history| == |s.history| + 1
  {
    match Outcome(s, q)
    case Ok(t) => t
    case Err(_) => s
  }

  function Run(s: AccountState, qs: seq<Request>): (r: AccountState)
    requires Linked(s)
    ensures Linked(r)
    decreases |qs|
  {
    if qs == [] then s else Run(Apply(s, qs[0]), qs[1..])
  }

  /** The history only grows: every earlier record stays where it was, and each call
      adds at most one. */
  lemma {:induction false} RunAppendOnly(s: AccountState, qs: seq<Request>)
    requires Linked(s)
    ensures |s.history| <= |Run(s, qs).history| <= |s.history| + |qs|
    ensures Run(s, qs).history[..|s.history|] == s.history
    decreases |qs|
  {
    if qs != [] {
      var s' := Apply(s, qs[0]);
      RunAppendOnly(s', qs[1..]);
      var h, h', h'' := s.history, s'.history, Run(s, qs).history;
      assert h'[..|h|] == h;
      assert h''[..|h'|] == h';
      assert h''[..|h|] == h'[..|h|];
    }
  }

  /** Throughout a session the balance is the one the newest record reports, and
      every held symbol stays in the catalog. */
  lemma {:induction false} RunConsistent(s: AccountState, qs: seq<Request>)
    requires Consistent(s)
    ensures Consistent(Run(s, qs))
    decreases |qs|
  {
    if qs != [] {
      RunConsistent(Apply(s, qs[0]), qs[1..]);
    }
  }

  function Deposits(amounts: seq<real>): (qs: seq<Request>)
    ensures |qs| == |amounts|
    ensures forall i :: 0 <= i < |qs| ==> qs[i] == AddFundsRequest(amounts[i])
  {
    if amounts == [] then [] else [AddFundsRequest(amounts[0])] + Deposits(amounts[1..])
  }

  function Total(amounts: seq<real>): real {
    if amounts == [] then 0.0 else amounts[0] + Total(amounts[1..])
  }

  /** After a run of deposits the balance has grown by their total, each one left a
      record, and the positions are as they were. */
  lemma {:induction false} RunDeposits(s: AccountState, amounts: seq<real>)
    requires Linked(s)
    ensures Run(s, Deposits(amounts)).balance == s.balance + Total(amounts)
    ensures |Run(s, Deposits(amounts)).history| == |s.history| + |amounts|
    ensures Run(s, Deposits(amounts)).holdings == s.holdings
    decreases |amounts|
  {
    if amounts != [] {
      var qs := Deposits(amounts);
      assert qs[1..] == Deposits(amounts[1..]);
      RunDeposits(Apply(s, qs[0]), amounts[1..]);
    }
  }

  /** From a new account, the balance after a run of deposits is their total. */
  lemma DepositsFromInitial(amounts: seq<real>)
    ensures Run(Initial(), Deposits(amounts)).balance == Total(amounts)
  {
    RunDeposits(Initial(), amounts);
  }

  /** A request the menu could make with non-negative numbers. */
  predicate NonNegative(q: Request) {
    match q
    case AddFundsRequest(amount) => amount >= 0.0
    case AddStockRequest(stock) => stock.price >= 0.0
    case BuyRequest(_, _, _) => true
    case SellRequest(_, shares) => shares >= 0
  }

  predicate PricesNonNegative(stocks: map<string, real>) {
    forall symbol :: symbol in stocks ==> stocks[symbol] >= 0.0
  }

  /** Buys are checked against the balance, so with non-negative deposits, prices and
      sale counts the balance never becomes negative. */
  lemma {:induction false} RunSolvent(s: AccountState, qs: seq<Request>)
    requires Linked(s) && s.balance >= 0.0 && PricesNonNegative(s.stocks)
    requires forall i :: 0 <= i < |qs| ==> NonNegative(qs[i])
    ensures Run(s, qs).balance >= 0.0
    ensures PricesNonNegative(Run(s, qs).stocks)
    decreases |qs|
  {
    if qs != [] {
      var s' := Apply(s, qs[0]);
      if qs[0].SellRequest? && Outcome(s, qs[0]).Ok? {
        AmountSign(qs[0].shares, s.stocks[qs[0].symbol]);
      }
      assert s'.balance >= 0.0 && PricesNonNegative(s'.stocks);
      RunSolvent(s', qs[1..]);
    }
  }
}
