# Brokerage account ledger, modelled in Dafny

This project models the bookkeeping engine of a single-user brokerage app
(`BrokerageAccount` in `BrokerageApp.java`): a catalog of stocks with current
prices, a position book mapping each symbol to a holding (share count and original
purchase price), a cash balance, and an append-only transaction history. The
operations are `addFunds`, `addStock`, `buyStock`, `sellStock` and `getBalance`,
together with the totals that `displayHoldings` reports (total invested, current
value, net profit/loss).

Layout:

- `int32.dfy` (module `Int32`): Java `int` share counts and the wrap-around of `+=`.
- `sums.dfy` (module `Sums`): sums over the keys of a map, independent of visiting order.
- `ledger.dfy` (module `Ledger`): the entities (`Stock`, `Holding`, `Transaction`,
  `AccountState`) and each operation as a function from the state before to the
  state after, or to the `Error` that rejected it. A rejected operation is a
  complete no-op by construction.
- `totals.dfy` (module `Totals`): the reported totals as order-independent sums,
  and how each buy and sale moves them.
- `session.dfy` (module `Session`): a sequence of engine calls, one per menu
  selection, and the properties that hold across it (append-only history, deposit
  totals, solvency, the balance always matching the newest record).
- `account.dfy` (module `Accounts`): the class `BrokerageAccount`, whose fields
  `balance`, `holdings`, `stocks` and `transactionHistory` are updated in place.
  Each method is specified by the `Ledger` function of the same name and keeps the
  invariant `Valid()`. `DisplayHoldings` computes the totals with a loop. Two
  client methods walk through a session using the contracts alone.

Modelling choices:

- Money is an exact `real`, not a Java `double`. `shares * price` is the share count
  converted exactly, times the price (`Ledger.Amount`).
- Share counts are Java `int`s (`Int32.int32`). `addShares` wraps modulo 2^32, and
  so does the `addShares(-shares)` a sale performs.
- The catalog is a map from symbol to current price, and holdings are keyed by the
  same symbol. A sale is priced at the catalog price and a buy at the caller's
  price. `Ledger.Linked` states that every held symbol is in the catalog.
- A holding is a value in a map field that the methods reassign. The source mutates
  its `StockHolding` object in place, but nothing else refers to that object.
- Nothing in the source validates amounts, share counts or prices. The model keeps
  this: a deposit may be negative, a buy of 0 shares creates a 0-share holding, and
  a sale of a negative count grows the position. Properties that need positive
  counts or non-negative numbers say so in their `requires`.
- A repeated buy keeps the first purchase price (`BrokerageApp.java:174`, `59-61`).
  The code computes no weighted average, and the model follows it.
- The code accepts negative deposits and negative sale counts, so the balance can
  become negative. Non-negativity is proved only under explicit conditions
  (`Session.RunSolvent`), and unconditionally only after a successful buy
  (`Ledger.BuyStock`).

## Model

| member | source | states |
|---|---|---|
| `Int32.Wrap` | BrokerageApp.java:59-61 | `addShares` on a Java `int` yields the in-range value congruent to the mathematical sum modulo 2^32, and the sum itself when it does not overflow |
| `Int32.WrapAbsorbs` | BrokerageApp.java:192 | `addShares(-shares)`, where `-shares` is itself wrapped, leaves the same count as subtracting `shares` and wrapping once (including `shares` = `Integer.MIN_VALUE`) |
| `Sums.SumPick` | BrokerageApp.java:140-144 | any holding may be added first: a total summed over the holdings does not depend on the (unspecified) iteration order |
| `Ledger.Initial` | BrokerageApp.java:113-118 | a new account has balance 0, no holdings, an empty catalog and an empty history |
| `Ledger.AddFunds` | BrokerageApp.java:120-123 | the balance changes by exactly `amount`, whatever its sign; exactly one Deposit record is appended (no stock, 0 shares, price 0, gross `amount`, balance-after the new balance); holdings and catalog are unchanged; the invariants are kept |
| `Ledger.AddStock` | BrokerageApp.java:125-127 | the catalog gains or overwrites the symbol's price, every other price is kept, and balance, holdings and history are unchanged |
| `Ledger.BuyStock` | BrokerageApp.java:158-177 | rejected with StockNotFound for a symbol outside the catalog, with InsufficientFunds when `shares * purchasePrice` exceeds the balance, and otherwise succeeds (both directions). On success the balance drops by exactly `shares * purchasePrice` at the caller's price and is never negative, a new holding has `shares` at `purchasePrice`, an existing one grows by `shares` (as a Java `int`) and keeps its original purchase price, other holdings and the catalog are unchanged, and one Buy record with that total and the new balance is appended |
| `Ledger.SellStock` | BrokerageApp.java:179-197 | rejected with NoHoldings when nothing is held, with NotEnoughShares when `shares` exceeds the held count, and otherwise succeeds (both directions). On success the balance rises by `shares` times the stock's current catalog price, the holding shrinks by `shares` and is removed exactly when the count reaches 0, other holdings and the catalog are unchanged, and one Sell record at the current price with the new balance is appended |
| `Ledger.BuyKeepsPositiveHoldings` | BrokerageApp.java:170-175 | when every buy uses a positive count that does not overflow, no holding has a count of 0 or less, and the bought symbol's count is the old count plus `shares` |
| `Ledger.SellKeepsPositiveHoldings` | BrokerageApp.java:190-195 | with a positive count sold, the holding is removed exactly when all its shares are sold, and otherwise keeps the positive remainder, so no zero-share holding ever remains |
| `Ledger.Holding.AddShares` | BrokerageApp.java:59-61 | the share count grows by `n` as a Java `int` (exactly `shares + n` when that does not overflow, otherwise the value congruent to it modulo 2^32), and the purchase price is kept |
| `Ledger.Holding.TotalInvestment` | BrokerageApp.java:63-65 | a holding's investment is its value at its own purchase price: 0 with no shares, never negative for a non-negative count and price |
| `Ledger.Holding.CurrentValue` | BrokerageApp.java:67-69 | a holding's value at the given current price is 0 with no shares, non-negative for a non-negative count and price, and positive for a positive count and price |
| `Totals.TotalInvested` | BrokerageApp.java:137-142 | total invested, summed over the holdings, is 0 for an empty position book and never negative when every count and purchase price is non-negative |
| `Totals.TotalValue` | BrokerageApp.java:138-143 | current value, summed over the holdings at the catalog prices, is 0 for an empty position book and never negative when counts and prices are non-negative |
| `Totals.NetProfitLoss` | BrokerageApp.java:147 | net profit/loss is current value minus total invested, and is 0 when every held stock trades at its holding's purchase price |
| `Totals.InvestedChange` | BrokerageApp.java:63-65 | total invested is the sum of shares times purchase price: changing one holding changes it by exactly that holding's difference |
| `Totals.ValueChange` | BrokerageApp.java:67-69 | current value is the sum of shares times current price: changing one holding changes it by exactly that holding's difference |
| `Totals.BuyTotals` | BrokerageApp.java:169-175 | a buy raises total invested by `shares` times the position's purchase price (the caller's price for a new position, the ORIGINAL price for an existing one), and raises current value by `shares` at the catalog price |
| `Totals.BuyNewPositionConserves` | BrokerageApp.java:169-172 | buying a symbol not yet held moves exactly the cost from cash to total invested |
| `Totals.SellTotals` | BrokerageApp.java:190-195 | a sale lowers total invested by `shares` at the purchase price and current value by `shares` at the current price, so cash plus current value is unchanged |
| `Session.Apply` | BrokerageApp.java:120-197 | a rejected call changes nothing; a successful deposit, buy or sale appends exactly one record at the end, leaves the earlier records alone, and its balance-after equals the new balance; adding a stock changes only the catalog; every balance change leaves a record |
| `Session.Run` | BrokerageApp.java:233-264 | a sequence of engine calls keeps every held symbol in the catalog |
| `Session.RunAppendOnly` | BrokerageApp.java:111 | over any session the history only grows, by at most one record per call, and earlier records are never changed |
| `Session.RunConsistent` | BrokerageApp.java:199-201 | over any session the balance is always the newest record's balance-after (or 0 before any record) |
| `Session.RunDeposits` | BrokerageApp.java:120-123 | a run of deposits raises the balance by their total, adds one record each, and leaves the holdings unchanged |
| `Session.DepositsFromInitial` | BrokerageApp.java:113-123 | from a new account, the balance after any run of deposits is the sum of their amounts |
| `Session.RunSolvent` | BrokerageApp.java:164-169 | with non-negative deposits, catalog prices and sale counts, the balance never becomes negative, because every buy is checked against the balance |
| `Accounts.BrokerageAccount.constructor` | BrokerageApp.java:113-118 | the fields start as the initial account state, and the invariant holds |
| `Accounts.BrokerageAccount.AddFunds` | BrokerageApp.java:120-123 | updates the fields in place to exactly `Ledger.AddFunds` of the old state |
| `Accounts.BrokerageAccount.AddStock` | BrokerageApp.java:125-127 | updates the catalog in place to exactly `Ledger.AddStock` of the old state |
| `Accounts.BrokerageAccount.BuyStock` | BrokerageApp.java:158-177 | either reports Completed with the fields updated in place to `Ledger.BuyStock`'s result, or reports the rejecting error with every field unchanged |
| `Accounts.BrokerageAccount.SellStock` | BrokerageApp.java:179-197 | either reports Completed with the fields updated in place to `Ledger.SellStock`'s result, or reports the rejecting error with every field unchanged |
| `Accounts.BrokerageAccount.GetBalance` | BrokerageApp.java:199-201 | the balance equals the newest record's balance-after, or 0 when there are no records |
| `Accounts.BrokerageAccount.DisplayHoldings` | BrokerageApp.java:136-148 | the loop over the holdings yields the total invested, the current value, and their difference as net profit/loss |

## Left out

- The interactive `main` loop (`Scanner` input, menu, exit). It is console I/O. `Session.Run` stands for the sequence of engine calls that the loop makes.
- All printing: `displayAvailableStocks`, the print statements of `displayHoldings` and `displayTransactionHistory`, the `displayHoldings()` call inside `sellStock`, and the error messages. These are output only. The rejection reasons are returned as `Error` values, and the history is the `transactionHistory` field.
- The `toString` methods of `Stock`, `StockHolding` and `Transaction`. They render `double`s as text.
- IEEE `double` rounding. Amounts are exact reals.
- `HashMap` iteration order. Totals are sums over the key set, and `Sums.SumPick` shows that the order does not matter.
- The holding's reference to its `Stock` object. A sale is priced at the catalog's current price for the symbol. The two agree unless `addStock` replaces the object of a symbol that is already held. `main` calls `addStock` only before trading.
- `Stock.setPrice`. It is never called. Its effect of repricing a symbol is what `Ledger.AddStock` does to the catalog.
- Totals.BuyTotals: assumes the bought symbol's share count does not wrap around. Where it wraps, `Ledger.BuyStock` still states the wrapped count.
- Totals.SellTotals: assumes the remaining share count does not wrap around. Where it wraps, `Ledger.SellStock` still states the wrapped count.
