# Swap Points exchange ledger

The Swap Points server keeps all its data in memory: one array of users, one
of transactions (deposits and withdrawals, in USDT), one of exchange orders,
and a rate pair `currentRate` (UAH per USDT and UAH per TON, 46 and 80 at
start-up). Every HTTP route handler reads those arrays, looks records up with
`find` (first match in insertion order) or `filter`, and updates what it
finds in place: it pushes new records, adds to or subtracts from a user's
`balanceUSDT`, or overwrites the `status` of an order or a transaction.

This project models that ledger in Dafny, in five files:

- `ledger_types.dfy` (module `LedgerTypes`): the records (`User`,
  `Transaction`, `Order`, `Rates`) and the replies (`Response`: `Ok` with a
  body, `BadRequest`, `NotFound`). A request field that the code tests with
  `!x` is an `Option`; `TruthyNumber` and `TruthyString` say when JavaScript
  treats it as present (absent, `0` and `""` are all falsy).
- `search.dfy` (module `Search`): `find` as the function `FindFirst`, with its
  full characterisation, and as the loop `FindIndex`; `filter` as the function
  `Filter` and as the loop `FilterLoop`.
- `ledger_spec.dfy` (module `LedgerSpec`): each handler as a function from
  the ledger `State` to an `Outcome` (the next state and the reply), plus
  `Step` (any one request) and `Run` (a sequence of requests).
- `exchange_server.dfy` (module `ExchangeServer`): the class `Exchange`, whose
  fields are the three arrays and the rate pair, and whose methods are the
  handlers, updating the fields step by step with search loops. Each handler
  method's contract says that the new fields and the reply are exactly those
  of the handler function in `LedgerSpec`; the helper `ConfirmPending`, which
  deposit confirmation calls, has its own contract tying the transactions to
  `LedgerSpec.ConfirmFirstPending`.
- `ledger_properties.dfy` (module `LedgerProperties`): what the handlers
  guarantee, proved over the functions of `LedgerSpec`: the error replies and
  that they change nothing, exactly which fields an accepted request changes,
  how the users' total USDT moves, which repeated requests change nothing and
  which credit twice, and that over any sequence of requests records are only
  appended and only `balanceUSDT`, a transaction's `status` and `txHash`, and
  an order's `status` are ever rewritten.

The wall clock (`Date.now()`, `new Date()`) is the parameter `now`, in
milliseconds. The ids the server generates (`'user_' + Date.now()`,
`'dep_' + …`, `'tx_' + …`, `'SWAP-' + … + Math.random()…`) are the parameter
`id`.

## Behaviour as written

The model follows the code, including these behaviours; the lemma that
states each is named in parentheses:

- Withdrawal has no positivity check on `amount`: a negative amount no
  greater than the balance (any negative amount, when the balance is
  non-negative) passes the funds check and raises the balance
  (`WithdrawNegativeAmountCredits`).
  A withdrawal never takes a non-negative balance below zero
  (`WithdrawKeepsBalancesNonNegative`).
- Deposit confirmation accepts any amount, so a negative one lowers a
  balance, even below zero (`ConfirmDepositCredits`). So the hypothesis of
  `WithdrawKeepsBalancesNonNegative` (every balance non-negative) does not
  hold of every state reachable from start-up, and a negative withdrawal
  greater than a negative balance is refused (`WithdrawInsufficient`).
- Deposit confirmation by `(userId, amount)` credits the user before, and
  regardless of, looking for a matching pending transaction. The match does
  not test the transaction's type, so a pending withdrawal of the same amount
  can be the one marked confirmed (`ConfirmDepositCanMarkWithdrawal`). Sending
  the same confirmation twice credits twice (`ConfirmDepositTwice`).
- The admin deposit confirmation does not check the transaction's status, so
  confirming the same deposit twice credits its owner twice
  (`AdminConfirmDepositTwice`). It marks the deposit confirmed before looking
  its owner up, so a deposit whose owner did not resolve would still be
  marked confirmed (`AdminConfirmDepositAccepted`).
- The admin order transitions overwrite the status whatever it was: a
  confirmed, received or expired order can be confirmed or marked received
  (`AdminSetStatusFound`, `AdminReceivedAfterConfirmed`).
- The order read expires an order lazily. A second read at the same time
  changes nothing, but a later read can still expire an order the first read
  left pending (`GetOrderIdempotent`, `GetOrderLaterReadExpires`).
- The history read is always a 200 reply listing the transactions that
  carry the id, never a 404 (`HistoryExact`). Since a transaction is stored
  only for a user found by id, and user ids never change, from start-up the
  history of an id the user read answers with 404 is empty
  (`RunFromInitialUnknownUserHistoryEmpty`).
- Login looks users up by `phone ===`, so all logins without a phone share
  the first phone-less user (`LoginExisting`).

The code has no password check, no registration or duplicate-phone error,
no order cancellation and no durable store; the model has none either.

## Model

| member | source | states |
|---|---|---|
| Search.FindFirst | backend/server.js:46 | `find`: the result is the index of an element satisfying the predicate with no earlier one satisfying it, and it is None exactly when no element satisfies it |
| Search.FindIndex | backend/server.js:72 | the search loop returns the same first index as `FindFirst`, or None |
| Search.Filter | backend/server.js:88 | `filter`: no longer than the input, every element kept is from the input and satisfies the predicate, and every input element satisfying it is kept |
| Search.FilterAppend | backend/server.js:88 | filtering a concatenation is filtering each part and concatenating, so the kept elements keep their relative order |
| Search.FilterSingleton | backend/server.js:88 | a single element is kept exactly when it satisfies the predicate |
| Search.FilterMultiset | backend/server.js:88 | every element satisfying the predicate is kept exactly as many times as it occurs, and no other element is kept |
| Search.FilterNone | backend/server.js:88 | nothing is kept when no element satisfies the predicate |
| Search.FilterLoop | backend/server.js:88 | the loop builds exactly `Filter` of its input |
| ExchangeServer.Exchange.constructor | backend/server.js:17-22 | the ledger starts with no users, transactions or orders and rates USDT 46, TON 80 |
| ExchangeServer.Exchange.GetRates | backend/server.js:27-30 | replies with the current rate pair |
| ExchangeServer.Exchange.UpdateRates | backend/server.js:33-39 | new rates and reply are those of `LedgerSpec.UpdateRates` on the old state |
| LedgerProperties.UpdateRatesEffect | backend/server.js:35-38 | a rate is overwritten exactly when the request gives it a present non-zero value; users, transactions and orders are unchanged; the reply holds the new rates |
| ExchangeServer.Exchange.Login | backend/server.js:42-68 | new fields and reply are those of `LedgerSpec.Login` on the old state |
| LedgerProperties.LoginExisting | backend/server.js:46-67 | when a user has this phone, the first such user is returned and no state changes |
| LedgerProperties.LoginCreates | backend/server.js:48-67 | otherwise exactly one user is appended, with this id, phone and time and all balances and counters 0; nothing else changes |
| LedgerProperties.LoginTotal | backend/server.js:48-58 | a login leaves the users' total USDT unchanged |
| LedgerProperties.LoginTwice | backend/server.js:42-68 | a second login with the same phone returns the same reply and changes nothing |
| ExchangeServer.Exchange.GetUser | backend/server.js:71-84 | replies as `LedgerSpec.GetUser` on the current state and changes nothing |
| LedgerProperties.GetUserCases | backend/server.js:72-83 | 404 exactly when no user has the id; otherwise the four balance and counter fields of the first user with it |
| ExchangeServer.Exchange.History | backend/server.js:87-90 | replies as `LedgerSpec.History` on the current state and changes nothing |
| LedgerProperties.HistoryExact | backend/server.js:88-89 | the list holds only transactions of this user from the ledger, and every transaction of this user, each as often as it occurs in the ledger and in ledger order (splitting the ledger splits the history) |
| LedgerProperties.HistoryAfterRequestDeposit | backend/server.js:88-89 | an accepted deposit request adds its record at the end of its user's history and leaves other users' histories unchanged |
| ExchangeServer.Exchange.RequestDeposit | backend/server.js:93-128 | new fields and reply are those of `LedgerSpec.RequestDeposit` on the old state |
| LedgerProperties.RequestDepositMissingField | backend/server.js:98-100 | an absent or falsy user id or amount gives 400 and changes nothing |
| LedgerProperties.RequestDepositUnknownUser | backend/server.js:102-106 | an unknown user gives 404 and changes nothing |
| LedgerProperties.RequestDepositAccepted | backend/server.js:108-127 | exactly one pending USDT deposit with no hash is appended with the given id, user, amount and time; no balance changes; the reply carries the record |
| ExchangeServer.Exchange.ConfirmDeposit | backend/server.js:131-152 | new fields and reply are those of `LedgerSpec.ConfirmDeposit` on the old state |
| ExchangeServer.Exchange.ConfirmPending | backend/server.js:145-149 | the transactions become `LedgerSpec.ConfirmFirstPending` of the old ones; users, orders and rates are unchanged |
| LedgerProperties.ConfirmDepositUnknownUser | backend/server.js:136-140 | an unknown user gives 404 and changes nothing |
| LedgerProperties.ConfirmDepositCredits | backend/server.js:136-151 | the user alone is credited exactly `amount`, match or no match; only the first pending transaction with this user and amount is confirmed with the hash, every other transaction is unchanged; the reply is the new balance |
| LedgerProperties.ConfirmDepositTotal | backend/server.js:142 | the users' total USDT rises by `amount` on success and is unchanged on 404 |
| LedgerProperties.ConfirmDepositTwice | backend/server.js:136-151 | the same confirmation sent twice credits `2 × amount` |
| LedgerProperties.ConfirmDepositCanMarkWithdrawal | backend/server.js:145-148 | in an example state, a pending withdrawal with the same user and amount can be the record marked confirmed, and the user is still credited |
| ExchangeServer.Exchange.RequestWithdraw | backend/server.js:155-190 | new fields and reply are those of `LedgerSpec.RequestWithdraw` on the old state |
| LedgerProperties.WithdrawUnknownUser | backend/server.js:160-164 | an unknown user gives 404 and changes nothing |
| LedgerProperties.WithdrawInsufficient | backend/server.js:166-168 | `balanceUSDT < amount` gives 400 and changes nothing |
| LedgerProperties.WithdrawRecordFields | backend/server.js:171-183 | the withdrawal record is pending USDT with the given id, user, amount, card and time and `uahAmount = amount × rate` |
| LedgerProperties.WithdrawAccepted | backend/server.js:170-189 | the user alone is debited exactly `amount`; exactly one withdrawal record priced at the current USDT rate is appended; orders and rates are unchanged; the reply carries the record |
| LedgerProperties.WithdrawKeepsBalancesNonNegative | backend/server.js:166-170 | if every balance is non-negative before a withdrawal, every balance is non-negative after it |
| LedgerProperties.WithdrawNegativeAmountCredits | backend/server.js:166-170 | a negative amount no greater than the user's balance is accepted and raises the balance |
| LedgerProperties.WithdrawTotal | backend/server.js:160-170 | the users' total USDT falls by `amount` on success and is unchanged on 404 or 400 |
| ExchangeServer.Exchange.CreateOrder | backend/server.js:193-234 | new fields and reply are those of `LedgerSpec.CreateOrder` on the old state |
| LedgerProperties.CreateOrderMissingField | backend/server.js:198-200 | an absent or falsy direction, amount or card number gives 400 and changes nothing |
| LedgerProperties.NewOrderFields | backend/server.js:204-222 | the rate is the USDT rate for `USDT_TO_UAH` and the TON rate otherwise; `amountUAH = amount × rate`; the order is pending, carries the payment address, and expires 1800000 ms after creation |
| LedgerProperties.CreateOrderAccepted | backend/server.js:202-233 | exactly that order is appended and nothing else changes; the reply carries its id, address, amount and UAH amount |
| ExchangeServer.Exchange.GetOrder | backend/server.js:237-253 | new orders and reply are those of `LedgerSpec.GetOrder` on the old state |
| LedgerProperties.GetOrderUnknown | backend/server.js:238-242 | an unknown id gives 404 and changes nothing |
| LedgerProperties.GetOrderFound | backend/server.js:244-252 | the order becomes expired exactly when it is pending and `now` is past its expiry, otherwise it keeps its status; nothing else changes; the reply holds the resulting status |
| LedgerProperties.GetOrderIdempotent | backend/server.js:244-246 | reading at `t1` and then at `t2 >= t1` is the same as reading only at `t2`; at the same time the second read changes nothing |
| LedgerProperties.GetOrderLaterReadExpires | backend/server.js:244-246 | a later read can expire an order an earlier read left pending |
| ExchangeServer.Exchange.AdminOrders | backend/server.js:256-258 | replies as `LedgerSpec.AdminOrders` and changes nothing |
| LedgerProperties.AdminOrdersAfterCreate | backend/server.js:256-258 | after an accepted order creation the listing is the old listing plus, at its end, exactly the new order: pending, with the given id |
| ExchangeServer.Exchange.AdminTransactions | backend/server.js:287-289 | replies as `LedgerSpec.AdminTransactions` and changes nothing |
| LedgerProperties.HistoryWithinAdminTransactions | backend/server.js:287-289 | every entry of a user's history appears in the admin transaction listing, at least as often as in the history |
| ExchangeServer.Exchange.AdminConfirmOrder | backend/server.js:261-271 | new orders and reply are those of `LedgerSpec.AdminConfirmOrder` on the old state |
| ExchangeServer.Exchange.AdminMarkReceived | backend/server.js:274-284 | new orders and reply are those of `LedgerSpec.AdminMarkReceived` on the old state |
| LedgerProperties.AdminSetStatusUnknown | backend/server.js:262-270 | an unknown order id gives 404 for both transitions and changes nothing |
| LedgerProperties.AdminSetStatusFound | backend/server.js:262-280 | each transition sets the found order's status whatever it was and changes no user, transaction or other order |
| LedgerProperties.AdminConfirmOrderIdempotent | backend/server.js:261-271 | confirming twice gives the same state and reply as confirming once |
| LedgerProperties.AdminReceivedAfterConfirmed | backend/server.js:261-284 | a confirmed order can then be marked received |
| ExchangeServer.Exchange.AdminConfirmDeposit | backend/server.js:292-309 | new fields and reply are those of `LedgerSpec.AdminConfirmDeposit` on the old state |
| LedgerProperties.AdminConfirmDepositRejected | backend/server.js:293-308 | an absent id, or a first match that is not a deposit, gives 404 and changes nothing |
| LedgerProperties.AdminConfirmDepositAccepted | backend/server.js:295-305 | the deposit is marked confirmed whatever its status; its owner, if found, alone is credited its amount; orders and rates are unchanged |
| LedgerProperties.AdminConfirmDepositTwice | backend/server.js:292-309 | confirming the same deposit twice credits its owner twice its amount |
| LedgerProperties.AdminConfirmDepositTotal | backend/server.js:299-302 | the users' total USDT rises by exactly the deposit's amount when the first transaction with the id is a deposit whose owner is found, and is unchanged otherwise |
| LedgerProperties.LoginFrozen | backend/server.js:48-58 | login keeps the frame of `Frozen`: stored users, transactions and orders stay, appended users have zero UAH balance and counters, and no field outside `balanceUSDT`, a transaction's status and hash and an order's status is rewritten; the exact effect is `LoginCreates` |
| LedgerProperties.RequestDepositFrozen | backend/server.js:109-120 | a deposit request keeps the frame of `Frozen` (as for `LoginFrozen`); the exact effect is `RequestDepositAccepted` |
| LedgerProperties.ConfirmDepositFrozen | backend/server.js:142-149 | deposit confirmation keeps the frame of `Frozen`; the exact effect is `ConfirmDepositCredits` |
| LedgerProperties.RequestWithdrawFrozen | backend/server.js:170-185 | a withdrawal keeps the frame of `Frozen`; the exact effect is `WithdrawAccepted` |
| LedgerProperties.CreateOrderFrozen | backend/server.js:211-224 | order creation keeps the frame of `Frozen`; the exact effect is `CreateOrderAccepted` |
| LedgerProperties.GetOrderFrozen | backend/server.js:244-246 | the order read keeps the frame of `Frozen`; the exact effect is `GetOrderFound` |
| LedgerProperties.SetStatusByIdFrozen | backend/server.js:262-278 | the admin order transitions keep the frame of `Frozen`; the exact effect is `AdminSetStatusFound` |
| LedgerProperties.AdminConfirmDepositFrozen | backend/server.js:295-302 | the admin deposit confirmation keeps the frame of `Frozen`; the exact effect is `AdminConfirmDepositAccepted` |
| LedgerProperties.StepFrozen | backend/server.js:27-309 | no handler removes a stored user, transaction or order, or rewrites any field of one other than `balanceUSDT`, a transaction's status and hash, and an order's status |
| LedgerProperties.RunFrozen | backend/server.js:27-309 | the same holds over any sequence of requests |
| LedgerProperties.RunFromInitialKeepsCountersZero | backend/server.js:49-57 | from start-up, every user's `balanceUAH`, `totalExchanges` and `totalExchangedUAH` stay 0 whatever the requests |
| LedgerProperties.RunKeepsOrderPrice | backend/server.js:208-216 | a stored order's `rate` and `amountUAH` survive every later request, rate updates included |
| LedgerProperties.OwnedAfterFrozen | backend/server.js:27-309 | within the frame of `Frozen`, every stored transaction keeps an owner among the users as long as each appended one has one |
| LedgerProperties.RequestDepositAppendsOwned | backend/server.js:102-120 | a deposit request appends a transaction only for a user it found by id |
| LedgerProperties.RequestWithdrawAppendsOwned | backend/server.js:160-185 | a withdrawal appends a transaction only for a user it found by id |
| LedgerProperties.StepAppendsOwned | backend/server.js:27-309 | no request appends a transaction whose user id no stored user has |
| LedgerProperties.StepOwned | backend/server.js:27-309 | if every transaction has an owner among the users, it still does after any request |
| LedgerProperties.RunOwned | backend/server.js:27-309 | the same holds over any sequence of requests |
| LedgerProperties.RunFromInitialUnknownUserHistoryEmpty | backend/server.js:71-90 | from start-up, whenever the user read gives 404 for an id, the history read for it is an empty list |

## Left out

- Express plumbing: app set-up, body parsing, request logging, static files, the HTML root page and `app.listen` are framework and I/O code.
- Log output of every handler is not modelled; it changes no data.
- The clock and id generation are parameters; nothing makes generated ids unique, as in the code, and `createdAt` and `expiresAt` use one `now` where the code calls the clock twice.
- Dates are milliseconds as integers, not `Date` objects.
- Amounts and rates are exact reals; IEEE-754 rounding of `amount × rate` and of balance updates is not modelled.
- Request fields of other JSON types (a string amount, `null` versus an absent field) are not modelled: tested fields are an `Option` of a number or a string, and the withdrawal and confirmation amounts are numbers, so the `NaN` balance a missing amount produces there is not modelled.
- `backend/database.js` is not part of this model: it declares Mongoose schemas that the server never loads.
- `frontend/script.js` is not part of this model: it is DOM code, polling and client-side formatting.
- Concurrent requests are not modelled; requests are served one at a time, as by Node's single event loop.
