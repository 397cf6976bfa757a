/** What the exchange server's handlers guarantee, stated and proved over
    the functions of LedgerSpec. */
module LedgerProperties {
  import opened LedgerTypes
  import opened Search
  import opened LedgerSpec

  // ---------------------------------------------------------------------
  // Totals and searches after one record is updated

  /** The USDT held by all users together. */
  function TotalUSDT(users: seq<User>): real {
    if |users| == 0 then 0.0 else users[0].balanceUSDT + TotalUSDT(users[1..])
  }

  lemma {:induction false} TotalAfterSetBalance(users: seq<User>, k: nat, balance: real)
    requires k < |users|
    ensures TotalUSDT(SetBalance(users, k, balance)) == TotalUSDT(users) - users[k].balanceUSDT + balance
  {
    if k == 0 {
      assert SetBalance(users, 0, balance)[1..] == users[1..];
    } else {
      assert SetBalance(users, k, balance)[1..] == SetBalance(users[1..], k - 1, balance);
      TotalAfterSetBalance(users[1..], k - 1, balance);
    }
  }

  lemma {:induction false} TotalAfterAppend(users: seq<User>, u: User)
    ensures TotalUSDT(users + [u]) == TotalUSDT(users) + u.balanceUSDT
  {
    if |users| == 0 {
      assert (users + [u])[1..] == [];
    } else {
      assert (users + [u])[1..] == users[1..] + [u];
      TotalAfterAppend(users[1..], u);
    }
  }

  /** Changing a balance does not change which user a lookup by id finds. */
  lemma FindUserAfterSetBalance(users: seq<User>, k: nat, balance: real, id: string)
    requires k < |users|
    ensures FindFirst(SetBalance(users, k, balance), WithUserId(id)) == FindFirst(users, WithUserId(id))
  {
    FindFirstAgrees(SetBalance(users, k, balance), users, WithUserId(id));
  }

  /** Changing a status does not change which order a lookup by id finds. */
  lemma FindOrderAfterSetStatus(orders: seq<Order>, k: nat, status: OrderStatus, id: string)
    requires k < |orders|
    ensures FindFirst(SetOrderStatus(orders, k, status), WithOrderId(id)) == FindFirst(orders, WithOrderId(id))
  {
    FindFirstAgrees(SetOrderStatus(orders, k, status), orders, WithOrderId(id));
  }

  // ---------------------------------------------------------------------
  // POST /api/rates

  /** Only the rate fields given truthy values are overwritten; nothing else changes. */
  lemma UpdateRatesEffect(s: State, usdt: Option<real>, ton: Option<real>)
    ensures var o := UpdateRates(s, usdt, ton);
      && o.next.rates.usdt == (if usdt.Some? && usdt.value != 0.0 then usdt.value else s.rates.usdt)
      && o.next.rates.ton == (if ton.Some? && ton.value != 0.0 then ton.value else s.rates.ton)
      && o.next.users == s.users && o.next.transactions == s.transactions && o.next.orders == s.orders
      && o.response == Ok(RatesView(o.next.rates))
  {
  }

  // ---------------------------------------------------------------------
  // POST /api/login

  lemma LoginExisting(s: State, phone: Option<string>, id: string, now: int, k: nat)
    requires FindFirst(s.users, WithPhone(phone)) == Some(k)
    ensures Login(s, phone, id, now)
         == Outcome(s, Ok(UserView(s.users[k].id, phone, s.users[k].balanceUSDT, s.users[k].balanceUAH)))
  {
  }

  lemma LoginCreates(s: State, phone: Option<string>, id: string, now: int)
    requires FindFirst(s.users, WithPhone(phone)).None?
    ensures var o := Login(s, phone, id, now);
      && |o.next.users| == |s.users| + 1
      && o.next.users[..|s.users|] == s.users
      && o.next.users[|s.users|] == User(id, phone, 0.0, 0.0, 0, 0.0, now)
      && o.next.transactions == s.transactions && o.next.orders == s.orders && o.next.rates == s.rates
      && o.response == Ok(UserView(id, phone, 0.0, 0.0))
  {
    assert (s.users + [User(id, phone, 0.0, 0.0, 0, 0.0, now)])[..|s.users|] == s.users;
  }

  /** A second login with the same phone finds the user the first one returned
      (created or not) and changes nothing. */
  lemma LoginTwice(s: State, phone: Option<string>, id: string, now: int, id': string, now': int)
    ensures var first := Login(s, phone, id, now);
            Login(first.next, phone, id', now') == first
  {
    var first := Login(s, phone, id, now);
    if FindFirst(s.users, WithPhone(phone)).None? {
      var u := User(id, phone, 0.0, 0.0, 0, 0.0, now);
      assert first.next.users == s.users + [u];
      assert first.next.users[|s.users|] == u;
      assert FindFirst(first.next.users, WithPhone(phone)) == Some(|s.users|);
    }
  }

  /** A login leaves the users' total USDT unchanged: a new user starts at 0. */
  lemma LoginTotal(s: State, phone: Option<string>, id: string, now: int)
    ensures TotalUSDT(Login(s, phone, id, now).next.users) == TotalUSDT(s.users)
  {
    if FindFirst(s.users, WithPhone(phone)).None? {
      TotalAfterAppend(s.users, User(id, phone, 0.0, 0.0, 0, 0.0, now));
    }
  }

  // ---------------------------------------------------------------------
  // GET /api/user/:userId and /history

  lemma GetUserCases(s: State, userId: string)
    ensures GetUser(s, userId) == NotFound(UserEntity) <==> forall i :: 0 <= i < |s.users| ==> s.users[i].id != userId
    ensures forall k :: FindFirst(s.users, WithUserId(userId)) == Some(k) ==>
      GetUser(s, userId) == Ok(BalancesView(s.users[k].balanceUSDT, s.users[k].balanceUAH,
                                            s.users[k].totalExchanges, s.users[k].totalExchangedUAH))
  {
  }

  /** The history lists exactly the user's transactions, each as often as it
      occurs in the ledger, and in ledger order: the history of a ledger split
      in two is the history of the first part followed by that of the second. */
  lemma HistoryExact(s: State, userId: string)
    ensures History(s, userId).Ok?
    ensures var txs := History(s, userId).body.txs;
      && (forall i :: 0 <= i < |txs| ==> txs[i] in s.transactions && txs[i].userId == userId)
      && (forall j :: 0 <= j < |s.transactions| && s.transactions[j].userId == userId ==> s.transactions[j] in txs)
      && (forall t: Transaction :: multiset(txs)[t] == if t.userId == userId then multiset(s.transactions)[t] else 0)
      && (forall i :: 0 <= i <= |s.transactions| ==>
            txs == History(s.(transactions := s.transactions[..i]), userId).body.txs
                 + History(s.(transactions := s.transactions[i..]), userId).body.txs)
  {
    forall t: Transaction
      ensures multiset(Filter(s.transactions, OfUser(userId)))[t]
           == if t.userId == userId then multiset(s.transactions)[t] else 0
    {
      FilterMultiset(s.transactions, OfUser(userId), t);
    }
    forall i | 0 <= i <= |s.transactions|
      ensures Filter(s.transactions, OfUser(userId))
           == Filter(s.transactions[..i], OfUser(userId)) + Filter(s.transactions[i..], OfUser(userId))
    {
      assert s.transactions == s.transactions[..i] + s.transactions[i..];
      FilterAppend(s.transactions[..i], s.transactions[i..], OfUser(userId));
    }
  }

  // ---------------------------------------------------------------------
  // POST /api/deposit/request

  lemma RequestDepositMissingField(s: State, userId: Option<string>, amount: Option<real>, id: string, now: int)
    requires userId == None || userId == Some("") || amount == None || amount == Some(0.0)
    ensures RequestDeposit(s, userId, amount, id, now) == Outcome(s, BadRequest(MissingFields))
  {
  }

  lemma RequestDepositUnknownUser(s: State, userId: string, amount: real, id: string, now: int)
    requires userId != "" && amount != 0.0
    requires FindFirst(s.users, WithUserId(userId)).None?
    ensures RequestDeposit(s, Some(userId), Some(amount), id, now) == Outcome(s, NotFound(UserEntity))
  {
  }

  /** An accepted request appends one pending deposit with no hash and credits nobody. */
  lemma RequestDepositAccepted(s: State, userId: string, amount: real, id: string, now: int)
    requires userId != "" && amount != 0.0
    requires FindFirst(s.users, WithUserId(userId)).Some?
    ensures var o := RequestDeposit(s, Some(userId), Some(amount), id, now);
      var tx := o.next.transactions[|s.transactions|];
      && |o.next.transactions| == |s.transactions| + 1
      && o.next.transactions[..|s.transactions|] == s.transactions
      && tx.id == id && tx.userId == userId && tx.kind == Deposit && tx.amount == amount
      && tx.currency == Usdt && tx.status == TxPending && tx.txHash == None && tx.date == now
      && o.next.users == s.users && o.next.orders == s.orders && o.next.rates == s.rates
      && o.response == Ok(DepositCreated(tx))
  {
    assert (s.transactions + [DepositRecord(id, userId, amount, now)])[..|s.transactions|] == s.transactions;
  }

  // ---------------------------------------------------------------------
  // POST /api/deposit/confirm

  lemma ConfirmDepositUnknownUser(s: State, userId: string, amount: real, txHash: Option<string>)
    requires FindFirst(s.users, WithUserId(userId)).None?
    ensures ConfirmDeposit(s, userId, amount, txHash) == Outcome(s, NotFound(UserEntity))
  {
  }

  /** A known user is credited `amount` whether or not a pending
      transaction matches; only the first match (of any kind) is confirmed. */
  lemma ConfirmDepositCredits(s: State, userId: string, amount: real, txHash: Option<string>, k: nat)
    requires FindFirst(s.users, WithUserId(userId)) == Some(k)
    ensures var o := ConfirmDeposit(s, userId, amount, txHash);
      && |o.next.users| == |s.users|
      && o.next.users[k] == s.users[k].(balanceUSDT := s.users[k].balanceUSDT + amount)
      && (forall i :: 0 <= i < |s.users| && i != k ==> o.next.users[i] == s.users[i])
      && o.response == Ok(DepositCredited(s.users[k].balanceUSDT + amount))
      && o.next.orders == s.orders && o.next.rates == s.rates
      && |o.next.transactions| == |s.transactions|
      && (FindFirst(s.transactions, PendingMatch(userId, amount)).None? ==> o.next.transactions == s.transactions)
      && (forall j :: FindFirst(s.transactions, PendingMatch(userId, amount)) == Some(j) ==>
            && o.next.transactions[j] == s.transactions[j].(status := TxConfirmed, txHash := txHash)
            && s.transactions[j].userId == userId && s.transactions[j].amount == amount
            && s.transactions[j].status == TxPending
            && (forall i :: 0 <= i < |s.transactions| && i != j ==> o.next.transactions[i] == s.transactions[i]))
  {
  }

  /** Confirmation moves the users' total USDT by exactly `amount`. */
  lemma ConfirmDepositTotal(s: State, userId: string, amount: real, txHash: Option<string>)
    ensures var o := ConfirmDeposit(s, userId, amount, txHash);
      TotalUSDT(o.next.users) == TotalUSDT(s.users) + (if o.response.Ok? then amount else 0.0)
  {
    match FindFirst(s.users, WithUserId(userId))
    case None =>
    case Some(k) => TotalAfterSetBalance(s.users, k, s.users[k].balanceUSDT + amount);
  }

  /** The same confirmation sent twice credits twice, even when no pending
      transaction is left for the second one. */
  lemma ConfirmDepositTwice(s: State, userId: string, amount: real, txHash: Option<string>, k: nat)
    requires FindFirst(s.users, WithUserId(userId)) == Some(k)
    ensures var o1 := ConfirmDeposit(s, userId, amount, txHash);
      var o2 := ConfirmDeposit(o1.next, userId, amount, txHash);
      && o2.response == Ok(DepositCredited(s.users[k].balanceUSDT + 2.0 * amount))
      && o2.next.users[k].balanceUSDT == s.users[k].balanceUSDT + 2.0 * amount
  {
    var balance := s.users[k].balanceUSDT + amount;
    var o1 := ConfirmDeposit(s, userId, amount, txHash);
    assert o1.next.users == SetBalance(s.users, k, balance);
    FindUserAfterSetBalance(s.users, k, balance, userId);
    assert FindFirst(o1.next.users, WithUserId(userId)) == Some(k);
    assert o1.next.users[k].balanceUSDT == balance;
  }

  /** A pending withdrawal of the same amount can be what confirmation marks. */
  lemma ConfirmDepositCanMarkWithdrawal()
    ensures var u := User("user_1", Some("0991234567"), 40.0, 0.0, 0, 0.0, 0);
      var w := WithdrawRecord("tx_2", "user_1", 40.0, 46.0, Some("4111111111111111"), 2);
      var s := State([u], [w], [], DefaultRates);
      var o := ConfirmDeposit(s, "user_1", 40.0, Some("0xabc"));
      && o.next.transactions[0].kind == Withdraw
      && o.next.transactions[0].status == TxConfirmed
      && o.next.users[0].balanceUSDT == 80.0
  {
    var u := User("user_1", Some("0991234567"), 40.0, 0.0, 0, 0.0, 0);
    var w := WithdrawRecord("tx_2", "user_1", 40.0, 46.0, Some("4111111111111111"), 2);
    assert WithUserId("user_1")([u][0]);
    assert PendingMatch("user_1", 40.0)([w][0]);
  }

  // ---------------------------------------------------------------------
  // POST /api/withdraw

  lemma WithdrawUnknownUser(s: State, userId: string, amount: real, card: Option<string>, id: string, now: int)
    requires FindFirst(s.users, WithUserId(userId)).None?
    ensures RequestWithdraw(s, userId, amount, card, id, now) == Outcome(s, NotFound(UserEntity))
  {
  }

  lemma WithdrawInsufficient(s: State, userId: string, amount: real, card: Option<string>, id: string, now: int, k: nat)
    requires FindFirst(s.users, WithUserId(userId)) == Some(k)
    requires s.users[k].balanceUSDT < amount
    ensures RequestWithdraw(s, userId, amount, card, id, now) == Outcome(s, BadRequest(InsufficientFunds))
  {
  }

  /** The fields of a withdrawal record: pending, with `uahAmount = amount × rate`. */
  lemma WithdrawRecordFields(id: string, userId: string, amount: real, usdtRate: real, card: Option<string>, now: int)
    ensures var tx := WithdrawRecord(id, userId, amount, usdtRate, card, now);
      && tx.id == id && tx.userId == userId && tx.kind == Withdraw && tx.amount == amount && tx.currency == Usdt
      && tx.uahAmount == Some(amount * usdtRate) && tx.card == card && tx.status == TxPending
      && tx.date == now && tx.txHash == None
  {
  }

  /** An accepted withdrawal debits exactly `amount` from that user alone and
      appends one withdrawal record priced at the current USDT rate. */
  lemma WithdrawAccepted(s: State, userId: string, amount: real, card: Option<string>, id: string, now: int, k: nat)
    requires FindFirst(s.users, WithUserId(userId)) == Some(k)
    requires amount <= s.users[k].balanceUSDT
    ensures var o := RequestWithdraw(s, userId, amount, card, id, now);
      var tx := WithdrawRecord(id, userId, amount, s.rates.usdt, card, now);
      && o.next.users == s.users[k := s.users[k].(balanceUSDT := s.users[k].balanceUSDT - amount)]
      && |o.next.users| == |s.users|
      && o.next.users[k] == s.users[k].(balanceUSDT := s.users[k].balanceUSDT - amount)
      && (forall i :: 0 <= i < |s.users| && i != k ==> o.next.users[i] == s.users[i])
      && o.next.transactions == s.transactions + [tx]
      && o.next.orders == s.orders && o.next.rates == s.rates
      && o.response == Ok(WithdrawCreated(tx))
  {
  }

  /** A withdrawal never leaves the withdrawing user below zero, whatever the
      sign of `amount`, so non-negative balances stay non-negative. */
  lemma WithdrawKeepsBalancesNonNegative(s: State, userId: string, amount: real, card: Option<string>, id: string, now: int)
    requires forall i :: 0 <= i < |s.users| ==> s.users[i].balanceUSDT >= 0.0
    ensures var o := RequestWithdraw(s, userId, amount, card, id, now);
      forall i :: 0 <= i < |o.next.users| ==> o.next.users[i].balanceUSDT >= 0.0
  {
  }

  /** No positivity check: a negative amount no greater than the balance (so
      any negative amount when the balance is non-negative) passes the funds
      check and raises the balance. */
  lemma WithdrawNegativeAmountCredits(s: State, userId: string, amount: real, card: Option<string>, id: string, now: int, k: nat)
    requires FindFirst(s.users, WithUserId(userId)) == Some(k)
    requires amount < 0.0 && amount <= s.users[k].balanceUSDT
    ensures var o := RequestWithdraw(s, userId, amount, card, id, now);
      o.response.Ok? && o.next.users[k].balanceUSDT > s.users[k].balanceUSDT
  {
  }

  /** A withdrawal moves the users' total USDT down by exactly `amount`, or not at all. */
  lemma WithdrawTotal(s: State, userId: string, amount: real, card: Option<string>, id: string, now: int)
    ensures var o := RequestWithdraw(s, userId, amount, card, id, now);
      TotalUSDT(o.next.users) == TotalUSDT(s.users) - (if o.response.Ok? then amount else 0.0)
  {
    match FindFirst(s.users, WithUserId(userId))
    case None =>
    case Some(k) =>
      if amount <= s.users[k].balanceUSDT {
        TotalAfterSetBalance(s.users, k, s.users[k].balanceUSDT - amount);
      }
  }

  // ---------------------------------------------------------------------
  // POST /api/create-order

  lemma CreateOrderMissingField(s: State, direction: Option<string>, amount: Option<real>, cardNumber: Option<string>, id: string, now: int)
    requires direction == None || direction == Some("") || amount == None || amount == Some(0.0)
          || cardNumber == None || cardNumber == Some("")
    ensures CreateOrder(s, direction, amount, cardNumber, id, now) == Outcome(s, BadRequest(MissingFields))
  {
  }

  /** The fields of a new order: the rate chosen by direction, `amountUAH =
      amount × rate`, pending, expiring 30 minutes (1800000 ms) after creation. */
  lemma NewOrderFields(rates: Rates, direction: string, amount: real, cardNumber: string, id: string, now: int)
    ensures var o := NewOrder(rates, direction, amount, cardNumber, id, now);
      && o.rate == (if direction == "USDT_TO_UAH" then rates.usdt else rates.ton)
      && o.amountUAH == amount * o.rate
      && o.orderId == id && o.direction == direction && o.amount == amount && o.cardNumber == cardNumber
      && o.paymentAddress == PaymentAddress && o.status == Pending
      && o.createdAt == now && o.expiresAt == now + 1800000
  {
  }

  /** An accepted request appends exactly one new order and changes nothing else. */
  lemma CreateOrderAccepted(s: State, direction: string, amount: real, cardNumber: string, id: string, now: int)
    requires direction != "" && amount != 0.0 && cardNumber != ""
    ensures var o := CreateOrder(s, Some(direction), Some(amount), Some(cardNumber), id, now);
      var order := NewOrder(s.rates, direction, amount, cardNumber, id, now);
      && o.next.orders == s.orders + [order]
      && o.next.users == s.users && o.next.transactions == s.transactions && o.next.rates == s.rates
      && o.response == Ok(OrderCreated(id, PaymentAddress, amount, order.amountUAH))
  {
  }

  // ---------------------------------------------------------------------
  // GET /api/order/:orderId

  lemma GetOrderUnknown(s: State, orderId: string, now: int)
    requires FindFirst(s.orders, WithOrderId(orderId)).None?
    ensures GetOrder(s, orderId, now) == Outcome(s, NotFound(OrderEntity))
  {
  }

  /** A read expires the order exactly when it is pending and past its expiry;
      every other order and record is left alone. */
  lemma GetOrderFound(s: State, orderId: string, now: int, k: nat)
    requires FindFirst(s.orders, WithOrderId(orderId)) == Some(k)
    ensures var o := GetOrder(s, orderId, now);
      var status := if s.orders[k].status == Pending && now > s.orders[k].expiresAt then Expired else s.orders[k].status;
      && o.next.orders == s.orders[k := s.orders[k].(status := status)]
      && o.next.users == s.users && o.next.transactions == s.transactions && o.next.rates == s.rates
      && o.response == Ok(OrderView(status, s.orders[k].amount, s.orders[k].amountUAH))
  {
    assert s.orders[k := s.orders[k]] == s.orders;
  }

  /** Reading at `t1` and then at `t2 >= t1` is the same as reading only at `t2`;
      with `t1 == t2` the second read changes nothing. */
  lemma GetOrderIdempotent(s: State, orderId: string, t1: int, t2: int)
    requires t1 <= t2
    ensures GetOrder(GetOrder(s, orderId, t1).next, orderId, t2) == GetOrder(s, orderId, t2)
  {
    match FindFirst(s.orders, WithOrderId(orderId))
    case None =>
    case Some(k) =>
      FindOrderAfterSetStatus(s.orders, k, Expired, orderId);
      assert SetOrderStatus(SetOrderStatus(s.orders, k, Expired), k, Expired) == SetOrderStatus(s.orders, k, Expired);
  }

  /** A later read is not a no-op: an order read before its expiry and again
      after it comes back expired the second time. */
  lemma GetOrderLaterReadExpires()
    ensures var o := Order("SWAP-1", UsdtToUah, 10.0, 460.0, 46.0, "4111111111111111", PaymentAddress,
                           Pending, 0, OrderTtlMs);
      var s := State([], [], [o], DefaultRates);
      var first := GetOrder(s, "SWAP-1", OrderTtlMs);
      var second := GetOrder(first.next, "SWAP-1", OrderTtlMs + 1);
      && first.response == Ok(OrderView(Pending, 10.0, 460.0))
      && second.response == Ok(OrderView(Expired, 10.0, 460.0))
      && second.next != first.next
  {
    var o := Order("SWAP-1", UsdtToUah, 10.0, 460.0, 46.0, "4111111111111111", PaymentAddress,
                   Pending, 0, OrderTtlMs);
    assert WithOrderId("SWAP-1")([o][0]);
    var s := State([], [], [o], DefaultRates);
    var first := GetOrder(s, "SWAP-1", OrderTtlMs);
    assert first.next == s;
    assert GetOrder(s, "SWAP-1", OrderTtlMs + 1).next.orders[0].status == Expired;
  }

  // ---------------------------------------------------------------------
  // GET /api/admin/orders and /api/admin/transactions

  /** The admin listing holds every user's history: each entry of a history
      appears in the listing at least as often as in the history. */
  lemma HistoryWithinAdminTransactions(s: State, userId: string)
    ensures AdminTransactions(s).Ok? && History(s, userId).Ok?
    ensures var all := AdminTransactions(s).body.txs;
      var mine := History(s, userId).body.txs;
      |mine| <= |all| && (forall i :: 0 <= i < |mine| ==> mine[i] in all) && multiset(mine) <= multiset(all)
  {
    forall t: Transaction
      ensures multiset(Filter(s.transactions, OfUser(userId)))[t] <= multiset(s.transactions)[t]
    {
      FilterMultiset(s.transactions, OfUser(userId), t);
    }
  }

  /** An accepted deposit request adds its record at the end of that user's
      history and leaves every other user's history as it was. */
  lemma HistoryAfterRequestDeposit(s: State, userId: string, amount: real, id: string, now: int, other: string)
    requires userId != "" && amount != 0.0
    requires FindFirst(s.users, WithUserId(userId)).Some?
    ensures var next := RequestDeposit(s, Some(userId), Some(amount), id, now).next;
      && History(next, userId).body.txs == History(s, userId).body.txs + [DepositRecord(id, userId, amount, now)]
      && (other != userId ==> History(next, other).body.txs == History(s, other).body.txs)
  {
    var tx := DepositRecord(id, userId, amount, now);
    FilterAppend(s.transactions, [tx], OfUser(userId));
    FilterAppend(s.transactions, [tx], OfUser(other));
    FilterSingleton(tx, OfUser(userId));
    FilterSingleton(tx, OfUser(other));
  }

  /** After an accepted create-order request the admin listing is the old
      listing with the new order at its end. */
  lemma AdminOrdersAfterCreate(s: State, direction: string, amount: real, cardNumber: string, id: string, now: int)
    requires direction != "" && amount != 0.0 && cardNumber != ""
    ensures var o := CreateOrder(s, Some(direction), Some(amount), Some(cardNumber), id, now);
      var listed := AdminOrders(o.next).body.orders;
      && AdminOrders(o.next).Ok?
      && |listed| == |s.orders| + 1
      && listed[..|s.orders|] == AdminOrders(s).body.orders
      && listed[|s.orders|] == NewOrder(s.rates, direction, amount, cardNumber, id, now)
      && listed[|s.orders|].orderId == id && listed[|s.orders|].status == Pending
  {
    CreateOrderAccepted(s, direction, amount, cardNumber, id, now);
    var order := NewOrder(s.rates, direction, amount, cardNumber, id, now);
    assert (s.orders + [order])[..|s.orders|] == s.orders;
  }

  // ---------------------------------------------------------------------
  // POST /api/admin/order/:orderId/confirm and /received

  lemma AdminSetStatusUnknown(s: State, orderId: string)
    requires FindFirst(s.orders, WithOrderId(orderId)).None?
    ensures AdminConfirmOrder(s, orderId) == Outcome(s, NotFound(OrderEntity))
    ensures AdminMarkReceived(s, orderId) == Outcome(s, NotFound(OrderEntity))
  {
  }

  /** Both transitions overwrite the status whatever it was and touch nothing else. */
  lemma AdminSetStatusFound(s: State, orderId: string, k: nat)
    requires FindFirst(s.orders, WithOrderId(orderId)) == Some(k)
    ensures AdminConfirmOrder(s, orderId)
         == Outcome(s.(orders := s.orders[k := s.orders[k].(status := Confirmed)]), Ok(Done))
    ensures AdminMarkReceived(s, orderId)
         == Outcome(s.(orders := s.orders[k := s.orders[k].(status := Received)]), Ok(Done))
  {
  }

  /** Confirming twice is the same as confirming once. */
  lemma AdminConfirmOrderIdempotent(s: State, orderId: string)
    ensures AdminConfirmOrder(AdminConfirmOrder(s, orderId).next, orderId) == AdminConfirmOrder(s, orderId)
  {
    match FindFirst(s.orders, WithOrderId(orderId))
    case None =>
    case Some(k) =>
      FindOrderAfterSetStatus(s.orders, k, Confirmed, orderId);
      assert SetOrderStatus(SetOrderStatus(s.orders, k, Confirmed), k, Confirmed) == SetOrderStatus(s.orders, k, Confirmed);
  }

  /** A confirmed order can still be marked received: no transition is terminal. */
  lemma AdminReceivedAfterConfirmed(s: State, orderId: string, k: nat)
    requires FindFirst(s.orders, WithOrderId(orderId)) == Some(k)
    ensures var o := AdminMarkReceived(AdminConfirmOrder(s, orderId).next, orderId);
      o.response == Ok(Done) && o.next.orders[k].status == Received
  {
    FindOrderAfterSetStatus(s.orders, k, Confirmed, orderId);
  }

  // ---------------------------------------------------------------------
  // POST /api/admin/deposit/:transactionId/confirm

  lemma AdminConfirmDepositRejected(s: State, txId: string)
    requires match FindFirst(s.transactions, WithTxId(txId))
             case None => true
             case Some(j) => s.transactions[j].kind != Deposit
    ensures AdminConfirmDeposit(s, txId) == Outcome(s, NotFound(TransactionEntity))
  {
  }

  /** The first transaction with the id, a deposit, is confirmed (whatever its
      status was) and its owner, if any, is credited its amount. */
  lemma AdminConfirmDepositAccepted(s: State, txId: string, j: nat)
    requires FindFirst(s.transactions, WithTxId(txId)) == Some(j)
    requires s.transactions[j].kind == Deposit
    ensures var o := AdminConfirmDeposit(s, txId);
      var t := s.transactions[j];
      && o.response == Ok(Done)
      && o.next.transactions == s.transactions[j := t.(status := TxConfirmed)]
      && o.next.orders == s.orders && o.next.rates == s.rates
      && (FindFirst(s.users, WithUserId(t.userId)).None? ==> o.next.users == s.users)
      && (forall k :: FindFirst(s.users, WithUserId(t.userId)) == Some(k) ==>
            o.next.users == s.users[k := s.users[k].(balanceUSDT := s.users[k].balanceUSDT + t.amount)])
  {
  }

  /** Confirming the same deposit twice credits its owner twice. */
  lemma AdminConfirmDepositTwice(s: State, txId: string, j: nat, k: nat)
    requires FindFirst(s.transactions, WithTxId(txId)) == Some(j)
    requires s.transactions[j].kind == Deposit
    requires FindFirst(s.users, WithUserId(s.transactions[j].userId)) == Some(k)
    ensures var o := AdminConfirmDeposit(AdminConfirmDeposit(s, txId).next, txId);
      o.response == Ok(Done)
      && o.next.users[k].balanceUSDT == s.users[k].balanceUSDT + 2.0 * s.transactions[j].amount
  {
    var t := s.transactions[j];
    var txs := s.transactions[j := t.(status := TxConfirmed)];
    FindFirstAgrees(txs, s.transactions, WithTxId(txId));
    FindUserAfterSetBalance(s.users, k, s.users[k].balanceUSDT + t.amount, t.userId);
  }

  /** The admin confirmation moves the users' total USDT by the deposit's
      amount when the first transaction with the id is a deposit whose owner
      exists, and not at all otherwise. */
  lemma AdminConfirmDepositTotal(s: State, txId: string)
    ensures var o := AdminConfirmDeposit(s, txId);
      TotalUSDT(o.next.users) == TotalUSDT(s.users) +
        match FindFirst(s.transactions, WithTxId(txId))
        case None => 0.0
        case Some(j) =>
          if s.transactions[j].kind == Deposit && FindFirst(s.users, WithUserId(s.transactions[j].userId)).Some?
          then s.transactions[j].amount else 0.0
  {
    match FindFirst(s.transactions, WithTxId(txId))
    case None =>
    case Some(j) =>
      var t := s.transactions[j];
      if t.kind == Deposit {
        match FindFirst(s.users, WithUserId(t.userId))
        case None =>
        case Some(k) => TotalAfterSetBalance(s.users, k, s.users[k].balanceUSDT + t.amount);
      }
  }

  // ---------------------------------------------------------------------
  // What no handler changes

  /** Users are only appended, with zero UAH balance and counters; afterwards
      only `balanceUSDT` of an existing user changes. */
  ghost predicate UsersFrozen(a: seq<User>, b: seq<User>) {
    && |a| <= |b|
    && (forall i :: 0 <= i < |a| ==> b[i] == a[i].(balanceUSDT := b[i].balanceUSDT))
    && (forall i :: |a| <= i < |b| ==>
          b[i].balanceUAH == 0.0 && b[i].totalExchanges == 0 && b[i].totalExchangedUAH == 0.0)
  }

  /** Transactions are only appended; afterwards only `status` and `txHash` change. */
  ghost predicate TransactionsFrozen(a: seq<Transaction>, b: seq<Transaction>) {
    && |a| <= |b|
    && forall i :: 0 <= i < |a| ==> b[i] == a[i].(status := b[i].status, txHash := b[i].txHash)
  }

  /** Orders are only appended; afterwards only `status` changes, so `rate`
      and `amountUAH` stay as they were at creation. */
  ghost predicate OrdersFrozen(a: seq<Order>, b: seq<Order>) {
    && |a| <= |b|
    && forall i :: 0 <= i < |a| ==> b[i] == a[i].(status := b[i].status)
  }

  ghost predicate Frozen(a: State, b: State) {
    UsersFrozen(a.users, b.users) && TransactionsFrozen(a.transactions, b.transactions) && OrdersFrozen(a.orders, b.orders)
  }

  lemma FrozenAfterSetBalance(users: seq<User>, k: nat, balance: real)
    requires k < |users|
    ensures UsersFrozen(users, SetBalance(users, k, balance))
  {
  }

  lemma FrozenAfterCreditOwner(users: seq<User>, userId: string, amount: real)
    ensures UsersFrozen(users, CreditOwner(users, userId, amount))
  {
  }

  lemma FrozenAfterConfirmFirstPending(txs: seq<Transaction>, userId: string, amount: real, txHash: Option<string>)
    ensures TransactionsFrozen(txs, ConfirmFirstPending(txs, userId, amount, txHash))
  {
  }

  lemma FrozenAfterSetOrderStatus(orders: seq<Order>, k: nat, status: OrderStatus)
    requires k < |orders|
    ensures OrdersFrozen(orders, SetOrderStatus(orders, k, status))
  {
  }

  lemma FrozenAfterAppend(s: State, u: seq<User>, t: seq<Transaction>, o: seq<Order>)
    requires forall i :: 0 <= i < |u| ==> u[i].balanceUAH == 0.0 && u[i].totalExchanges == 0 && u[i].totalExchangedUAH == 0.0
    ensures Frozen(s, s.(users := s.users + u, transactions := s.transactions + t, orders := s.orders + o))
  {
  }

  lemma LoginFrozen(s: State, phone: Option<string>, id: string, now: int)
    ensures Frozen(s, Login(s, phone, id, now).next)
  {
    if FindFirst(s.users, WithPhone(phone)).None? {
      var u := User(id, phone, 0.0, 0.0, 0, 0.0, now);
      FrozenAfterAppend(s, [u], [], []);
      assert Login(s, phone, id, now).next == s.(users := s.users + [u], transactions := s.transactions + [], orders := s.orders + []);
    }
  }

  lemma RequestDepositFrozen(s: State, userId: Option<string>, amount: Option<real>, id: string, now: int)
    ensures Frozen(s, RequestDeposit(s, userId, amount, id, now).next)
  {
    if TruthyString(userId) && TruthyNumber(amount) && FindFirst(s.users, WithUserId(userId.value)).Some? {
      var tx := DepositRecord(id, userId.value, amount.value, now);
      FrozenAfterAppend(s, [], [tx], []);
      assert RequestDeposit(s, userId, amount, id, now).next == s.(users := s.users + [], transactions := s.transactions + [tx], orders := s.orders + []);
    }
  }

  lemma ConfirmDepositFrozen(s: State, userId: string, amount: real, txHash: Option<string>)
    ensures Frozen(s, ConfirmDeposit(s, userId, amount, txHash).next)
  {
    var found := FindFirst(s.users, WithUserId(userId));
    if found.Some? {
      var k := found.value;
      FrozenAfterSetBalance(s.users, k, s.users[k].balanceUSDT + amount);
      FrozenAfterConfirmFirstPending(s.transactions, userId, amount, txHash);
    }
  }

  lemma RequestWithdrawFrozen(s: State, userId: string, amount: real, card: Option<string>, id: string, now: int)
    ensures Frozen(s, RequestWithdraw(s, userId, amount, card, id, now).next)
  {
    var found := FindFirst(s.users, WithUserId(userId));
    if found.Some? && amount <= s.users[found.value].balanceUSDT {
      WithdrawAccepted(s, userId, amount, card, id, now, found.value);
    }
  }

  lemma CreateOrderFrozen(s: State, direction: Option<string>, amount: Option<real>, cardNumber: Option<string>, id: string, now: int)
    ensures Frozen(s, CreateOrder(s, direction, amount, cardNumber, id, now).next)
  {
    if TruthyString(direction) && TruthyNumber(amount) && TruthyString(cardNumber) {
      var o := NewOrder(s.rates, direction.value, amount.value, cardNumber.value, id, now);
      FrozenAfterAppend(s, [], [], [o]);
      assert CreateOrder(s, direction, amount, cardNumber, id, now).next == s.(users := s.users + [], transactions := s.transactions + [], orders := s.orders + [o]);
    }
  }

  lemma GetOrderFrozen(s: State, orderId: string, now: int)
    ensures Frozen(s, GetOrder(s, orderId, now).next)
  {
    var found := FindFirst(s.orders, WithOrderId(orderId));
    if found.Some? {
      FrozenAfterSetOrderStatus(s.orders, found.value, Expired);
    }
  }

  lemma SetStatusByIdFrozen(s: State, orderId: string, status: OrderStatus)
    ensures Frozen(s, SetStatusById(s, orderId, status).next)
  {
    var found := FindFirst(s.orders, WithOrderId(orderId));
    if found.Some? {
      FrozenAfterSetOrderStatus(s.orders, found.value, status);
    }
  }

  lemma AdminConfirmDepositFrozen(s: State, txId: string)
    ensures Frozen(s, AdminConfirmDeposit(s, txId).next)
  {
    var found := FindFirst(s.transactions, WithTxId(txId));
    if found.Some? {
      var t := s.transactions[found.value];
      FrozenAfterCreditOwner(s.users, t.userId, t.amount);
    }
  }

  /** No request rewrites a stored field other than those named in `Frozen`. */
  lemma StepFrozen(s: State, req: Request)
    ensures Frozen(s, Step(s, req).next)
  {
    match req
    case GetRatesRequest =>
    case UpdateRatesRequest(usdt, ton) =>
    case LoginRequest(phone, id, now) => LoginFrozen(s, phone, id, now);
    case GetUserRequest(userId) =>
    case HistoryRequest(userId) =>
    case RequestDepositRequest(userId, amount, id, now) => RequestDepositFrozen(s, userId, amount, id, now);
    case ConfirmDepositRequest(userId, amount, txHash) => ConfirmDepositFrozen(s, userId, amount, txHash);
    case WithdrawRequest(userId, amount, card, id, now) => RequestWithdrawFrozen(s, userId, amount, card, id, now);
    case CreateOrderRequest(direction, amount, cardNumber, id, now) => CreateOrderFrozen(s, direction, amount, cardNumber, id, now);
    case GetOrderRequest(orderId, now) => GetOrderFrozen(s, orderId, now);
    case AdminOrdersRequest =>
    case AdminTransactionsRequest =>
    case AdminConfirmOrderRequest(orderId) => SetStatusByIdFrozen(s, orderId, Confirmed);
    case AdminMarkReceivedRequest(orderId) => SetStatusByIdFrozen(s, orderId, Received);
    case AdminConfirmDepositRequest(txId) => AdminConfirmDepositFrozen(s, txId);
  }

  lemma FrozenTransitive(a: State, b: State, c: State)
    requires Frozen(a, b) && Frozen(b, c)
    ensures Frozen(a, c)
  {
  }

  /** Over any sequence of requests, records are only appended and only the
      fields named above ever change. */
  lemma {:induction false} RunFrozen(s: State, reqs: seq<Request>)
    ensures Frozen(s, Run(s, reqs))
    decreases |reqs|
  {
    if |reqs| > 0 {
      var s' := Step(s, reqs[0]).next;
      StepFrozen(s, reqs[0]);
      RunFrozen(s', reqs[1..]);
      FrozenTransitive(s, s', Run(s', reqs[1..]));
    }
  }

  /** From start-up, no request ever gives a user a UAH balance or exchange counters. */
  lemma RunFromInitialKeepsCountersZero(reqs: seq<Request>)
    ensures var users := Run(Initial, reqs).users;
      forall i :: 0 <= i < |users| ==>
        users[i].balanceUAH == 0.0 && users[i].totalExchanges == 0 && users[i].totalExchangedUAH == 0.0
  {
    RunFrozen(Initial, reqs);
  }

  /** A stored order's rate and UAH amount survive every later request,
      rate updates included. */
  lemma RunKeepsOrderPrice(s: State, reqs: seq<Request>, i: nat)
    requires i < |s.orders|
    ensures i < |Run(s, reqs).orders|
    ensures Run(s, reqs).orders[i].rate == s.orders[i].rate
    ensures Run(s, reqs).orders[i].amountUAH == s.orders[i].amountUAH
  {
    RunFrozen(s, reqs);
    assert Run(s, reqs).orders[i] == s.orders[i].(status := Run(s, reqs).orders[i].status);
  }

  // ---------------------------------------------------------------------
  // Every transaction belongs to a user

  /** Some user has the transaction's user id. */
  ghost predicate HasOwner(users: seq<User>, t: Transaction) {
    exists k :: 0 <= k < |users| && users[k].id == t.userId
  }

  /** Every stored transaction has an owner among the stored users. */
  ghost predicate Owned(s: State) {
    forall i :: 0 <= i < |s.transactions| ==> HasOwner(s.users, s.transactions[i])
  }

  /** Within the frame of `Frozen` user ids and transaction user ids never
      change, so ownership survives as long as every appended transaction has
      an owner. */
  lemma OwnedAfterFrozen(a: State, b: State)
    requires Owned(a) && Frozen(a, b)
    requires forall i :: |a.transactions| <= i < |b.transactions| ==> HasOwner(a.users, b.transactions[i])
    ensures Owned(b)
  {
    forall i | 0 <= i < |b.transactions|
      ensures HasOwner(b.users, b.transactions[i])
    {
      var t := b.transactions[i];
      if i < |a.transactions| {
        assert t.userId == a.transactions[i].userId;
        assert HasOwner(a.users, a.transactions[i]);
      }
      assert HasOwner(a.users, t);
      var k :| 0 <= k < |a.users| && a.users[k].id == t.userId;
      assert b.users[k].id == a.users[k].id;
    }
  }

  /** Every transaction `b` holds beyond those of `a` has an owner in `a`. */
  ghost predicate AppendsOwned(a: State, b: State) {
    forall i :: |a.transactions| <= i < |b.transactions| ==> HasOwner(a.users, b.transactions[i])
  }

  lemma RequestDepositAppendsOwned(s: State, userId: Option<string>, amount: Option<real>, id: string, now: int)
    ensures AppendsOwned(s, RequestDeposit(s, userId, amount, id, now).next)
  {
    var next := RequestDeposit(s, userId, amount, id, now).next;
    if |next.transactions| > |s.transactions| {
      var k := FindFirst(s.users, WithUserId(userId.value)).value;
      assert next.transactions == s.transactions + [DepositRecord(id, userId.value, amount.value, now)];
      assert s.users[k].id == next.transactions[|s.transactions|].userId;
    }
  }

  lemma RequestWithdrawAppendsOwned(s: State, userId: string, amount: real, card: Option<string>, id: string, now: int)
    ensures AppendsOwned(s, RequestWithdraw(s, userId, amount, card, id, now).next)
  {
    var found := FindFirst(s.users, WithUserId(userId));
    if found.Some? && amount <= s.users[found.value].balanceUSDT {
      WithdrawAccepted(s, userId, amount, card, id, now, found.value);
      assert s.users[found.value].id == RequestWithdraw(s, userId, amount, card, id, now).next.transactions[|s.transactions|].userId;
    }
  }

  /** A request appends a transaction only for a user it has found by id. */
  lemma StepAppendsOwned(s: State, req: Request)
    ensures AppendsOwned(s, Step(s, req).next)
  {
    match req
    case RequestDepositRequest(userId, amount, id, now) => RequestDepositAppendsOwned(s, userId, amount, id, now);
    case WithdrawRequest(userId, amount, card, id, now) => RequestWithdrawAppendsOwned(s, userId, amount, card, id, now);
    case ConfirmDepositRequest(userId, amount, txHash) =>
      assert |ConfirmFirstPending(s.transactions, userId, amount, txHash)| == |s.transactions|;
    case _ =>
      assert |Step(s, req).next.transactions| == |s.transactions|;
  }

  lemma StepOwned(s: State, req: Request)
    requires Owned(s)
    ensures Owned(Step(s, req).next)
  {
    StepFrozen(s, req);
    StepAppendsOwned(s, req);
    OwnedAfterFrozen(s, Step(s, req).next);
  }

  lemma {:induction false} RunOwned(s: State, reqs: seq<Request>)
    requires Owned(s)
    ensures Owned(Run(s, reqs))
    decreases |reqs|
  {
    if |reqs| > 0 {
      StepOwned(s, reqs[0]);
      RunOwned(Step(s, reqs[0]).next, reqs[1..]);
    }
  }

  /** From start-up, a user id that the user read answers with 404 has an
      empty history: no transaction is ever stored for an unknown user. */
  lemma RunFromInitialUnknownUserHistoryEmpty(reqs: seq<Request>, userId: string)
    ensures var s := Run(Initial, reqs);
      GetUser(s, userId) == NotFound(UserEntity) ==> History(s, userId) == Ok(TxList([]))
  {
    var s := Run(Initial, reqs);
    RunOwned(Initial, reqs);
    if GetUser(s, userId) == NotFound(UserEntity) {
      GetUserCases(s, userId);
      forall i | 0 <= i < |s.transactions|
        ensures !OfUser(userId)(s.transactions[i])
      {
        assert HasOwner(s.users, s.transactions[i]);
      }
      FilterNone(s.transactions, OfUser(userId));
    }
  }
}
