/** The exchange server's in-memory data and its route handlers. Each handler
    updates the arrays in place, and its contract says that the new state and
    the reply are those of the handler's function in LedgerSpec. */
module ExchangeServer {
  import opened LedgerTypes
  import opened Search
  import LedgerSpec
  import LedgerProperties

  class Exchange {
    var users: seq<User>
    var transactions: seq<Transaction>
    var orders: seq<Order>
    var rates: Rates

    /** The data as one value. */
    function Snapshot(): LedgerSpec.State
      reads this
    {
      LedgerSpec.State(users, transactions, orders, rates)
    }

    constructor ()
      ensures Snapshot() == LedgerSpec.Initial
    {
      users := [];
      transactions := [];
      orders := [];
      rates := DefaultRates;
    }

    method GetRates() returns (r: Response)
      ensures r == LedgerSpec.GetRates(Snapshot())
    {
      r := Ok(RatesView(rates));
    }

    method UpdateRates(usdt: Option<real>, ton: Option<real>) returns (r: Response)
      modifies this
      ensures LedgerSpec.Outcome(Snapshot(), r) == LedgerSpec.UpdateRates(old(Snapshot()), usdt, ton)
    {
      if TruthyNumber(usdt) {
        rates := rates.(usdt := usdt.value);
      }
      if TruthyNumber(ton) {
        rates := rates.(ton := ton.value);
      }
      r := Ok(RatesView(rates));
    }

    method Login(phone: Option<string>, id: string, now: int) returns (r: Response)
      modifies this
      ensures LedgerSpec.Outcome(Snapshot(), r) == LedgerSpec.Login(old(Snapshot()), phone, id, now)
    {
      var found := FindIndex(users, LedgerSpec.WithPhone(phone));
      var user: User;
      if found.Some? {
        user := users[found.value];
      } else {
        user := User(id, phone, 0.0, 0.0, 0, 0.0, now);
        users := users + [user];
      }
      r := Ok(UserView(user.id, user.phone, user.balanceUSDT, user.balanceUAH));
    }

    method GetUser(userId: string) returns (r: Response)
      ensures r == LedgerSpec.GetUser(Snapshot(), userId)
    {
      var found := FindIndex(users, LedgerSpec.WithUserId(userId));
      if found.None? {
        return NotFound(UserEntity);
      }
      var user := users[found.value];
      r := Ok(BalancesView(user.balanceUSDT, user.balanceUAH, user.totalExchanges, user.totalExchangedUAH));
    }

    method History(userId: string) returns (r: Response)
      ensures r == LedgerSpec.History(Snapshot(), userId)
    {
      var userTransactions := FilterLoop(transactions, LedgerSpec.OfUser(userId));
      r := Ok(TxList(userTransactions));
    }

    method RequestDeposit(userId: Option<string>, amount: Option<real>, id: string, now: int) returns (r: Response)
      modifies this
      ensures LedgerSpec.Outcome(Snapshot(), r) == LedgerSpec.RequestDeposit(old(Snapshot()), userId, amount, id, now)
    {
      if !TruthyString(userId) || !TruthyNumber(amount) {
        return BadRequest(MissingFields);
      }
      var found := FindIndex(users, LedgerSpec.WithUserId(userId.value));
      if found.None? {
        return NotFound(UserEntity);
      }
      var tx := LedgerSpec.DepositRecord(id, userId.value, amount.value, now);
      transactions := transactions + [tx];
      r := Ok(DepositCreated(tx));
    }

    method ConfirmDeposit(userId: string, amount: real, txHash: Option<string>) returns (r: Response)
      modifies this
      ensures LedgerSpec.Outcome(Snapshot(), r) == LedgerSpec.ConfirmDeposit(old(Snapshot()), userId, amount, txHash)
    {
      var found := FindIndex(users, LedgerSpec.WithUserId(userId));
      if found.None? {
        return NotFound(UserEntity);
      }
      var k := found.value;
      users := users[k := users[k].(balanceUSDT := users[k].balanceUSDT + amount)];
      ConfirmPending(userId, amount, txHash);
      r := Ok(DepositCredited(users[k].balanceUSDT));
    }

    /** Marks the first pending transaction of `userId` for `amount`, if any, confirmed. */
    method ConfirmPending(userId: string, amount: real, txHash: Option<string>)
      modifies this
      ensures transactions == LedgerSpec.ConfirmFirstPending(old(transactions), userId, amount, txHash)
      ensures users == old(users) && orders == old(orders) && rates == old(rates)
    {
      var pending := FindIndex(transactions, LedgerSpec.PendingMatch(userId, amount));
      if pending.Some? {
        var j := pending.value;
        transactions := transactions[j := transactions[j].(status := TxConfirmed, txHash := txHash)];
      }
    }

    method RequestWithdraw(userId: string, amount: real, card: Option<string>, id: string, now: int) returns (r: Response)
      modifies this
      ensures LedgerSpec.Outcome(Snapshot(), r) == LedgerSpec.RequestWithdraw(old(Snapshot()), userId, amount, card, id, now)
    {
      var found := FindIndex(users, LedgerSpec.WithUserId(userId));
      if found.None? {
        return NotFound(UserEntity);
      }
      var k := found.value;
      if users[k].balanceUSDT < amount {
        return BadRequest(InsufficientFunds);
      }
      LedgerProperties.WithdrawAccepted(Snapshot(), userId, amount, card, id, now, k);
      users := users[k := users[k].(balanceUSDT := users[k].balanceUSDT - amount)];
      var tx := LedgerSpec.WithdrawRecord(id, userId, amount, rates.usdt, card, now);
      transactions := transactions + [tx];
      r := Ok(WithdrawCreated(tx));
    }

    method CreateOrder(direction: Option<string>, amount: Option<real>, cardNumber: Option<string>, id: string, now: int)
      returns (r: Response)
      modifies this
      ensures LedgerSpec.Outcome(Snapshot(), r) == LedgerSpec.CreateOrder(old(Snapshot()), direction, amount, cardNumber, id, now)
    {
      if !TruthyString(direction) || !TruthyNumber(amount) || !TruthyString(cardNumber) {
        return BadRequest(MissingFields);
      }
      LedgerProperties.CreateOrderAccepted(Snapshot(), direction.value, amount.value, cardNumber.value, id, now);
      var rate := if direction.value == UsdtToUah then rates.usdt else rates.ton;
      var amountUAH := amount.value * rate;
      var order := Order(id, direction.value, amount.value, amountUAH, rate, cardNumber.value, PaymentAddress,
                         Pending, now, now + OrderTtlMs);
      assert order == LedgerSpec.NewOrder(rates, direction.value, amount.value, cardNumber.value, id, now);
      orders := orders + [order];
      r := Ok(OrderCreated(id, PaymentAddress, amount.value, amountUAH));
    }

    method GetOrder(orderId: string, now: int) returns (r: Response)
      modifies this
      ensures LedgerSpec.Outcome(Snapshot(), r) == LedgerSpec.GetOrder(old(Snapshot()), orderId, now)
    {
      var found := FindIndex(orders, LedgerSpec.WithOrderId(orderId));
      if found.None? {
        return NotFound(OrderEntity);
      }
      var k := found.value;
      if orders[k].status == Pending && now > orders[k].expiresAt {
        orders := orders[k := orders[k].(status := Expired)];
      }
      r := Ok(OrderView(orders[k].status, orders[k].amount, orders[k].amountUAH));
    }

    method AdminOrders() returns (r: Response)
      ensures r == LedgerSpec.AdminOrders(Snapshot())
    {
      r := Ok(OrderList(orders));
    }

    method AdminTransactions() returns (r: Response)
      ensures r == LedgerSpec.AdminTransactions(Snapshot())
    {
      r := Ok(TxList(transactions));
    }

    method AdminConfirmOrder(orderId: string) returns (r: Response)
      modifies this
      ensures LedgerSpec.Outcome(Snapshot(), r) == LedgerSpec.AdminConfirmOrder(old(Snapshot()), orderId)
    {
      var found := FindIndex(orders, LedgerSpec.WithOrderId(orderId));
      if found.Some? {
        var k := found.value;
        orders := orders[k := orders[k].(status := Confirmed)];
        r := Ok(Done);
      } else {
        r := NotFound(OrderEntity);
      }
    }

    method AdminMarkReceived(orderId: string) returns (r: Response)
      modifies this
      ensures LedgerSpec.Outcome(Snapshot(), r) == LedgerSpec.AdminMarkReceived(old(Snapshot()), orderId)
    {
      var found := FindIndex(orders, LedgerSpec.WithOrderId(orderId));
      if found.Some? {
        var k := found.value;
        orders := orders[k := orders[k].(status := Received)];
        r := Ok(Done);
      } else {
        r := NotFound(OrderEntity);
      }
    }

    method AdminConfirmDeposit(txId: string) returns (r: Response)
      modifies this
      ensures LedgerSpec.Outcome(Snapshot(), r) == LedgerSpec.AdminConfirmDeposit(old(Snapshot()), txId)
    {
      var found := FindIndex(transactions, LedgerSpec.WithTxId(txId));
      if found.Some? && transactions[found.value].kind == Deposit {
        var j := found.value;
        var tx := transactions[j];
        transactions := transactions[j := tx.(status := TxConfirmed)];
        var owner := FindIndex(users, LedgerSpec.WithUserId(tx.userId));
        if owner.Some? {
          var k := owner.value;
          users := users[k := users[k].(balanceUSDT := users[k].balanceUSDT + tx.amount)];
        }
        r := Ok(Done);
      } else {
        r := NotFound(TransactionEntity);
      }
    }
  }
}
