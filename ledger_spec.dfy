/** The exchange server's handlers as functions from the ledger state to the
    next state and the reply. The clock (`now`, in milliseconds) and the
    generated ids (`id`) are parameters. */
module LedgerSpec {
  import opened LedgerTypes
  import opened Search

  /** The server's module-level data: the three arrays and the rate pair. */
  datatype State = State(users: seq<User>, transactions: seq<Transaction>, orders: seq<Order>, rates: Rates)

  /** What a handler leaves behind and what it replies. */
  datatype Outcome = Outcome(next: State, response: Response)

  /** The state at start-up: no records and rates USDT = 46, TON = 80. */
  const Initial: State := State([], [], [], DefaultRates)

  // The predicates that the handlers pass to `find` and `filter`.

  function WithUserId(id: string): User -> bool { (u: User) => u.id == id }

  function WithPhone(phone: Option<string>): User -> bool { (u: User) => u.phone == phone }

  function OfUser(userId: string): Transaction -> bool { (t: Transaction) => t.userId == userId }

  function WithTxId(id: string): Transaction -> bool { (t: Transaction) => t.id == id }

  /** The match that deposit confirmation looks for; it does not test the kind. */
  function PendingMatch(userId: string, amount: real): Transaction -> bool {
    (t: Transaction) => t.userId == userId && t.amount == amount && t.status == TxPending
  }

  function WithOrderId(id: string): Order -> bool { (o: Order) => o.orderId == id }

  /** `users` with the balance of the user at `k` set to `balance`. */
  function SetBalance(users: seq<User>, k: nat, balance: real): seq<User>
    requires k < |users|
  {
    users[k := users[k].(balanceUSDT := balance)]
  }

  /** `orders` with the status of the order at `k` set to `status`. */
  function SetOrderStatus(orders: seq<Order>, k: nat, status: OrderStatus): seq<Order>
    requires k < |orders|
  {
    orders[k := orders[k].(status := status)]
  }

  /** A rate field is overwritten only when the request gives it a truthy value. */
  function Overwrite(field: real, given: Option<real>): real {
    if TruthyNumber(given) then given.value else field
  }

  /** GET /api/rates */
  function GetRates(s: State): Response {
    Ok(RatesView(s.rates))
  }

  /** POST /api/rates */
  function UpdateRates(s: State, usdt: Option<real>, ton: Option<real>): Outcome {
    var rates := Rates(Overwrite(s.rates.usdt, usdt), Overwrite(s.rates.ton, ton));
    Outcome(s.(rates := rates), Ok(RatesView(rates)))
  }

  /** POST /api/login: the first user with this phone, or a new one appended. */
  function Login(s: State, phone: Option<string>, id: string, now: int): Outcome {
    match FindFirst(s.users, WithPhone(phone))
    case Some(k) =>
      var u := s.users[k];
      Outcome(s, Ok(UserView(u.id, u.phone, u.balanceUSDT, u.balanceUAH)))
    case None =>
      var u := User(id, phone, 0.0, 0.0, 0, 0.0, now);
      Outcome(s.(users := s.users + [u]), Ok(UserView(u.id, u.phone, u.balanceUSDT, u.balanceUAH)))
  }

  /** GET /api/user/:userId */
  function GetUser(s: State, userId: string): Response {
    match FindFirst(s.users, WithUserId(userId))
    case None => NotFound(UserEntity)
    case Some(k) =>
      var u := s.users[k];
      Ok(BalancesView(u.balanceUSDT, u.balanceUAH, u.totalExchanges, u.totalExchangedUAH))
  }

  /** GET /api/user/:userId/history; an unknown user gets an empty list. */
  function History(s: State, userId: string): Response {
    Ok(TxList(Filter(s.transactions, OfUser(userId))))
  }

  /** The record that a deposit request appends. */
  function DepositRecord(id: string, userId: string, amount: real, now: int): Transaction {
    Transaction(id, userId, Deposit, amount, Usdt, None, None, TxPending, now, None)
  }

  /** POST /api/deposit/request */
  function RequestDeposit(s: State, userId: Option<string>, amount: Option<real>, id: string, now: int): Outcome {
    if !TruthyString(userId) || !TruthyNumber(amount) then Outcome(s, BadRequest(MissingFields))
    else match FindFirst(s.users, WithUserId(userId.value))
      case None => Outcome(s, NotFound(UserEntity))
      case Some(_) =>
        var tx := DepositRecord(id, userId.value, amount.value, now);
        Outcome(s.(transactions := s.transactions + [tx]), Ok(DepositCreated(tx)))
  }

  /** POST /api/deposit/confirm: credits first, then confirms the first pending
      match if there is one. */
  function ConfirmDeposit(s: State, userId: string, amount: real, txHash: Option<string>): Outcome {
    match FindFirst(s.users, WithUserId(userId))
    case None => Outcome(s, NotFound(UserEntity))
    case Some(k) =>
      var balance := s.users[k].balanceUSDT + amount;
      var users := SetBalance(s.users, k, balance);
      var txs := ConfirmFirstPending(s.transactions, userId, amount, txHash);
      Outcome(s.(users := users, transactions := txs), Ok(DepositCredited(balance)))
  }

  /** The first pending transaction of `userId` for `amount`, if any, marked
      confirmed with `txHash`. */
  function ConfirmFirstPending(txs: seq<Transaction>, userId: string, amount: real, txHash: Option<string>): seq<Transaction> {
    match FindFirst(txs, PendingMatch(userId, amount))
    case None => txs
    case Some(j) => txs[j := txs[j].(status := TxConfirmed, txHash := txHash)]
  }

  /** The first user with id `userId`, if any, credited `amount`. */
  function CreditOwner(users: seq<User>, userId: string, amount: real): seq<User> {
    match FindFirst(users, WithUserId(userId))
    case None => users
    case Some(k) => SetBalance(users, k, users[k].balanceUSDT + amount)
  }

  /** The record that a withdrawal appends, priced at `usdtRate`. */
  function WithdrawRecord(id: string, userId: string, amount: real, usdtRate: real, card: Option<string>, now: int): Transaction {
    Transaction(id, userId, Withdraw, amount, Usdt, Some(amount * usdtRate), card, TxPending, now, None)
  }

  /** POST /api/withdraw: the balance is debited when the request is made. */
  function RequestWithdraw(s: State, userId: string, amount: real, card: Option<string>, id: string, now: int): Outcome {
    match FindFirst(s.users, WithUserId(userId))
    case None => Outcome(s, NotFound(UserEntity))
    case Some(k) =>
      if s.users[k].balanceUSDT < amount then Outcome(s, BadRequest(InsufficientFunds))
      else
        var users := SetBalance(s.users, k, s.users[k].balanceUSDT - amount);
        var tx := WithdrawRecord(id, userId, amount, s.rates.usdt, card, now);
        Outcome(s.(users := users, transactions := s.transactions + [tx]), Ok(WithdrawCreated(tx)))
  }

  /** The rate an order in `direction` is priced at. */
  function RateFor(rates: Rates, direction: string): real {
    if direction == UsdtToUah then rates.usdt else rates.ton
  }

  /** The order that a create-order request appends. */
  function NewOrder(rates: Rates, direction: string, amount: real, cardNumber: string, id: string, now: int): Order {
    var rate := RateFor(rates, direction);
    Order(id, direction, amount, amount * rate, rate, cardNumber, PaymentAddress, Pending, now, now + OrderTtlMs)
  }

  /** POST /api/create-order */
  function CreateOrder(s: State, direction: Option<string>, amount: Option<real>, cardNumber: Option<string>, id: string, now: int): Outcome {
    if !TruthyString(direction) || !TruthyNumber(amount) || !TruthyString(cardNumber) then
      Outcome(s, BadRequest(MissingFields))
    else
      var o := NewOrder(s.rates, direction.value, amount.value, cardNumber.value, id, now);
      Outcome(s.(orders := s.orders + [o]), Ok(OrderCreated(o.orderId, o.paymentAddress, o.amount, o.amountUAH)))
  }

  /** GET /api/order/:orderId, which expires the order lazily. */
  function GetOrder(s: State, orderId: string, now: int): Outcome {
    match FindFirst(s.orders, WithOrderId(orderId))
    case None => Outcome(s, NotFound(OrderEntity))
    case Some(k) =>
      var o := s.orders[k];
      var orders := if o.status == Pending && now > o.expiresAt then SetOrderStatus(s.orders, k, Expired) else s.orders;
      Outcome(s.(orders := orders), Ok(OrderView(orders[k].status, o.amount, o.amountUAH)))
  }

  /** The admin order transitions set the status whatever it was. */
  function SetStatusById(s: State, orderId: string, status: OrderStatus): Outcome {
    match FindFirst(s.orders, WithOrderId(orderId))
    case None => Outcome(s, NotFound(OrderEntity))
    case Some(k) => Outcome(s.(orders := SetOrderStatus(s.orders, k, status)), Ok(Done))
  }

  /** GET /api/admin/orders: every order, in creation order. */
  function AdminOrders(s: State): Response {
    Ok(OrderList(s.orders))
  }

  /** GET /api/admin/transactions: every transaction, in creation order. */
  function AdminTransactions(s: State): Response {
    Ok(TxList(s.transactions))
  }

  /** POST /api/admin/order/:orderId/confirm */
  function AdminConfirmOrder(s: State, orderId: string): Outcome {
    SetStatusById(s, orderId, Confirmed)
  }

  /** POST /api/admin/order/:orderId/received */
  function AdminMarkReceived(s: State, orderId: string): Outcome {
    SetStatusById(s, orderId, Received)
  }

  /** POST /api/admin/deposit/:transactionId/confirm: no status check. */
  function AdminConfirmDeposit(s: State, txId: string): Outcome {
    match FindFirst(s.transactions, WithTxId(txId))
    case None => Outcome(s, NotFound(TransactionEntity))
    case Some(j) =>
      var t := s.transactions[j];
      if t.kind != Deposit then Outcome(s, NotFound(TransactionEntity))
      else
        var txs := s.transactions[j := t.(status := TxConfirmed)];
        Outcome(s.(users := CreditOwner(s.users, t.userId, t.amount), transactions := txs), Ok(Done))
  }

  /** One call of any of the handlers. */
  datatype Request =
    | GetRatesRequest
    | UpdateRatesRequest(usdt: Option<real>, ton: Option<real>)
    | LoginRequest(phone: Option<string>, id: string, now: int)
    | GetUserRequest(userId: string)
    | HistoryRequest(userId: string)
    | RequestDepositRequest(depositUserId: Option<string>, depositAmount: Option<real>, id: string, now: int)
    | ConfirmDepositRequest(userId: string, amount: real, txHash: Option<string>)
    | WithdrawRequest(userId: string, amount: real, card: Option<string>, id: string, now: int)
    | CreateOrderRequest(direction: Option<string>, orderAmount: Option<real>, cardNumber: Option<string>, id: string, now: int)
    | GetOrderRequest(orderId: string, now: int)
    | AdminOrdersRequest
    | AdminTransactionsRequest
    | AdminConfirmOrderRequest(orderId: string)
    | AdminMarkReceivedRequest(orderId: string)
    | AdminConfirmDepositRequest(txId: string)

  function Step(s: State, req: Request): Outcome {
    match req
    case GetRatesRequest => Outcome(s, GetRates(s))
    case UpdateRatesRequest(usdt, ton) => UpdateRates(s, usdt, ton)
    case LoginRequest(phone, id, now) => Login(s, phone, id, now)
    case GetUserRequest(userId) => Outcome(s, GetUser(s, userId))
    case HistoryRequest(userId) => Outcome(s, History(s, userId))
    case RequestDepositRequest(userId, amount, id, now) => RequestDeposit(s, userId, amount, id, now)
    case ConfirmDepositRequest(userId, amount, txHash) => ConfirmDeposit(s, userId, amount, txHash)
    case WithdrawRequest(userId, amount, card, id, now) => RequestWithdraw(s, userId, amount, card, id, now)
    case CreateOrderRequest(direction, amount, cardNumber, id, now) => CreateOrder(s, direction, amount, cardNumber, id, now)
    case GetOrderRequest(orderId, now) => GetOrder(s, orderId, now)
    case AdminOrdersRequest => Outcome(s, AdminOrders(s))
    case AdminTransactionsRequest => Outcome(s, AdminTransactions(s))
    case AdminConfirmOrderRequest(orderId) => AdminConfirmOrder(s, orderId)
    case AdminMarkReceivedRequest(orderId) => AdminMarkReceived(s, orderId)
    case AdminConfirmDepositRequest(txId) => AdminConfirmDeposit(s, txId)
  }

  /** The state after serving `reqs` one after another. */
  function Run(s: State, reqs: seq<Request>): State
    decreases |reqs|
  {
    if |reqs| == 0 then s else Run(Step(s, reqs[0]).next, reqs[1..])
  }
}
