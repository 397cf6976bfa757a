/** Records held by the exchange server and the shapes of its JSON replies.
    Amounts and rates are exact reals; the server's IEEE doubles are not modelled. */
module LedgerTypes {

  datatype Option<T> = None | Some(value: T)

  /** A numeric request field tested with `!x`: absent and 0 are both falsy. */
  predicate TruthyNumber(x: Option<real>) {
    x.Some? && x.value != 0.0
  }

  /** A string request field tested with `!x`: absent and "" are both falsy. */
  predicate TruthyString(x: Option<string>) {
    x.Some? && x.value != ""
  }

  /** The mutable rate pair: UAH per USDT and UAH per TON. */
  datatype Rates = Rates(usdt: real, ton: real)

  const DefaultRates: Rates := Rates(46.0, 80.0)

  /** A user record; times are milliseconds since the epoch. */
  datatype User = User(
    id: string,
    phone: Option<string>,
    balanceUSDT: real,
    balanceUAH: real,
    totalExchanges: int,
    totalExchangedUAH: real,
    createdAt: int)

  datatype TxKind = Deposit | Withdraw

  datatype TxStatus = TxPending | TxConfirmed

  /** A ledger entry. A deposit carries `txHash` (null until confirmed) and no
      `uahAmount` or `card`; a withdrawal carries `uahAmount` and `card`. */
  datatype Transaction = Transaction(
    id: string,
    userId: string,
    kind: TxKind,
    amount: real,
    currency: string,
    uahAmount: Option<real>,
    card: Option<string>,
    status: TxStatus,
    date: int,
    txHash: Option<string>)

  datatype OrderStatus = Pending | Confirmed | Received | Expired

  /** An exchange order; `rate` and `amountUAH` are fixed when it is created. */
  datatype Order = Order(
    orderId: string,
    direction: string,
    amount: real,
    amountUAH: real,
    rate: real,
    cardNumber: string,
    paymentAddress: string,
    status: OrderStatus,
    createdAt: int,
    expiresAt: int)

  /** The direction whose rate is the USDT rate; every other direction uses TON. */
  const UsdtToUah: string := "USDT_TO_UAH"

  /** The payment address; both directions use the same one. */
  const PaymentAddress: string := "UQCS3J9NntTQTrhpmYcCk45tO3iH2H-6vq5fqqrqKCGhT8bG"

  /** An order expires 30 minutes after it is created. */
  const OrderTtlMs: int := 30 * 60 * 1000

  const Usdt: string := "USDT"

  /** What a 404 reply says was not found. */
  datatype Entity = UserEntity | OrderEntity | TransactionEntity

  /** Why a 400 reply was sent. */
  datatype Refusal = MissingFields | InsufficientFunds

  /** The bodies of successful replies. */
  datatype Body =
    | RatesView(rates: Rates)
    | UserView(id: string, phone: Option<string>, balanceUSDT: real, balanceUAH: real)
    | BalancesView(balanceUSDT: real, balanceUAH: real, totalExchanges: int, totalExchangedUAH: real)
    | TxList(txs: seq<Transaction>)
    | DepositCreated(tx: Transaction)
    | DepositCredited(balance: real)
    | WithdrawCreated(tx: Transaction)
    | OrderCreated(orderId: string, paymentAddress: string, amount: real, amountUAH: real)
    | OrderView(status: OrderStatus, amount: real, amountUAH: real)
    | OrderList(orders: seq<Order>)
    | Done

  /** An HTTP reply: 200 with a body, 400 or 404. */
  datatype Response = Ok(body: Body) | BadRequest(refusal: Refusal) | NotFound(entity: Entity)
}
