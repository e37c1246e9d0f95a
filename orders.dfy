/**
 * The order record shared by both execution backends: an immutable identity and
 * a status that only ever leaves `Open` (backend/app/paper_broker/broker.py, class Order).
 */
module Orders {
  import opened Wrappers

  datatype Side = Buy | Sell
  datatype OrderType = Market | Limit
  datatype Status = Open | Filled | Canceled | Rejected

  /**
   * `price` is the limit price (the controller also stores the tick price there for
   * market orders); `filledAt` and `filledPrice` are set when the order fills.
   */
  datatype Order = Order(
    id: string,
    symbol: string,
    side: Side,
    kind: OrderType,
    quantity: real,
    price: real,
    status: Status,
    filledAt: Option<real>,
    filledPrice: real)

  /** An order built with the dataclass defaults: open, not filled, filled price 0. */
  function NewOrder(id: string, symbol: string, side: Side, kind: OrderType, quantity: real, price: real): Order {
    Order(id, symbol, side, kind, quantity, price, Open, None, 0.0)
  }

  /** filled, canceled and rejected are final. */
  predicate Terminal(s: Status) {
    s != Open
  }

  /** The only status changes allowed: none, or out of `Open`. */
  predicate StatusStep(before: Status, after: Status) {
    before == after || before == Open
  }

  /** What the account invariants need of an order: a non-negative quantity and limit price. */
  predicate WellFormed(o: Order) {
    o.quantity >= 0.0 && o.price >= 0.0
  }

  /** Everything but status, fill time and fill price is the order's identity. */
  predicate SameIdentity(a: Order, b: Order) {
    a.id == b.id && a.symbol == b.symbol && a.side == b.side && a.kind == b.kind
    && a.quantity == b.quantity && a.price == b.price
  }
}
