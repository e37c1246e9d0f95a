/**
 * The simulated exchange (backend/app/paper_broker/broker.py): a list of orders,
 * a quote-currency balance, a base-asset holdings figure and the history of fills.
 * Each price tick runs one matching pass over the open orders.
 */
module Paper {
  import opened Wrappers
  import opened Orders
  import opened RealArith

  /** The part of the broker that fills change. */
  datatype Account = Account(balance: real, holdings: real, history: seq<Order>)

  /** The broker's fixed fee and slippage fractions. */
  datatype Fees = Fees(feePct: real, slippagePct: real)

  /** The result of settling one order: the new account and the new order. */
  datatype Settled = Settled(account: Account, order: Order)

  /** The result of a whole matching pass. */
  datatype Pass = Pass(account: Account, orders: seq<Order>)

  predicate AccountValid(a: Account) {
    a.balance >= 0.0 && a.holdings >= 0.0
  }

  predicate FeesValid(f: Fees) {
    0.0 <= f.feePct <= 1.0 && 0.0 <= f.slippagePct <= 1.0
  }

  predicate AllWellFormed(os: seq<Order>) {
    forall i :: 0 <= i < |os| ==> WellFormed(os[i])
  }

  /**
   * The matching rule of one open order at tick price `tick`: Some(fill price) when
   * the order fills on this tick, None when it stays open.
   */
  function MatchPrice(o: Order, tick: real, f: Fees): Option<real> {
    match o.kind
    case Market =>
      if o.side == Buy then Some(tick * (1.0 + f.slippagePct))
      else Some(tick * (1.0 - f.slippagePct))
    case Limit =>
      if o.side == Buy && tick <= o.price then Some(o.price)
      else if o.side == Sell && tick >= o.price then Some(o.price)
      else None
  }

  /** `_execute_fill`: check funds or holdings, then move money and coins, or reject. */
  function Fill(a: Account, o: Order, price: real, f: Fees, now: real): Settled {
    var cost := price * o.quantity;
    var fee := cost * f.feePct;
    var filled := o.(status := Filled, filledPrice := price, filledAt := Some(now));
    match o.side
    case Buy =>
      if a.balance >= cost + fee then
        Settled(Account(a.balance - (cost + fee), a.holdings + o.quantity, a.history + [filled]), filled)
      else
        Settled(a, o.(status := Rejected))
    case Sell =>
      if a.holdings >= o.quantity then
        Settled(Account(a.balance + (cost - fee), a.holdings - o.quantity, a.history + [filled]), filled)
      else
        Settled(a, o.(status := Rejected))
  }

  /** One iteration of the matching loop: orders that are not open are skipped. */
  function SettleOrder(a: Account, o: Order, tick: real, f: Fees, now: real): Settled {
    if o.status != Open then Settled(a, o)
    else
      match MatchPrice(o, tick, f)
      case None => Settled(a, o)
      case Some(p) => Fill(a, o, p, f, now)
  }

  /**
   * The whole matching pass over `os`, in list order; each fill sees the account
   * left by the fills before it.
   */
  function Settle(a: Account, os: seq<Order>, tick: real, f: Fees, now: real): (r: Pass)
    ensures |r.orders| == |os|
    decreases |os|
  {
    if os == [] then Pass(a, [])
    else
      var before := Settle(a, os[..|os| - 1], tick, f, now);
      var last := SettleOrder(before.account, os[|os| - 1], tick, f, now);
      Pass(last.account, before.orders + [last.order])
  }

  /** The orders of `after` that this pass moved from open to filled, in list order. */
  function NewlyFilled(before: seq<Order>, after: seq<Order>): seq<Order>
    requires |before| == |after|
    decreases |before|
  {
    if before == [] then []
    else
      var n := |before| - 1;
      NewlyFilled(before[..n], after[..n])
        + (if before[n].status == Open && after[n].status == Filled then [after[n]] else [])
  }

  // ---------------------------------------------------------------------------
  // Properties of one fill

  /** A market order always fills on its first tick, a buy at `p*(1+slippage)`, a sell at `p*(1-slippage)`. */
  lemma MarketFillsAtSlippedPrice(o: Order, tick: real, f: Fees)
    requires o.kind == Market
    ensures o.side == Buy ==> MatchPrice(o, tick, f) == Some(tick * (1.0 + f.slippagePct))
    ensures o.side == Sell ==> MatchPrice(o, tick, f) == Some(tick * (1.0 - f.slippagePct))
  {
    var m := MatchPrice(o, tick, f);
    if o.side == Buy {
      assert m.Some? && m.value == tick * (1.0 + f.slippagePct);
    } else {
      assert m.Some? && m.value == tick * (1.0 - f.slippagePct);
    }
  }

  /** A limit buy fills exactly when the tick is at or below the limit, and then at the limit itself. */
  lemma LimitBuyFillsAtLimit(o: Order, tick: real, f: Fees)
    requires o.kind == Limit && o.side == Buy
    ensures MatchPrice(o, tick, f).Some? <==> tick <= o.price
    ensures tick <= o.price ==> MatchPrice(o, tick, f) == Some(o.price)
  {
  }

  /** A limit sell fills exactly when the tick is at or above the limit, and then at the limit itself. */
  lemma LimitSellFillsAtLimit(o: Order, tick: real, f: Fees)
    requires o.kind == Limit && o.side == Sell
    ensures MatchPrice(o, tick, f).Some? <==> tick >= o.price
    ensures tick >= o.price ==> MatchPrice(o, tick, f) == Some(o.price)
  {
  }

  /**
   * A buy fill debits exactly cost + fee and credits the quantity when the balance covers
   * them; otherwise it rejects the order and changes nothing.
   */
  lemma BuyFillAccounting(a: Account, o: Order, price: real, f: Fees, now: real)
    requires o.side == Buy
    ensures var r := Fill(a, o, price, f, now);
      var cost := price * o.quantity;
      var fee := cost * f.feePct;
      if a.balance >= cost + fee then
        r.account.balance == a.balance - (cost + fee) && r.account.holdings == a.holdings + o.quantity
        && r.order.status == Filled && r.order.filledPrice == price && r.account.history == a.history + [r.order]
      else
        r.account == a && r.order.status == Rejected
  {
    var cost := price * o.quantity;
    var fee := cost * f.feePct;
    var filled := o.(status := Filled, filledPrice := price, filledAt := Some(now));
    if a.balance >= cost + fee {
      assert Fill(a, o, price, f, now) == Settled(Account(a.balance - (cost + fee), a.holdings + o.quantity, a.history + [filled]), filled);
    } else {
      assert Fill(a, o, price, f, now) == Settled(a, o.(status := Rejected));
    }
  }

  /**
   * A sell fill debits exactly the quantity and credits cost - fee when the holdings cover
   * it; otherwise it rejects the order and changes nothing.
   */
  lemma SellFillAccounting(a: Account, o: Order, price: real, f: Fees, now: real)
    requires o.side == Sell
    ensures var r := Fill(a, o, price, f, now);
      var cost := price * o.quantity;
      var fee := cost * f.feePct;
      if a.holdings >= o.quantity then
        r.account.balance == a.balance + (cost - fee) && r.account.holdings == a.holdings - o.quantity
        && r.order.status == Filled && r.order.filledPrice == price && r.account.history == a.history + [r.order]
      else
        r.account == a && r.order.status == Rejected
  {
    var cost := price * o.quantity;
    var fee := cost * f.feePct;
    var filled := o.(status := Filled, filledPrice := price, filledAt := Some(now));
    if a.holdings >= o.quantity {
      assert Fill(a, o, price, f, now) == Settled(Account(a.balance + (cost - fee), a.holdings - o.quantity, a.history + [filled]), filled);
    } else {
      assert Fill(a, o, price, f, now) == Settled(a, o.(status := Rejected));
    }
  }

  /** Settling one order keeps balance and holdings non-negative. */
  lemma SettleOrderKeepsAccountValid(a: Account, o: Order, tick: real, f: Fees, now: real)
    requires AccountValid(a) && FeesValid(f) && WellFormed(o) && tick >= 0.0
    ensures AccountValid(SettleOrder(a, o, tick, f, now).account)
  {
    if o.status == Open && MatchPrice(o, tick, f).Some? {
      var p := MatchPrice(o, tick, f).value;
      if o.kind == Market {
        if o.side == Buy {
          NonNegativeProduct(tick, 1.0 + f.slippagePct);
        } else {
          NonNegativeProduct(tick, 1.0 - f.slippagePct);
        }
      }
      FillKeepsAccountValid(a, o, p, f, now);
    }
  }

  /** A fill at a non-negative price keeps balance and holdings non-negative, whether it succeeds or not. */
  lemma FillKeepsAccountValid(a: Account, o: Order, price: real, f: Fees, now: real)
    requires AccountValid(a) && FeesValid(f) && WellFormed(o) && price >= 0.0
    ensures AccountValid(Fill(a, o, price, f, now).account)
  {
    NonNegativeProduct(price, o.quantity);
    FeeWithinCost(price * o.quantity, f.feePct);
    if o.side == Buy {
      BuyFillAccounting(a, o, price, f, now);
    } else {
      SellFillAccounting(a, o, price, f, now);
    }
  }

  /** A fee fraction between 0 and 1 of a non-negative cost lies between 0 and that cost. */
  lemma FeeWithinCost(cost: real, pct: real)
    requires cost >= 0.0 && 0.0 <= pct <= 1.0
    ensures 0.0 <= cost * pct <= cost
  {
    NonNegativeProduct(cost, pct);
    NonNegativeProduct(cost, 1.0 - pct);
    assert cost - cost * pct == cost * (1.0 - pct);
  }

  /** Settling one order changes at most its status, fill time and fill price, and only out of `Open`. */
  lemma SettleOrderMovesForward(a: Account, o: Order, tick: real, f: Fees, now: real)
    ensures var r := SettleOrder(a, o, tick, f, now);
      SameIdentity(o, r.order) && StatusStep(o.status, r.order.status)
      && (Terminal(o.status) ==> r == Settled(a, o))
  {
  }

  /** The history grows by one order exactly when the order went from open to filled, and by that order. */
  lemma SettleOrderHistory(a: Account, o: Order, tick: real, f: Fees, now: real)
    ensures var r := SettleOrder(a, o, tick, f, now);
      r.account.history == a.history + (if o.status == Open && r.order.status == Filled then [r.order] else [])
  {
  }

  // ---------------------------------------------------------------------------
  // Properties of a whole matching pass

  /** A matching pass keeps `balance >= 0` and `holdings >= 0`. */
  lemma {:induction false} SettleKeepsAccountValid(a: Account, os: seq<Order>, tick: real, f: Fees, now: real)
    requires AccountValid(a) && FeesValid(f) && AllWellFormed(os) && tick >= 0.0
    ensures AccountValid(Settle(a, os, tick, f, now).account)
    decreases |os|
  {
    if os != [] {
      var n := |os| - 1;
      assert AllWellFormed(os[..n]);
      SettleKeepsAccountValid(a, os[..n], tick, f, now);
      SettleOrderKeepsAccountValid(Settle(a, os[..n], tick, f, now).account, os[n], tick, f, now);
    }
  }

  /**
   * A matching pass never touches an order that is not open, and moves the open ones
   * only forward; identities are kept.
   */
  lemma {:induction false} SettleMovesForward(a: Account, os: seq<Order>, tick: real, f: Fees, now: real)
    ensures var r := Settle(a, os, tick, f, now);
      forall i :: 0 <= i < |os| ==>
        SameIdentity(os[i], r.orders[i]) && StatusStep(os[i].status, r.orders[i].status)
        && (Terminal(os[i].status) ==> r.orders[i] == os[i])
    decreases |os|
  {
    if os != [] {
      var n := |os| - 1;
      var before := Settle(a, os[..n], tick, f, now);
      SettleMovesForward(a, os[..n], tick, f, now);
      SettleOrderMovesForward(before.account, os[n], tick, f, now);
      var r := Settle(a, os, tick, f, now);
      forall i | 0 <= i < |os|
        ensures SameIdentity(os[i], r.orders[i]) && StatusStep(os[i].status, r.orders[i].status)
        && (Terminal(os[i].status) ==> r.orders[i] == os[i])
      {
        if i < n {
          assert os[i] == os[..n][i] && r.orders[i] == before.orders[i];
        }
      }
    }
  }

  /**
   * The trade history grows exactly by the orders the pass filled, in list order,
   * each with status filled.
   */
  lemma {:induction false} SettleHistory(a: Account, os: seq<Order>, tick: real, f: Fees, now: real)
    ensures var r := Settle(a, os, tick, f, now);
      r.account.history == a.history + NewlyFilled(os, r.orders)
      && forall k :: 0 <= k < |NewlyFilled(os, r.orders)| ==> NewlyFilled(os, r.orders)[k].status == Filled
    decreases |os|
  {
    if os != [] {
      var n := |os| - 1;
      var before := Settle(a, os[..n], tick, f, now);
      var r := Settle(a, os, tick, f, now);
      SettleHistory(a, os[..n], tick, f, now);
      SettleOrderHistory(before.account, os[n], tick, f, now);
      assert os[..n] == os[..n] && r.orders[..n] == before.orders;
    }
  }

  /** The balance and holdings move only through fills: a pass that fills nothing leaves them as they were. */
  lemma {:induction false} SettleWithoutFillsKeepsFunds(a: Account, os: seq<Order>, tick: real, f: Fees, now: real)
    requires NewlyFilled(os, Settle(a, os, tick, f, now).orders) == []
    ensures Settle(a, os, tick, f, now).account == a
    decreases |os|
  {
    if os != [] {
      var n := |os| - 1;
      var before := Settle(a, os[..n], tick, f, now);
      var r := Settle(a, os, tick, f, now);
      assert r.orders[..n] == before.orders;
      assert NewlyFilled(os[..n], before.orders) == [];
      SettleWithoutFillsKeepsFunds(a, os[..n], tick, f, now);
    }
  }

  // ---------------------------------------------------------------------------
  // The scenarios of backend/tests/test_paper_broker.py

  /** 10000 in the account, market buy 0.1 at tick 50000: fill at 50050, balance 4969.975, holdings 0.1. */
  lemma MarketBuyScenario(now: real)
    ensures var o := NewOrder("1", "BTCBRL", Buy, Market, 0.1, 0.0);
      var r := Settle(Account(10000.0, 0.0, []), [o], 50000.0, Fees(0.005, 0.001), now);
      r.orders[0].status == Filled && r.orders[0].filledPrice == 50050.0
      && r.account.balance == 4969.975 && r.account.holdings == 0.1
  {
    var o := NewOrder("1", "BTCBRL", Buy, Market, 0.1, 0.0);
    assert [o][..0] == [];
  }

  /** A limit buy at 40000 stays open at tick 41000 and fills at exactly 40000 at tick 39000. */
  lemma LimitBuyScenario(now1: real, now2: real)
    ensures var o := NewOrder("2", "BTCBRL", Buy, Limit, 0.1, 40000.0);
      var f := Fees(0.005, 0.001);
      var first := Settle(Account(10000.0, 0.0, []), [o], 41000.0, f, now1);
      var second := Settle(first.account, first.orders, 39000.0, f, now2);
      first.orders[0].status == Open && second.orders[0].status == Filled
      && second.orders[0].filledPrice == 40000.0
  {
    var o := NewOrder("2", "BTCBRL", Buy, Limit, 0.1, 40000.0);
    assert [o][..0] == [];
  }

  // ---------------------------------------------------------------------------
  // The broker object

  class PaperBroker {
    var balance: real
    var holdings: real
    var orders: seq<Order>
    var tradeHistory: seq<Order>
    const fees: Fees

    function Funds(): Account
      reads this
    {
      Account(balance, holdings, tradeHistory)
    }

    /** The broker's invariant: non-negative funds, sane fractions, well-formed orders. */
    ghost predicate Valid()
      reads this
    {
      AccountValid(Funds()) && FeesValid(fees) && AllWellFormed(orders)
    }

    /** A fresh broker; loading saved state from the database is not part of this model. */
    constructor (initialBalance: real := 10000.0, feePct: real := 0.005, slippagePct: real := 0.001)
      ensures balance == initialBalance && holdings == 0.0
      ensures orders == [] && tradeHistory == []
      ensures fees == Fees(feePct, slippagePct)
      ensures initialBalance >= 0.0 && FeesValid(fees) ==> Valid()
    {
      balance := initialBalance;
      holdings := 0.0;
      orders := [];
      tradeHistory := [];
      fees := Fees(feePct, slippagePct);
    }

    /** Records the order as given (normally open) at the end of the list; funds do not move. */
    method PlaceOrder(order: Order) returns (r: Order)
      modifies this`orders
      ensures orders == old(orders) + [order] && r == order
      ensures old(Valid()) && WellFormed(order) ==> Valid()
    {
      orders := orders + [order];
      r := order;
    }

    /** Cancels every open order with this id; every other order is left as it was. */
    method CancelOrder(orderId: string)
      modifies this`orders
      ensures |orders| == |old(orders)|
      ensures forall i :: 0 <= i < |orders| ==>
        orders[i] == (if old(orders)[i].id == orderId && old(orders)[i].status == Open
                      then old(orders)[i].(status := Canceled) else old(orders)[i])
      ensures old(Valid()) ==> Valid()
    {
      var i := 0;
      while i < |orders|
        invariant 0 <= i <= |orders| == |old(orders)|
        invariant forall k :: 0 <= k < i ==>
          orders[k] == (if old(orders)[k].id == orderId && old(orders)[k].status == Open
                        then old(orders)[k].(status := Canceled) else old(orders)[k])
        invariant forall k :: i <= k < |orders| ==> orders[k] == old(orders)[k]
      {
        if orders[i].id == orderId && orders[i].status == Open {
          orders := orders[i := orders[i].(status := Canceled)];
        }
        i := i + 1;
      }
    }

    /** `_execute_fill` on the order at position `i`, at fill price `price`. */
    method ExecuteFill(i: nat, price: real, now: real)
      requires i < |orders|
      modifies this
      ensures var r := Fill(old(Funds()), old(orders)[i], price, fees, now);
        Funds() == r.account && orders == old(orders)[i := r.order]
    {
      var order := orders[i];
      var cost := price * order.quantity;
      var fee := cost * fees.feePct;
      if order.side == Buy {
        if balance >= cost + fee {
          balance := balance - (cost + fee);
          holdings := holdings + order.quantity;
          order := order.(status := Filled, filledPrice := price, filledAt := Some(now));
          tradeHistory := tradeHistory + [order];
        } else {
          order := order.(status := Rejected);
        }
      } else {
        if holdings >= order.quantity {
          balance := balance + (cost - fee);
          holdings := holdings - order.quantity;
          order := order.(status := Filled, filledPrice := price, filledAt := Some(now));
          tradeHistory := tradeHistory + [order];
        } else {
          order := order.(status := Rejected);
        }
      }
      orders := orders[i := order];
    }

    /** The body of the matching loop for the order at index `i`. */
    method TickOrder(i: nat, currentPrice: real, now: real)
      requires i < |orders|
      modifies this
      ensures var r := SettleOrder(old(Funds()), old(orders)[i], currentPrice, fees, now);
        Funds() == r.account && orders == old(orders)[i := r.order]
    {
      var order := orders[i];
      if order.status != Open {
        return;
      }
      var fill: Option<real> := None;
      if order.kind == Market {
        if order.side == Buy {
          fill := Some(currentPrice * (1.0 + fees.slippagePct));
        } else {
          fill := Some(currentPrice * (1.0 - fees.slippagePct));
        }
      } else {
        if order.side == Buy && currentPrice <= order.price {
          fill := Some(order.price);
        } else if order.side == Sell && currentPrice >= order.price {
          fill := Some(order.price);
        }
      }
      assert fill == MatchPrice(order, currentPrice, fees);
      if fill.Some? {
        ExecuteFill(i, fill.value, now);
      } else {
        assert orders == orders[i := order];
      }
    }

    /** One matching pass over every open order at the tick price. */
    method ProcessDataTick(currentPrice: real, now: real)
      modifies this
      ensures var r := Settle(old(Funds()), old(orders), currentPrice, fees, now);
        Funds() == r.account && orders == r.orders
      ensures old(Valid()) && currentPrice >= 0.0 ==> Valid()
    {
      ghost var start := Funds();
      ghost var input := orders;
      var i := 0;
      while i < |orders|
        invariant 0 <= i <= |orders| == |input|
        invariant Settle(start, input[..i], currentPrice, fees, now) == Pass(Funds(), orders[..i])
        invariant orders[i..] == input[i..]
      {
        assert input[..i + 1][..i] == input[..i];
        ghost var before := orders;
        TickOrder(i, currentPrice, now);
        assert orders[..i] == before[..i] && orders[i + 1..] == before[i + 1..];
        assert orders[..i + 1] == orders[..i] + [orders[i]];
        i := i + 1;
      }
      assert input[..i] == input && orders[..i] == orders;
      if old(Valid()) && currentPrice >= 0.0 {
        SettleKeepsAccountValid(start, input, currentPrice, fees, now);
        SettleMovesForward(start, input, currentPrice, fees, now);
        forall k | 0 <= k < |orders| ensures WellFormed(orders[k]) {
          assert SameIdentity(input[k], orders[k]);
        }
      }
    }
  }
}
