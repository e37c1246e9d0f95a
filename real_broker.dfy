/**
 * The live-exchange adapter (backend/app/paper_broker/real_broker.py): shapes an order
 * to the exchange's lot size, sends it, and reads back the fill. The exchange is an
 * oracle: each call's reply (or its failure) is given as data.
 */
module Live {
  import opened Wrappers
  import opened Orders
  import opened RealArith

  /** The step used when no LOT_SIZE filter gives one. */
  const DefaultStepSize: real := 0.00001
  /** A sell of at least this share of the holdings is taken as "sell everything". */
  const FullExitShare: real := 0.99
  /** `process_data_tick` re-reads balances when more than this many seconds have passed. */
  const ResyncSeconds: real := 60.0

  /** An entry of the symbol's `filters` list; a missing `filterType` raises. */
  datatype Filter = Filter(filterType: Option<string>, stepSize: Option<real>)

  /** What the two `get_asset_balance` calls returned (None: that call raised). */
  datatype BalanceReply = BalanceReply(brl: Option<real>, btc: Option<real>)

  /** One entry of the order reply's `fills`. */
  datatype FillReport = FillReport(price: real, qty: real)

  /** The reply to `create_order`; a missing numeric field is None. */
  datatype OrderReply = OrderReply(
    status: string,
    fills: seq<FillReport>,
    cumulativeQuoteQty: Option<real>,
    executedQty: Option<real>)

  /**
   * The exchange's replies during one `place_order`: the symbol's filters (None: the
   * call raised), the balances read before a sell, the order reply (None: the call
   * raised) and the balances read after the order.
   */
  datatype Exchange = Exchange(
    symbolFilters: Option<seq<Filter>>,
    balancesBeforeSell: BalanceReply,
    orderReply: Option<OrderReply>,
    balancesAfterOrder: BalanceReply)

  datatype Funds = Funds(balance: real, holdings: real)

  /** What one `place_order` produced: the order, the quantity sent (None: nothing sent), the funds. */
  datatype Execution = Execution(order: Order, submitted: Option<real>, funds: Funds)

  // ---------------------------------------------------------------------------
  // Step size

  /**
   * The step the filter loop ends with on `filters` (None: it raised on a filter
   * without a type). Each LOT_SIZE filter overwrites the step.
   */
  function ChosenStep(filters: seq<Filter>): Option<real>
    decreases |filters|
  {
    if filters == [] then Some(DefaultStepSize)
    else
      var f := filters[|filters| - 1];
      match ChosenStep(filters[..|filters| - 1])
      case None => None
      case Some(step) =>
        if f.filterType.None? then None
        else if f.filterType.value == "LOT_SIZE" then Some(f.stepSize.GetOr(DefaultStepSize))
        else Some(step)
  }

  predicate AllTyped(filters: seq<Filter>) {
    forall i :: 0 <= i < |filters| ==> filters[i].filterType.Some?
  }

  predicate IsLotSize(f: Filter) {
    f.filterType == Some("LOT_SIZE")
  }

  /** The filter loop: the last LOT_SIZE filter gives the step; a filter without a type aborts. */
  method SelectStepSize(filters: seq<Filter>) returns (step: Option<real>)
    ensures step == ChosenStep(filters)
  {
    var current := DefaultStepSize;
    var i := 0;
    while i < |filters|
      invariant 0 <= i <= |filters|
      invariant ChosenStep(filters[..i]) == Some(current)
    {
      assert filters[..i + 1][..i] == filters[..i];
      var f := filters[i];
      if f.filterType.None? {
        ChosenStepAborts(filters, i);
        return None;
      }
      if f.filterType.value == "LOT_SIZE" {
        current := f.stepSize.GetOr(DefaultStepSize);
      }
      i := i + 1;
    }
    assert filters[..i] == filters;
    return Some(current);
  }

  /** Once the loop has met a filter without a type, the outcome is the abort, whatever follows. */
  lemma {:induction false} ChosenStepAborts(filters: seq<Filter>, i: nat)
    requires i < |filters| && filters[i].filterType.None?
    ensures ChosenStep(filters) == None
    decreases |filters|
  {
    var n := |filters| - 1;
    if i < n {
      assert filters[..n][i] == filters[i];
      ChosenStepAborts(filters[..n], i);
    }
  }

  /** With every filter typed, the step is the last LOT_SIZE filter's (or the default when it has none). */
  lemma {:induction false} LastLotSizeWins(filters: seq<Filter>, i: nat)
    requires AllTyped(filters)
    requires i < |filters| && IsLotSize(filters[i])
    requires forall j :: i < j < |filters| ==> !IsLotSize(filters[j])
    ensures ChosenStep(filters) == Some(filters[i].stepSize.GetOr(DefaultStepSize))
    decreases |filters|
  {
    var n := |filters| - 1;
    assert AllTyped(filters[..n]);
    TypedNeverAborts(filters[..n]);
    if i < n {
      assert filters[..n][i] == filters[i];
      LastLotSizeWins(filters[..n], i);
      assert !IsLotSize(filters[n]);
    }
  }

  /** With every filter typed the loop never aborts. */
  lemma {:induction false} TypedNeverAborts(filters: seq<Filter>)
    requires AllTyped(filters)
    ensures ChosenStep(filters).Some?
    decreases |filters|
  {
    if filters != [] {
      var n := |filters| - 1;
      assert AllTyped(filters[..n]);
      TypedNeverAborts(filters[..n]);
    }
  }

  /** With every filter typed and none of them LOT_SIZE, the step is 0.00001. */
  lemma {:induction false} NoLotSizeMeansDefault(filters: seq<Filter>)
    requires AllTyped(filters)
    requires forall j :: 0 <= j < |filters| ==> !IsLotSize(filters[j])
    ensures ChosenStep(filters) == Some(DefaultStepSize)
    decreases |filters|
  {
    if filters != [] {
      var n := |filters| - 1;
      assert AllTyped(filters[..n]);
      NoLotSizeMeansDefault(filters[..n]);
    }
  }

  // ---------------------------------------------------------------------------
  // Quantity shaping

  /** Python's `int()` on a float: truncation toward zero. */
  function Trunc(x: real): int {
    if x >= 0.0 then x.Floor else -((-x).Floor)
  }

  /** `float(int(target / step) * step)` */
  function Normalize(target: real, step: real): real
    requires step != 0.0
  {
    (Trunc(target / step) as real) * step
  }

  /** A sell within 1% of the holdings becomes a sell of exactly the holdings. */
  function SmartSellTarget(requested: real, holdings: real): (t: real)
    ensures t == requested || t == holdings
    ensures t == holdings <==> requested >= holdings * FullExitShare || requested == holdings
  {
    if requested >= holdings * FullExitShare then holdings else requested
  }

  /**
   * For a non-negative target the normalised quantity is a whole number of steps, never
   * above the target, and less than one step below it.
   */
  lemma NormalizeFloors(target: real, step: real)
    requires step > 0.0 && target >= 0.0
    ensures var n := Normalize(target, step);
      0.0 <= n <= target && target - n < step
      && n == (Trunc(target / step) as real) * step && Trunc(target / step) >= 0
  {
    var q := target / step;
    var k := Trunc(q);
    assert k == q.Floor;
    WithinOneStep(target, step, q, k as real);
  }

  /** `k <= target/step < k + 1` puts `k * step` within one step below the target. */
  lemma WithinOneStep(target: real, step: real, q: real, k: real)
    requires step > 0.0 && q == target / step && 0.0 <= k <= q < k + 1.0
    ensures 0.0 <= k * step <= target && target - k * step < step
  {
    assert target == q * step;
    MultiplyKeepsOrder(0.0, k, step);
    MultiplyKeepsOrder(k, q, step);
    MultiplyKeepsStrictOrder(q - k, 1.0, step);
    calc {
      target - k * step;
    ==
      q * step - k * step;
    ==
      (q - k) * step;
    <
      1.0 * step;
    ==
      step;
    }
  }

  /** A target below one step (or not positive) normalises to nothing: it is dust and is not sent. */
  lemma DustIsNotSent(target: real, step: real)
    requires step > 0.0 && target < step
    ensures Normalize(target, step) <= 0.0
  {
    var q := target / step;
    if target >= 0.0 {
      assert target == q * step;
      if q >= 1.0 {
        MultiplyKeepsOrder(1.0, q, step);
        calc {
          step;
        ==
          1.0 * step;
        <=
          q * step;
        ==
          target;
        }
        assert false;
      }
      assert Trunc(q) == 0;
    } else {
      assert q < 0.0 by {
        assert target == q * step;
        if q >= 0.0 { MultiplyKeepsOrder(0.0, q, step); }
      }
      assert Trunc(q) <= 0;
      MultiplyKeepsOrder(Trunc(q) as real, 0.0, step);
    }
  }

  // ---------------------------------------------------------------------------
  // Fill price

  function SumQty(fills: seq<FillReport>): real
    decreases |fills|
  {
    if fills == [] then 0.0 else SumQty(fills[..|fills| - 1]) + fills[|fills| - 1].qty
  }

  function SumNotional(fills: seq<FillReport>): real
    decreases |fills|
  {
    if fills == [] then 0.0
    else SumNotional(fills[..|fills| - 1]) + fills[|fills| - 1].price * fills[|fills| - 1].qty
  }

  /** The quantity-weighted average of the fills, or 0 when their quantities sum to 0 or less. */
  function AverageFillPrice(fills: seq<FillReport>): real {
    var total := SumQty(fills);
    if total > 0.0 then SumNotional(fills) / total else 0.0
  }

  /** `cummulativeQuoteQty / executedQty` with defaults 0 and 1; None when the divisor is 0 (the division raises). */
  function FallbackPrice(reply: OrderReply): Option<real> {
    var executed := reply.executedQty.GetOr(1.0);
    if executed == 0.0 then None else Some(reply.cumulativeQuoteQty.GetOr(0.0) / executed)
  }

  /** The price recorded for a reply: the fills' average when there are fills, else the fallback. */
  function ReplyPrice(reply: OrderReply): Option<real> {
    if reply.fills != [] then Some(AverageFillPrice(reply.fills)) else FallbackPrice(reply)
  }

  predicate PricesWithin(fills: seq<FillReport>, lo: real, hi: real) {
    forall i :: 0 <= i < |fills| ==> lo <= fills[i].price <= hi && fills[i].qty >= 0.0
  }

  /** `c` times each fill's quantity, summed: `c * SumQty(fills)` built one fill at a time. */
  function ScaledQty(fills: seq<FillReport>, c: real): real
    decreases |fills|
  {
    if fills == [] then 0.0 else ScaledQty(fills[..|fills| - 1], c) + c * fills[|fills| - 1].qty
  }

  lemma {:induction false} ScaledQtyIsProduct(fills: seq<FillReport>, c: real)
    ensures ScaledQty(fills, c) == c * SumQty(fills)
    decreases |fills|
  {
    if fills != [] {
      var init, f := fills[..|fills| - 1], fills[|fills| - 1];
      ScaledQtyIsProduct(init, c);
      Distribute(c, SumQty(init), f.qty);
    }
  }

  lemma {:induction false} NotionalWithinScaled(fills: seq<FillReport>, lo: real, hi: real)
    requires PricesWithin(fills, lo, hi)
    ensures ScaledQty(fills, lo) <= SumNotional(fills) <= ScaledQty(fills, hi)
    decreases |fills|
  {
    if fills != [] {
      var init, f := fills[..|fills| - 1], fills[|fills| - 1];
      assert PricesWithin(init, lo, hi);
      NotionalWithinScaled(init, lo, hi);
      MultiplyKeepsOrder(lo, f.price, f.qty);
      MultiplyKeepsOrder(f.price, hi, f.qty);
    }
  }

  /** The notional of fills priced within `[lo, hi]` lies between `lo` and `hi` times their quantity. */
  lemma NotionalBetween(fills: seq<FillReport>, lo: real, hi: real)
    requires PricesWithin(fills, lo, hi)
    ensures lo * SumQty(fills) <= SumNotional(fills) <= hi * SumQty(fills)
  {
    NotionalWithinScaled(fills, lo, hi);
    ScaledQtyIsProduct(fills, lo);
    ScaledQtyIsProduct(fills, hi);
  }

  /** With non-negative quantities of positive total, the average lies between the lowest and highest fill price. */
  lemma AverageWithinFills(fills: seq<FillReport>, lo: real, hi: real)
    requires PricesWithin(fills, lo, hi) && SumQty(fills) > 0.0
    ensures lo <= AverageFillPrice(fills) <= hi
  {
    NotionalBetween(fills, lo, hi);
    QuotientBetween(SumNotional(fills), SumQty(fills), lo, hi);
  }

  // ---------------------------------------------------------------------------
  // One order, end to end

  /** `sync_balances`: the BRL read sets the balance, then the BTC read the holdings; a raise stops there. */
  function Synced(funds: Funds, reply: BalanceReply): Funds {
    if reply.brl.None? then funds
    else if reply.btc.None? then funds.(balance := reply.brl.value)
    else Funds(reply.brl.value, reply.btc.value)
  }

  /** The quantity `place_order` aims at, after the smart-sell adjustment. */
  function Target(order: Order, holdings: real): real {
    if order.side == Sell then SmartSellTarget(order.quantity, holdings) else order.quantity
  }

  /** The whole of `place_order`: every raise in the outer block ends in `rejected`. */
  function Execute(order: Order, funds: Funds, ex: Exchange, now: real): Execution {
    var rejected := order.(status := Rejected);
    match ex.symbolFilters
    case None => Execution(rejected, None, funds)
    case Some(filters) =>
      match ChosenStep(filters)
      case None => Execution(rejected, None, funds)
      case Some(step) =>
        var before := if order.side == Sell then Synced(funds, ex.balancesBeforeSell) else funds;
        var target := Target(order, before.holdings);
        if step <= 0.0 then Execution(rejected, None, before)
        else
          var quantity := Normalize(target, step);
          if quantity <= 0.0 then Execution(order, None, before)
          else
            match ex.orderReply
            case None => Execution(rejected, Some(quantity), before)
            case Some(reply) =>
              match ReplyPrice(reply)
              case None => Execution(rejected, Some(quantity), before)
              case Some(price) =>
                var status := if reply.status == "FILLED" then Filled else Open;
                Execution(order.(status := status, filledPrice := price, filledAt := Some(now)),
                          Some(quantity), Synced(before, ex.balancesAfterOrder))
  }

  /**
   * The quantity sent is the normalised target: positive, a whole number of steps, and never
   * above the target; a sell aims at the full holdings when it asks for 99% of them or more.
   */
  lemma SubmittedIsFlooredTarget(order: Order, funds: Funds, ex: Exchange, now: real)
    requires ex.symbolFilters.Some? && ChosenStep(ex.symbolFilters.value).Some?
    ensures var e := Execute(order, funds, ex, now);
      var step := ChosenStep(ex.symbolFilters.value).value;
      var before := if order.side == Sell then Synced(funds, ex.balancesBeforeSell) else funds;
      var target := Target(order, before.holdings);
      e.submitted.Some? ==>
        step > 0.0 && e.submitted.value == Normalize(target, step)
        && 0.0 < e.submitted.value <= target && target - e.submitted.value < step
  {
    var e := Execute(order, funds, ex, now);
    var step := ChosenStep(ex.symbolFilters.value).value;
    var before := if order.side == Sell then Synced(funds, ex.balancesBeforeSell) else funds;
    var target := Target(order, before.holdings);
    if e.submitted.Some? {
      if target < 0.0 {
        DustIsNotSent(target, step);
      } else {
        NormalizeFloors(target, step);
      }
    }
  }

  /**
   * A target under one step is dust: the order comes back unchanged, nothing is sent, and
   * the funds are at most refreshed by the pre-sell read.
   */
  lemma DustSkipsExchange(order: Order, funds: Funds, ex: Exchange, now: real)
    requires ex.symbolFilters.Some? && ChosenStep(ex.symbolFilters.value).Some?
    requires var step := ChosenStep(ex.symbolFilters.value).value;
      var before := if order.side == Sell then Synced(funds, ex.balancesBeforeSell) else funds;
      step > 0.0 && Target(order, before.holdings) < step
    ensures var e := Execute(order, funds, ex, now);
      e.order == order && e.submitted == None
      && e.funds == (if order.side == Sell then Synced(funds, ex.balancesBeforeSell) else funds)
  {
    var step := ChosenStep(ex.symbolFilters.value).value;
    var before := if order.side == Sell then Synced(funds, ex.balancesBeforeSell) else funds;
    DustIsNotSent(Target(order, before.holdings), step);
  }

  /**
   * The order ends `rejected` exactly when a step of the outer block raised; it ends
   * `filled` exactly when the reply says FILLED and the price could be computed.
   */
  lemma ExecuteOutcome(order: Order, funds: Funds, ex: Exchange, now: real)
    requires order.status == Open
    ensures var e := Execute(order, funds, ex, now);
      var sent := e.submitted.Some?;
      (e.order.status == Rejected <==>
        ex.symbolFilters.None? || ChosenStep(ex.symbolFilters.value).None?
        || ChosenStep(ex.symbolFilters.value).value <= 0.0
        || (sent && (ex.orderReply.None? || ReplyPrice(ex.orderReply.value).None?)))
      && (e.order.status == Filled <==>
        sent && ex.orderReply.Some? && ReplyPrice(ex.orderReply.value).Some?
        && ex.orderReply.value.status == "FILLED")
      && (e.order.status == Filled ==> e.order.filledPrice == ReplyPrice(ex.orderReply.value).value)
      && SameIdentity(order, e.order)
  {
  }

  /** A reply with fills is priced at their weighted average; without fills, by the fallback division. */
  lemma ReplyPriceChoice(reply: OrderReply)
    ensures reply.fills != [] ==> ReplyPrice(reply) == Some(AverageFillPrice(reply.fills))
    ensures reply.fills == [] && reply.executedQty == None ==>
      ReplyPrice(reply) == Some(reply.cumulativeQuoteQty.GetOr(0.0))
    ensures reply.fills == [] && reply.executedQty.Some? && reply.executedQty.value != 0.0 ==>
      ReplyPrice(reply) == Some(reply.cumulativeQuoteQty.GetOr(0.0) / reply.executedQty.value)
    ensures reply.fills == [] && reply.executedQty == Some(0.0) ==> ReplyPrice(reply) == None
  {
  }

  // ---------------------------------------------------------------------------
  // The broker object

  class RealBroker {
    var balance: real
    var holdings: real
    /** Never appended to: live orders are not kept locally. */
    var orders: seq<Order>
    var lastSync: real

    function CurrentFunds(): Funds
      reads this
    {
      Funds(balance, holdings)
    }

    /** Connects and reads the balances once; the resync timer starts at 0. */
    constructor (initial: BalanceReply)
      ensures CurrentFunds() == Synced(Funds(0.0, 0.0), initial)
      ensures orders == [] && lastSync == 0.0
    {
      balance := 0.0;
      holdings := 0.0;
      orders := [];
      new;
      SyncBalances(initial);
      lastSync := 0.0;
    }

    method SyncBalances(reply: BalanceReply)
      modifies this`balance, this`holdings
      ensures CurrentFunds() == Synced(old(CurrentFunds()), reply)
    {
      if reply.brl.None? {
        return;
      }
      balance := reply.brl.value;
      if reply.btc.None? {
        return;
      }
      holdings := reply.btc.value;
    }

    /** Shapes and sends one market order; returns the updated order and the quantity sent, if any. */
    method PlaceOrder(order: Order, ex: Exchange, now: real) returns (r: Order, submitted: Option<real>)
      modifies this`balance, this`holdings
      ensures Execution(r, submitted, CurrentFunds()) == Execute(order, old(CurrentFunds()), ex, now)
    {
      if ex.symbolFilters.None? {
        return order.(status := Rejected), None;
      }
      var step := SelectStepSize(ex.symbolFilters.value);
      if step.None? {
        return order.(status := Rejected), None;
      }
      var target := order.quantity;
      if order.side == Sell {
        SyncBalances(ex.balancesBeforeSell);
        if target >= holdings * FullExitShare {
          target := holdings;
        }
      }
      if step.value <= 0.0 {
        return order.(status := Rejected), None;
      }
      var quantity := Normalize(target, step.value);
      if quantity <= 0.0 {
        return order, None;
      }
      submitted := Some(quantity);
      if ex.orderReply.None? {
        return order.(status := Rejected), submitted;
      }
      var reply := ex.orderReply.value;
      var status := if reply.status == "FILLED" then Filled else Open;
      var recorded := ReplyPrice(reply);
      if recorded.None? {
        return order.(status := Rejected), submitted;
      }
      var price := recorded.value;
      r := order.(status := status, filledPrice := price, filledAt := Some(now));
      SyncBalances(ex.balancesAfterOrder);
    }

    /** Cancelling is not supported for instantly filled market orders: nothing changes. */
    method CancelOrder(orderId: string)
      ensures CurrentFunds() == old(CurrentFunds()) && orders == old(orders) && lastSync == old(lastSync)
    {
    }

    /** Re-reads the balances when more than 60 seconds have passed since the last read. */
    method ProcessDataTick(currentPrice: real, now: real, reply: BalanceReply)
      modifies this`balance, this`holdings, this`lastSync
      ensures now - old(lastSync) > ResyncSeconds ==>
        CurrentFunds() == Synced(old(CurrentFunds()), reply) && lastSync == now
      ensures now - old(lastSync) <= ResyncSeconds ==>
        CurrentFunds() == old(CurrentFunds()) && lastSync == old(lastSync)
    {
      if now - lastSync > ResyncSeconds {
        SyncBalances(reply);
        lastSync := now;
      }
    }
  }
}
