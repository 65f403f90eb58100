/**
 * The two entry points of the engine: the fees of a batch of orders, and
 * the fund distributions of the batch, per order and reconciled over all
 * orders.
 */
module Engine {
  import opened Wrappers
  import opened Errors
  import opened FeeSchedule
  import opened Pricing
  import opened Allocations
  import opened Distribution

  /** An incoming order: its number and its items. */
  datatype Order = Order(orderNumber: int, orderItems: seq<OrderItem>)

  /** The fees of one order, identified by its order number. */
  datatype OrderFees = OrderFees(id: int, orderItems: seq<PricedItem>, totalFees: Option<real>, additionalPriceAmount: real)

  /** The reconciled fund distributions of one order. */
  datatype OrderDistribution = OrderDistribution(id: int, distributions: seq<Allocation>)

  /** The distributions of a batch: one entry per order and the reconciled total. */
  datatype BatchDistributions = BatchDistributions(orders: seq<OrderDistribution>, totalDistributions: seq<Allocation>)

  /** Every item of the order can be priced against the schedule. */
  ghost predicate OrderPriceable(s: Schedule, o: Order)
  {
    forall i :: 0 <= i < |o.orderItems| ==> CanPrice(s, o.orderItems[i])
  }

  /** `f` is the fee record of order `o`. */
  ghost predicate FeesFor(s: Schedule, o: Order, f: OrderFees)
  {
    && f.id == o.orderNumber
    && OrderItemFees(s, o.orderItems) == Success(OrderTotals(f.orderItems, f.totalFees, f.additionalPriceAmount))
  }

  /**
   * `createOrdersFees`: one fee record per order, in order, identified by
   * the order number.
   */
  function OrdersFees(s: Schedule, orders: seq<Order>): (r: Result<seq<OrderFees>, EngineError>)
    ensures r.Success? <==> forall k :: 0 <= k < |orders| ==> OrderPriceable(s, orders[k])
    ensures r.Success? ==> |r.value| == |orders|
    ensures r.Success? ==> forall k :: 0 <= k < |orders| ==> FeesFor(s, orders[k], r.value[k])
  {
    if |orders| == 0 then Success([])
    else
      var p := orders[..|orders| - 1];
      var o := orders[|orders| - 1];
      PriceablePrefix(s, orders, p, o);
      var pre :- OrdersFees(s, p);
      var t :- OrderItemFees(s, o.orderItems);
      var f := OrderFees(o.orderNumber, t.orderItems, t.totalFees, t.additionalPriceAmount);
      FeesAppend(s, orders, pre, f);
      Success(pre + [f])
  }

  /** Every order is priceable exactly when all but the last are and the last is. */
  lemma PriceablePrefix(s: Schedule, orders: seq<Order>, p: seq<Order>, o: Order)
    requires |orders| > 0 && p == orders[..|orders| - 1] && o == orders[|orders| - 1]
    ensures (forall k :: 0 <= k < |orders| ==> OrderPriceable(s, orders[k]))
        <==> (forall k :: 0 <= k < |p| ==> OrderPriceable(s, p[k])) && OrderPriceable(s, o)
  {
    assert forall k :: 0 <= k < |p| ==> p[k] == orders[k];
  }

  lemma FeesAppend(s: Schedule, orders: seq<Order>, pre: seq<OrderFees>, f: OrderFees)
    requires |orders| == |pre| + 1
    requires forall k :: 0 <= k < |pre| ==> FeesFor(s, orders[..|pre|][k], pre[k])
    requires FeesFor(s, orders[|pre|], f)
    ensures forall k :: 0 <= k < |orders| ==> FeesFor(s, orders[k], (pre + [f])[k])
  {
    var r := pre + [f];
    forall k | 0 <= k < |orders|
      ensures FeesFor(s, orders[k], r[k])
    {
      if k < |pre| {
        assert orders[..|pre|][k] == orders[k];
        assert r[k] == pre[k];
      }
    }
  }

  /** A priced order's items carry prices, their types are in the schedule, and its additional amount is theirs. */
  lemma {:induction false} PricedOrder(s: Schedule, o: Order, f: OrderFees)
    requires FeesFor(s, o, f)
    ensures |f.orderItems| == |o.orderItems|
    ensures AllWellPriced(f.orderItems)
    ensures Covers(s, f.orderItems)
    ensures f.additionalPriceAmount == TotalAdditional(f.orderItems)
  {
    var t := OrderItemFees(s, o.orderItems).value;
    OrderTotalsMeaning(s, o.orderItems);
    forall i | 0 <= i < |f.orderItems|
      ensures Recognised(f.orderItems[i].itemType) ==> f.orderItems[i].itemType in s
    {
      assert PricesAs(s, o.orderItems[i], Success(t.orderItems[i]));
    }
  }

  lemma {:induction false} PricedOrders(s: Schedule, orders: seq<Order>, fees: seq<OrderFees>)
    requires |fees| == |orders|
    requires forall k :: 0 <= k < |orders| ==> FeesFor(s, orders[k], fees[k])
    ensures forall k :: 0 <= k < |fees| ==> fees[k].id == orders[k].orderNumber
    ensures forall k :: 0 <= k < |fees| ==> |fees[k].orderItems| == |orders[k].orderItems|
    ensures forall k :: 0 <= k < |fees| ==> AllWellPriced(fees[k].orderItems) && Covers(s, fees[k].orderItems)
    ensures forall k :: 0 <= k < |fees| ==> fees[k].additionalPriceAmount == TotalAdditional(fees[k].orderItems)
  {
    forall k | 0 <= k < |fees|
      ensures fees[k].id == orders[k].orderNumber
      ensures |fees[k].orderItems| == |orders[k].orderItems|
      ensures AllWellPriced(fees[k].orderItems) && Covers(s, fees[k].orderItems)
      ensures fees[k].additionalPriceAmount == TotalAdditional(fees[k].orderItems)
    {
      PricedOrder(s, orders[k], fees[k]);
    }
  }

  /** `d` is the distribution record of the order with fee record `f`. */
  ghost predicate DistributesAs(s: Schedule, f: OrderFees, d: OrderDistribution)
  {
    && AllWellPriced(f.orderItems)
    && d.id == f.id
    && FundDistributions(s, f.orderItems, f.totalFees, f.additionalPriceAmount) == Success(d.distributions)
  }

  /** The per-order step of `createOrderDistributions`: each order's items split and reconciled. */
  function DistributeOrders(s: Schedule, fees: seq<OrderFees>): (r: Result<seq<OrderDistribution>, EngineError>)
    requires forall k :: 0 <= k < |fees| ==> AllWellPriced(fees[k].orderItems)
    ensures r.Success? ==> |r.value| == |fees|
    ensures r.Success? ==> forall k :: 0 <= k < |fees| ==> DistributesAs(s, fees[k], r.value[k])
    ensures r.Success? ==> forall k :: 0 <= k < |fees| ==> r.value[k].id == fees[k].id
  {
    if |fees| == 0 then Success([])
    else
      var p := fees[..|fees| - 1];
      WellPricedPrefix(fees, p);
      var pre :- DistributeOrders(s, p);
      var f := fees[|fees| - 1];
      var d :- FundDistributions(s, f.orderItems, f.totalFees, f.additionalPriceAmount);
      DistributesAppend(s, fees, pre, OrderDistribution(f.id, d));
      Success(pre + [OrderDistribution(f.id, d)])
  }

  /** All but the last fee record are well priced when all of them are. */
  lemma WellPricedPrefix(fees: seq<OrderFees>, p: seq<OrderFees>)
    requires |fees| > 0 && p == fees[..|fees| - 1]
    requires forall k :: 0 <= k < |fees| ==> AllWellPriced(fees[k].orderItems)
    ensures forall k :: 0 <= k < |p| ==> AllWellPriced(p[k].orderItems)
  {
    assert forall k :: 0 <= k < |p| ==> p[k] == fees[k];
  }

  lemma DistributesAppend(s: Schedule, fees: seq<OrderFees>, pre: seq<OrderDistribution>, d: OrderDistribution)
    requires |fees| == |pre| + 1
    requires forall k :: 0 <= k < |pre| ==> DistributesAs(s, fees[..|pre|][k], pre[k])
    requires DistributesAs(s, fees[|pre|], d)
    ensures forall k :: 0 <= k < |fees| ==> DistributesAs(s, fees[k], (pre + [d])[k])
    ensures forall k :: 0 <= k < |fees| ==> (pre + [d])[k].id == fees[k].id
  {
    var r := pre + [d];
    forall k | 0 <= k < |fees|
      ensures DistributesAs(s, fees[k], r[k])
    {
      if k < |pre| {
        assert fees[..|pre|][k] == fees[k];
        assert r[k] == pre[k];
      }
    }
  }

  /**
   * Distributing succeeds exactly when every order has items whose types
   * the schedule covers; when the schedule covers every type, the only
   * failure is an empty order.
   */
  lemma {:induction false} DistributeOrdersOutcome(s: Schedule, fees: seq<OrderFees>)
    requires forall k :: 0 <= k < |fees| ==> AllWellPriced(fees[k].orderItems)
    ensures DistributeOrders(s, fees).Success? <==> forall k :: 0 <= k < |fees| ==> |fees[k].orderItems| > 0 && Covers(s, fees[k].orderItems)
    ensures DistributeOrders(s, fees).Failure? && (forall k :: 0 <= k < |fees| ==> Covers(s, fees[k].orderItems))
      ==> DistributeOrders(s, fees).error == EmptyReduce
  {
    if |fees| > 0 {
      var p := fees[..|fees| - 1];
      assert forall k :: 0 <= k < |p| ==> p[k] == fees[k];
      DistributeOrdersOutcome(s, p);
    }
  }

  /** The distribution lists of the orders, in order. */
  function DistributionLists(orders: seq<OrderDistribution>): (r: seq<seq<Allocation>>)
    ensures |r| == |orders|
    ensures forall k :: 0 <= k < |orders| ==> r[k] == orders[k].distributions
  {
    seq(|orders|, k requires 0 <= k < |orders| => orders[k].distributions)
  }

  /**
   * `calculateDistTotal`: reconciles the orders' distributions into one
   * list; an empty batch fails, as reconciliation reduces without a seed.
   */
  function DistributionTotal(orders: seq<OrderDistribution>): (r: Result<seq<Allocation>, EngineError>)
    ensures r.Failure? <==> |orders| == 0
    ensures r.Failure? ==> r.error == EmptyReduce
    ensures r.Success? ==> Groups(r.value, Flatten(DistributionLists(orders)))
  {
    Reconcile(DistributionLists(orders))
  }

  /** The batch has orders, and every order has items that can all be priced. */
  ghost predicate Distributable(s: Schedule, orders: seq<Order>)
  {
    && |orders| > 0
    && forall k :: 0 <= k < |orders| ==> OrderPriceable(s, orders[k]) && |orders[k].orderItems| > 0
  }

  /**
   * `createOrderDistributions`: prices the batch, splits and reconciles
   * each order, and reconciles the orders into a batch total. It succeeds
   * exactly when every item can be priced, the batch is not empty and no
   * order is empty; an empty batch or an empty order fails as an empty
   * reduction.
   */
  function OrderDistributions(s: Schedule, orders: seq<Order>): (r: Result<BatchDistributions, EngineError>)
    ensures r.Success? <==>
      && |orders| > 0
      && forall k :: 0 <= k < |orders| ==> OrderPriceable(s, orders[k]) && |orders[k].orderItems| > 0
    ensures (forall k :: 0 <= k < |orders| ==> OrderPriceable(s, orders[k])) && r.Failure? ==> r.error == EmptyReduce
    ensures r.Success? ==> |r.value.orders| == |orders|
    ensures r.Success? ==> forall k :: 0 <= k < |orders| ==> r.value.orders[k].id == orders[k].orderNumber
  {
    var fees :- OrdersFees(s, orders);
    PricedOrders(s, orders, fees);
    DistributeOrdersOutcome(s, fees);
    var dists :- DistributeOrders(s, fees);
    var total :- DistributionTotal(dists);
    Success(BatchDistributions(dists, total))
  }

  // ---------------------------------------------------------------------
  // The batch total
  // ---------------------------------------------------------------------

  /** The pieces of a successful batch: its fee records and its per-order distributions. */
  lemma {:induction false} BatchParts(s: Schedule, orders: seq<Order>)
    requires Distributable(s, orders)
    ensures OrdersFees(s, orders).Success?
    ensures forall k :: 0 <= k < |orders| ==> AllWellPriced(OrdersFees(s, orders).value[k].orderItems)
    ensures forall k :: 0 <= k < |orders| ==> Covers(s, OrdersFees(s, orders).value[k].orderItems)
    ensures forall k :: 0 <= k < |orders| ==>
      OrdersFees(s, orders).value[k].additionalPriceAmount == TotalAdditional(OrdersFees(s, orders).value[k].orderItems)
    ensures DistributeOrders(s, OrdersFees(s, orders).value).Success?
    ensures OrderDistributions(s, orders).value.orders == DistributeOrders(s, OrdersFees(s, orders).value).value
    ensures Success(OrderDistributions(s, orders).value.totalDistributions) == Reconcile(DistributionLists(OrderDistributions(s, orders).value.orders))
  {
    assert OrdersFees(s, orders).Success?;
    var fees := OrdersFees(s, orders).value;
    PricedOrders(s, orders, fees);
    DistributeOrdersOutcome(s, fees);
    var dists := DistributeOrders(s, fees).value;
    assert OrderDistributions(s, orders) == Success(BatchDistributions(dists, DistributionTotal(dists).value));
  }

  /** The batch total reconciles the orders' distributions: per fund sums, first-seen order. */
  lemma {:induction false} BatchTotalGroups(s: Schedule, orders: seq<Order>)
    requires Distributable(s, orders)
    ensures Groups(OrderDistributions(s, orders).value.totalDistributions, Flatten(DistributionLists(OrderDistributions(s, orders).value.orders)))
  {
    BatchParts(s, orders);
  }

  /** The additional amounts of the fee records, added up. */
  function SumAdditional(fees: seq<OrderFees>): real
  {
    if |fees| == 0 then 0.0 else SumAdditional(fees[..|fees| - 1]) + fees[|fees| - 1].additionalPriceAmount
  }

  /**
   * Unless a fund of the schedule is itself called "Other", the "Other"
   * fund of the batch total receives exactly the additional amounts of all
   * orders' fee records.
   */
  lemma {:induction false} BatchOtherFund(s: Schedule, orders: seq<Order>)
    requires Distributable(s, orders)
    requires NoOtherShare(s)
    ensures SumFor(OrderDistributions(s, orders).value.totalDistributions, OtherFund) == SumAdditional(OrdersFees(s, orders).value)
  {
    BatchParts(s, orders);
    var fees := OrdersFees(s, orders).value;
    var dists := OrderDistributions(s, orders).value.orders;
    var lists := DistributionLists(dists);
    forall k | 0 <= k < |fees|
      ensures SumFor(lists[k], OtherFund) == fees[k].additionalPriceAmount
    {
      var f := fees[k];
      assert DistributesAs(s, f, dists[k]);
      OrderOtherFund(s, f.orderItems, f.totalFees, f.additionalPriceAmount);
    }
    ReconcileSumFor(lists, OtherFund);
    OtherSums(lists, fees);
  }

  lemma {:induction false} OtherSums(lists: seq<seq<Allocation>>, fees: seq<OrderFees>)
    requires |lists| == |fees|
    requires forall k :: 0 <= k < |fees| ==> SumFor(lists[k], OtherFund) == fees[k].additionalPriceAmount
    ensures SumForLists(lists, OtherFund) == SumAdditional(fees)
  {
    if |fees| > 0 {
      var n := |fees| - 1;
      assert forall k :: 0 <= k < n ==> lists[..n][k] == lists[k] && fees[..n][k] == fees[k];
      OtherSums(lists[..n], fees[..n]);
    }
  }

  /** Every order's items carry prices where recognised, and the schedule covers their types. */
  ghost predicate AllCovered(s: Schedule, fees: seq<OrderFees>)
  {
    forall k :: 0 <= k < |fees| ==> AllWellPriced(fees[k].orderItems) && Covers(s, fees[k].orderItems)
  }

  /** For each order, the allocations of all its item splits, one after the other. */
  ghost function ItemAllocations(s: Schedule, fees: seq<OrderFees>): (r: seq<seq<Allocation>>)
    requires AllCovered(s, fees)
    ensures |r| == |fees|
  {
    seq(|fees|, k requires 0 <= k < |fees| => Flatten(ItemDistributions(s, fees[k].orderItems).value))
  }

  /**
   * Reconciling per order and then across orders gives the same batch
   * total as reconciling every item split of the batch in one pass.
   */
  lemma {:induction false} BatchTotalIsOneReconciliation(s: Schedule, orders: seq<Order>)
    requires Distributable(s, orders)
    ensures AllCovered(s, OrdersFees(s, orders).value)
    ensures OrderDistributions(s, orders).value.totalDistributions == GroupByName(Flatten(ItemAllocations(s, OrdersFees(s, orders).value)))
  {
    BatchParts(s, orders);
    var fees := OrdersFees(s, orders).value;
    var dists := OrderDistributions(s, orders).value.orders;
    var items := ItemAllocations(s, fees);
    ListsAreGroupedItems(s, fees, dists);
    GroupOfGroups(items);
  }

  lemma {:induction false} ListsAreGroupedItems(s: Schedule, fees: seq<OrderFees>, dists: seq<OrderDistribution>)
    requires AllCovered(s, fees)
    requires |dists| == |fees|
    requires forall k :: 0 <= k < |fees| ==> DistributesAs(s, fees[k], dists[k])
    ensures DistributionLists(dists) == GroupEach(ItemAllocations(s, fees))
  {
    var items := ItemAllocations(s, fees);
    forall k | 0 <= k < |fees|
      ensures DistributionLists(dists)[k] == GroupEach(items)[k]
    {
      assert DistributesAs(s, fees[k], dists[k]);
    }
  }

  /** The batch total holds exactly the money of all item splits of the batch. */
  lemma {:induction false} BatchTotalConserved(s: Schedule, orders: seq<Order>)
    requires Distributable(s, orders)
    ensures AllCovered(s, OrdersFees(s, orders).value)
    ensures Total(OrderDistributions(s, orders).value.totalDistributions) == TotalOfLists(ItemAllocations(s, OrdersFees(s, orders).value))
  {
    BatchTotalIsOneReconciliation(s, orders);
    var items := ItemAllocations(s, OrdersFees(s, orders).value);
    GroupByNameTotal(Flatten(items));
    FlattenTotal(items);
  }
}
