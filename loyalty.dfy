/** The loyalty ("brasas") accounting: a balance recomputed on demand from a
    customer's orders and line items, never stored. The storefront and the
    client area use the same formula with different constants, so the unit
    price and the reward threshold are parameters here. */
module Loyalty {
  import opened Common
  import opened Orders

  /** Client area: `PRECO_CARVAO = 1` (one real, in cents) and `META_BRASAS = 2`. */
  const ClientUnitPrice: nat := 100
  const ClientThreshold: nat := 2

  /** Storefront: brasas are earned per product price and a free bag costs 10. */
  const StorefrontThreshold: nat := 10

  /** `.filter((p) => p.status === "RETIRADO")`. */
  function DeliveredOrders(orders: seq<Order>): (r: seq<Order>)
    ensures forall o :: o in r <==> o in orders && o.status == Delivered
  {
    if orders == [] then []
    else (if orders[0].status == Delivered then [orders[0]] else []) + DeliveredOrders(orders[1..])
  }

  /** `valorGasto`: the totals of the picked-up orders, summed. */
  function Spent(orders: seq<Order>): nat {
    SumTotals(DeliveredOrders(orders))
  }

  /** `resgatesUsados`: 0 when the customer has no orders (the query is
      skipped); otherwise the quantities of every price-0 item of any of the
      customer's orders, whatever that order's status. */
  function RedeemedUnits(orders: seq<Order>, items: seq<Item>): nat {
    if |orders| == 0 then 0
    else SumQty(FreeItems(ItemsOfOrders(items, Ids(orders))))
  }

  /** `brasasGeradas - resgatesUsados * threshold` with
      `brasasGeradas = Math.floor(valorGasto / unitPrice)`. Never clamped. */
  function Balance(orders: seq<Order>, items: seq<Item>, unitPrice: nat, threshold: nat): int
    requires unitPrice > 0
  {
    Spent(orders) / unitPrice - RedeemedUnits(orders, items) * threshold
  }

  /** `recompensasDisponiveis = Math.floor(balance / threshold)`. */
  function Rewards(balance: int, threshold: nat): int
    requires threshold > 0
  {
    balance / threshold
  }

  /** `progressoAtual = balance % threshold`, with JavaScript's remainder. */
  function Progress(balance: int, threshold: nat): int
    requires threshold > 0
  {
    JsRem(balance, threshold)
  }

  /** `progressoPorcentagem = (progress / threshold) * 100`. */
  function ProgressPercent(balance: int, threshold: nat): real
    requires threshold > 0
  {
    (Progress(balance, threshold) as real / threshold as real) * 100.0
  }

  // ---------------------------------------------------------------------

  lemma {:induction false} DeliveredOrdersAppend(a: seq<Order>, b: seq<Order>)
    ensures DeliveredOrders(a + b) == DeliveredOrders(a) + DeliveredOrders(b)
  {
    if a == [] {
      assert a + b == b;
    } else {
      assert (a + b)[0] == a[0];
      assert (a + b)[1..] == a[1..] + b;
      DeliveredOrdersAppend(a[1..], b);
    }
  }

  /** Spending splits over any division of the history into two parts. */
  lemma SpentAppend(a: seq<Order>, b: seq<Order>)
    ensures Spent(a + b) == Spent(a) + Spent(b)
  {
    DeliveredOrdersAppend(a, b);
    SumTotalsAppend(DeliveredOrders(a), DeliveredOrders(b));
  }

  /** The order in which the rows come back does not change the spending:
      any two arrangements of the same rows spend the same. */
  lemma {:induction false} SpentOrderIndependent(a: seq<Order>, b: seq<Order>)
    requires multiset(a) == multiset(b)
    ensures Spent(a) == Spent(b)
    decreases |a|
  {
    if a == [] {
      assert |b| == |multiset(b)| == 0;
    } else {
      assert a[0] in multiset(b);
      var j :| 0 <= j < |b| && b[j] == a[0];
      var rest := SpentWithout(b, j);
      assert a == [a[0]] + a[1..];
      MultisetCancel(a[0], multiset(a[1..]), multiset(rest));
      SpentOrderIndependent(a[1..], rest);
      SpentAppend([a[0]], a[1..]);
    }
  }

  lemma MultisetCancel<T>(x: T, p: multiset<T>, q: multiset<T>)
    requires multiset{x} + p == multiset{x} + q
    ensures p == q
  {
    forall y ensures p[y] == q[y] {
      assert (multiset{x} + p)[y] == (multiset{x} + q)[y];
    }
  }

  /** Taking row `j` out of a history: the rest keeps the other rows and
      spends what the whole did less that row's share. */
  lemma SpentWithout(b: seq<Order>, j: int) returns (rest: seq<Order>)
    requires 0 <= j < |b|
    ensures multiset(b) == multiset{b[j]} + multiset(rest)
    ensures Spent(b) == Spent([b[j]]) + Spent(rest)
  {
    var before, after := b[..j], b[j + 1..];
    rest := before + after;
    assert b == before + [b[j]] + after;
    SpentAppend(before + [b[j]], after);
    SpentAppend(before, [b[j]]);
    SpentAppend(before, after);
  }

  /** Only a picked-up order earns: one more order adds its total to the
      spending exactly when its status is `RETIRADO`. */
  lemma OnlyDeliveredEarn(orders: seq<Order>, o: Order)
    ensures Spent(orders + [o]) == Spent(orders) + (if o.status == Delivered then o.total else 0)
  {
    SpentAppend(orders, [o]);
    assert [o][1..] == [];
    assert DeliveredOrders([o]) == (if o.status == Delivered then [o] else []) + DeliveredOrders([]);
    if o.status == Delivered {
      assert DeliveredOrders([o]) == [o];
      assert SumTotals([o]) == o.total + SumTotals([]);
    } else {
      assert DeliveredOrders([o]) == [];
    }
  }

  /** Skipping the query for a customer without orders gives what the query
      itself would give. */
  lemma RedeemedUnitsIsQuery(orders: seq<Order>, items: seq<Item>)
    ensures RedeemedUnits(orders, items) == SumQty(FreeItems(ItemsOfOrders(items, Ids(orders))))
  {
    if |orders| == 0 {
      assert Ids(orders) == [];
      ItemsOfNoOrders(items);
    }
  }

  lemma {:induction false} MulNegative(q: int, t: int)
    requires q < 0 && t > 0
    ensures q * t <= -t
    decreases -q
  {
    if q < -1 {
      MulNegative(q + 1, t);
      assert q * t == (q + 1) * t - t;
    }
  }

  /** For a non-negative balance, rewards and progress split it: every
      `threshold` brasas make one reward and the rest is the progress. */
  lemma RewardsAndProgress(balance: int, threshold: nat)
    requires threshold > 0 && balance >= 0
    ensures Rewards(balance, threshold) * threshold + Progress(balance, threshold) == balance
    ensures 0 <= Progress(balance, threshold) < threshold
    ensures Rewards(balance, threshold) >= 0
  {
    var q, r := balance / threshold, balance % threshold;
    assert q * threshold + r == balance;
    if q < 0 {
      MulNegative(q, threshold);
    }
  }

  /** With the client area's threshold of 2, a negative balance gives a
      negative reward count and a progress of 0 or -1, and for an odd balance
      the two no longer add up to it. */
  lemma NegativeBalanceInClientArea(balance: int)
    requires balance < 0
    ensures Rewards(balance, ClientThreshold) < 0
    ensures -1 <= Progress(balance, ClientThreshold) <= 0
    ensures balance % 2 == 0 ==>
      Rewards(balance, ClientThreshold) * 2 + Progress(balance, ClientThreshold) == balance
    ensures balance % 2 == 1 ==>
      Rewards(balance, ClientThreshold) * 2 + Progress(balance, ClientThreshold) == balance - 2
  {
  }

  /** The progress bar stays within [0, 100) for a non-negative balance and
      goes below zero for a negative one that is not a multiple of the threshold. */
  lemma ProgressPercentRange(balance: int, threshold: nat)
    requires threshold > 0
    ensures balance >= 0 ==> 0.0 <= ProgressPercent(balance, threshold) < 100.0
    ensures balance < 0 ==> -100.0 < ProgressPercent(balance, threshold) <= 0.0
  {
    var p := Progress(balance, threshold);
    var t := threshold as real;
    assert ProgressPercent(balance, threshold) == (p as real / t) * 100.0;
    if balance >= 0 {
      assert 0.0 <= p as real < t;
    } else {
      assert -t < p as real <= 0.0;
    }
  }

  /** The balance is not clamped at 0: a customer holding a redeemed free bag
      on an order not yet picked up has a negative balance in the client area. */
  lemma BalanceCanBeNegative()
    ensures
      var o := NewOrder("p1", "u1", 0, Paid, 0);
      var free := Item("p1", "carvao", 1, 0);
      Balance([o], [free], ClientUnitPrice, ClientThreshold) == -2
      && Rewards(-2, ClientThreshold) == -1
      && Progress(-2, ClientThreshold) == 0
  {
    var o := NewOrder("p1", "u1", 0, Paid, 0);
    var free := Item("p1", "carvao", 1, 0);
    assert DeliveredOrders([o]) == [] + DeliveredOrders([]);
    assert Ids([o]) == ["p1"];
    assert ItemsOfOrders([free], ["p1"]) == [free] + ItemsOfOrders([], ["p1"]);
    assert FreeItems([free]) == [free] + FreeItems([]);
  }
}
