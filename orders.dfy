/** The order and line-item ledgers (`pedidos`, `itens_pedido`), the product
    table (`produtos`), the reductions the pages compute over them, and the
    hosted database as a `Store` object whose tables the flows rewrite. */
module Orders {
  import opened Common

  /** The `status` column of `pedidos`. Any text other than the three the
      code writes is kept as `Other`. */
  datatype Status = AwaitingPayment | Paid | Delivered | Other(name: string)

  /** The text stored in the database for a status. */
  function StatusName(s: Status): string {
    match s
    case AwaitingPayment => "AGUARDANDO_PAGAMENTO"
    case Paid => "PAGO"
    case Delivered => "RETIRADO"
    case Other(n) => n
  }

  /** An `Other` status never spells one of the three known ones. */
  predicate Canonical(s: Status) {
    s.Other? ==> s.name !in {"AGUARDANDO_PAGAMENTO", "PAGO", "RETIRADO"}
  }

  /** The statuses a column can hold: the text "PAGO" is always `Paid`,
      never `Other("PAGO")`, so a comparison of the column with a known
      status text and a comparison of the status agree. */
  type CanonicalStatus = s: Status | Canonical(s) witness AwaitingPayment

  /** Reads a status column the way the comparisons in the code do. */
  function ParseStatus(text: string): (s: Status)
    ensures Canonical(s)
    ensures StatusName(s) == text
  {
    if text == "AGUARDANDO_PAGAMENTO" then AwaitingPayment
    else if text == "PAGO" then Paid
    else if text == "RETIRADO" then Delivered
    else Other(text)
  }

  /** Reading the text of a status gives that status back: each status text
      names exactly one status. */
  lemma ParseStatusRoundTrip(s: CanonicalStatus)
    ensures ParseStatus(StatusName(s)) == s
  {
  }

  /** Money is held in integer cents. */
  datatype Order = Order(
    id: string,
    owner: string,                // user_id
    total: nat,                   // valor_total
    status: CanonicalStatus,
    createdDay: int,              // created_at, as a day number
    deliveredAt: Option<int>,     // entregue_em
    gatewayRef: Option<string>,   // gateway_pagamento_id
    pixCode: Option<string>,      // pix_copia_cola
    qrImage: Option<string>)      // qr_code_base64

  /** A line item; `frozenPrice` is `preco_unitario_congelado`, 0 for a reward unit. */
  datatype Item = Item(orderId: string, productId: string, quantity: nat, frozenPrice: nat)

  datatype Product = Product(id: string, name: string, price: nat, stock: nat, active: bool)

  datatype User = User(id: string, email: string)

  /** A fresh order as inserted by checkout: no delivery, no payment data yet. */
  function NewOrder(id: string, owner: string, total: nat, status: CanonicalStatus, day: int): Order {
    Order(id, owner, total, status, day, None, None, None, None)
  }

  // ---------------------------------------------------------------------
  // Reductions (the `filter`/`reduce` chains of the pages)

  /** Σ valor_total. */
  function SumTotals(orders: seq<Order>): nat {
    if orders == [] then 0 else orders[0].total + SumTotals(orders[1..])
  }

  /** Σ quantidade. */
  function SumQty(items: seq<Item>): nat {
    if items == [] then 0 else items[0].quantity + SumQty(items[1..])
  }

  /** Σ quantidade × preco_unitario_congelado. */
  function SumValue(items: seq<Item>): nat {
    if items == [] then 0 else items[0].quantity * items[0].frozenPrice + SumValue(items[1..])
  }

  /** The items whose frozen price is 0: reward units. */
  function FreeItems(items: seq<Item>): (r: seq<Item>)
    ensures forall it :: it in r <==> it in items && it.frozenPrice == 0
  {
    if items == [] then []
    else (if items[0].frozenPrice == 0 then [items[0]] else []) + FreeItems(items[1..])
  }

  /** The items of one order (the nested `itens_pedido` of a query). */
  function ItemsOf(items: seq<Item>, orderId: string): (r: seq<Item>)
    ensures forall it :: it in r <==> it in items && it.orderId == orderId
  {
    if items == [] then []
    else (if items[0].orderId == orderId then [items[0]] else []) + ItemsOf(items[1..], orderId)
  }

  /** `.in("pedido_id", ids)`: the items of any of the given orders. */
  function ItemsOfOrders(items: seq<Item>, ids: seq<string>): (r: seq<Item>)
    ensures forall it :: it in r <==> it in items && it.orderId in ids
  {
    if items == [] then []
    else (if items[0].orderId in ids then [items[0]] else []) + ItemsOfOrders(items[1..], ids)
  }

  /** `.eq("user_id", owner)`. */
  function OrdersOf(orders: seq<Order>, owner: string): (r: seq<Order>)
    ensures forall o :: o in r <==> o in orders && o.owner == owner
  {
    if orders == [] then []
    else (if orders[0].owner == owner then [orders[0]] else []) + OrdersOf(orders[1..], owner)
  }

  /** `.map((p) => p.id)`. */
  function Ids(orders: seq<Order>): (r: seq<string>)
    ensures |r| == |orders|
    ensures forall i :: 0 <= i < |orders| ==> r[i] == orders[i].id
  {
    seq(|orders|, i requires 0 <= i < |orders| => orders[i].id)
  }

  /** `.eq("id", id).single()`: the order with that id, if any. */
  function FindOrder(orders: seq<Order>, id: string): (r: Option<Order>)
    ensures r.Some? ==> r.value in orders && r.value.id == id
    ensures r.None? <==> id !in Ids(orders)
  {
    if orders == [] then None
    else if orders[0].id == id then Some(orders[0])
    else
      var rest := FindOrder(orders[1..], id);
      assert Ids(orders) == [orders[0].id] + Ids(orders[1..]);
      rest
  }

  predicate UniqueIds(orders: seq<Order>) {
    forall i, j :: 0 <= i < j < |orders| ==> orders[i].id != orders[j].id
  }

  // ---------------------------------------------------------------------
  // Facts about the reductions

  lemma {:induction false} SumQtyAppend(a: seq<Item>, b: seq<Item>)
    ensures SumQty(a + b) == SumQty(a) + SumQty(b)
  {
    if a == [] {
      assert a + b == b;
    } else {
      assert (a + b)[0] == a[0];
      assert (a + b)[1..] == a[1..] + b;
      SumQtyAppend(a[1..], b);
    }
  }

  lemma {:induction false} SumValueAppend(a: seq<Item>, b: seq<Item>)
    ensures SumValue(a + b) == SumValue(a) + SumValue(b)
  {
    if a == [] {
      assert a + b == b;
    } else {
      assert (a + b)[0] == a[0];
      assert (a + b)[1..] == a[1..] + b;
      SumValueAppend(a[1..], b);
    }
  }

  lemma {:induction false} SumTotalsAppend(a: seq<Order>, b: seq<Order>)
    ensures SumTotals(a + b) == SumTotals(a) + SumTotals(b)
  {
    if a == [] {
      assert a + b == b;
    } else {
      assert (a + b)[0] == a[0];
      assert (a + b)[1..] == a[1..] + b;
      SumTotalsAppend(a[1..], b);
    }
  }

  lemma {:induction false} FreeItemsAppend(a: seq<Item>, b: seq<Item>)
    ensures FreeItems(a + b) == FreeItems(a) + FreeItems(b)
  {
    if a == [] {
      assert a + b == b;
    } else {
      assert (a + b)[0] == a[0];
      assert (a + b)[1..] == a[1..] + b;
      FreeItemsAppend(a[1..], b);
    }
  }

  lemma {:induction false} ItemsOfAppend(a: seq<Item>, b: seq<Item>, orderId: string)
    ensures ItemsOf(a + b, orderId) == ItemsOf(a, orderId) + ItemsOf(b, orderId)
  {
    if a == [] {
      assert a + b == b;
    } else {
      assert (a + b)[0] == a[0];
      assert (a + b)[1..] == a[1..] + b;
      ItemsOfAppend(a[1..], b, orderId);
    }
  }

  lemma {:induction false} ItemsOfOrdersAppend(a: seq<Item>, b: seq<Item>, ids: seq<string>)
    ensures ItemsOfOrders(a + b, ids) == ItemsOfOrders(a, ids) + ItemsOfOrders(b, ids)
  {
    if a == [] {
      assert a + b == b;
    } else {
      assert (a + b)[0] == a[0];
      assert (a + b)[1..] == a[1..] + b;
      ItemsOfOrdersAppend(a[1..], b, ids);
    }
  }

  lemma {:induction false} OrdersOfAppend(a: seq<Order>, b: seq<Order>, owner: string)
    ensures OrdersOf(a + b, owner) == OrdersOf(a, owner) + OrdersOf(b, owner)
  {
    if a == [] {
      assert a + b == b;
    } else {
      assert (a + b)[0] == a[0];
      assert (a + b)[1..] == a[1..] + b;
      OrdersOfAppend(a[1..], b, owner);
    }
  }

  /** Reward units are among all units: Σ free quantities ≤ Σ quantities. */
  lemma {:induction false} FreeQtyAtMostQty(items: seq<Item>)
    ensures SumQty(FreeItems(items)) <= SumQty(items)
  {
    if items != [] {
      FreeQtyAtMostQty(items[1..]);
      var head := if items[0].frozenPrice == 0 then [items[0]] else [];
      SumQtyAppend(head, FreeItems(items[1..]));
    }
  }

  /** Selecting items by a list of ids that no item refers to any more
      ignores an id added to the list. */
  lemma {:induction false} ItemsOfOrdersExtraId(items: seq<Item>, ids: seq<string>, extra: string)
    requires forall it :: it in items ==> it.orderId != extra
    ensures ItemsOfOrders(items, ids + [extra]) == ItemsOfOrders(items, ids)
  {
    if items != [] {
      ItemsOfOrdersExtraId(items[1..], ids, extra);
    }
  }

  /** With an empty id list the `.in(...)` filter selects nothing. */
  lemma {:induction false} ItemsOfNoOrders(items: seq<Item>)
    ensures ItemsOfOrders(items, []) == []
  {
    if items != [] {
      ItemsOfNoOrders(items[1..]);
    }
  }

  /** Items all belonging to `id` are all selected by a list containing `id`. */
  lemma {:induction false} ItemsOfOrdersAll(items: seq<Item>, ids: seq<string>, id: string)
    requires id in ids
    requires forall it :: it in items ==> it.orderId == id
    ensures ItemsOfOrders(items, ids) == items
  {
    if items != [] {
      ItemsOfOrdersAll(items[1..], ids, id);
      assert items == [items[0]] + items[1..];
    }
  }

  /** Items all belonging to `id` are exactly the items of `id`. */
  lemma {:induction false} ItemsOfAll(items: seq<Item>, id: string)
    requires forall it :: it in items ==> it.orderId == id
    ensures ItemsOf(items, id) == items
  {
    if items != [] {
      ItemsOfAll(items[1..], id);
      assert items == [items[0]] + items[1..];
    }
  }

  /** No item of `id` in the list: the selection by `id` is empty. */
  lemma {:induction false} ItemsOfNone(items: seq<Item>, id: string)
    requires forall it :: it in items ==> it.orderId != id
    ensures ItemsOf(items, id) == []
  {
    if items != [] {
      ItemsOfNone(items[1..], id);
    }
  }

  /** With unique ids, the lookup by id finds the order at that position. */
  lemma {:induction false} FindOrderAt(orders: seq<Order>, k: nat)
    requires UniqueIds(orders) && k < |orders|
    ensures FindOrder(orders, orders[k].id) == Some(orders[k])
  {
    if k > 0 {
      assert orders[0].id != orders[k].id;
      FindOrderAt(orders[1..], k - 1);
    }
  }

  lemma IdsAppend(orders: seq<Order>, o: Order)
    ensures Ids(orders + [o]) == Ids(orders) + [o.id]
  {
  }

  // ---------------------------------------------------------------------
  // In-place row updates (`.update({...}).eq(column, value)`)

  /** The column changes one `update` call writes. */
  datatype Patch =
    | SetStatus(status: CanonicalStatus)                  // admin approval, webhook
    | Deliver(at: int)                                    // darBaixa: status and entregue_em together
    | AttachCharge(reference: string, code: string)       // criar-pix: gateway id and copy-paste code
    | SavePix(code: string, image: string)                // salvarPixNoPedido

  function Apply(o: Order, p: Patch): Order {
    match p
    case SetStatus(s) => o.(status := s)
    case Deliver(t) => o.(status := Delivered, deliveredAt := Some(t))
    case AttachCharge(r, c) => o.(gatewayRef := Some(r), pixCode := Some(c))
    case SavePix(c, q) => o.(pixCode := Some(c), qrImage := Some(q))
  }

  /** `.update(patch).eq("id", id)`: every row with that id, none if there is none. */
  function PatchById(orders: seq<Order>, id: string, p: Patch): (r: seq<Order>)
    ensures |r| == |orders|
    ensures forall i :: 0 <= i < |orders| ==>
      r[i] == if orders[i].id == id then Apply(orders[i], p) else orders[i]
  {
    seq(|orders|, i requires 0 <= i < |orders| =>
      if orders[i].id == id then Apply(orders[i], p) else orders[i])
  }

  /** `.update(patch).eq("gateway_pagamento_id", reference)`. */
  function PatchByRef(orders: seq<Order>, reference: string, p: Patch): (r: seq<Order>)
    ensures |r| == |orders|
    ensures forall i :: 0 <= i < |orders| ==>
      r[i] == if orders[i].gatewayRef == Some(reference) then Apply(orders[i], p) else orders[i]
  {
    seq(|orders|, i requires 0 <= i < |orders| =>
      if orders[i].gatewayRef == Some(reference) then Apply(orders[i], p) else orders[i])
  }

  /** No patch touches an id. */
  lemma PatchKeepsIds(orders: seq<Order>, id: string, p: Patch)
    ensures Ids(PatchById(orders, id, p)) == Ids(orders)
  {
  }

  // ---------------------------------------------------------------------
  // The hosted database

  /** Every item belongs to an existing order (the foreign key of `itens_pedido`). */
  predicate ItemsReferenceOrders(items: seq<Item>, orders: seq<Order>) {
    forall it :: it in items ==> it.orderId in Ids(orders)
  }

  /** The three tables of the hosted database the core reads and writes. */
  class Store {
    var products: seq<Product>
    var orders: seq<Order>
    var items: seq<Item>

    /** Primary key of `pedidos` and foreign key of `itens_pedido`. */
    ghost predicate Valid()
      reads this
    {
      UniqueIds(orders) && ItemsReferenceOrders(items, orders)
    }

    constructor (products: seq<Product>)
      ensures Valid()
      ensures this.products == products && orders == [] && items == []
    {
      this.products := products;
      orders := [];
      items := [];
    }

    /** `insert` into `pedidos` of a row whose id the database generated. */
    method InsertOrder(o: Order)
      requires Valid()
      requires o.id !in Ids(orders)
      modifies this`orders
      ensures Valid()
      ensures orders == old(orders) + [o]
    {
      IdsAppend(orders, o);
      orders := orders + [o];
    }

    /** `insert` into `itens_pedido` of a batch of rows. */
    method InsertItems(batch: seq<Item>)
      requires Valid()
      requires forall it :: it in batch ==> it.orderId in Ids(orders)
      modifies this`items
      ensures Valid()
      ensures items == old(items) + batch
    {
      items := items + batch;
    }

    /** `update` of the order rows with the given id. */
    method UpdateById(id: string, p: Patch)
      requires Valid()
      modifies this`orders
      ensures Valid()
      ensures orders == PatchById(old(orders), id, p)
    {
      PatchKeepsIds(orders, id, p);
      orders := PatchById(orders, id, p);
    }

    /** `update` of the order rows with the given payment-gateway id. */
    method UpdateByRef(reference: string, p: Patch)
      requires Valid()
      modifies this`orders
      ensures Valid()
      ensures orders == PatchByRef(old(orders), reference, p)
    {
      orders := PatchByRef(orders, reference, p);
      assert Ids(orders) == Ids(old(orders));
    }
  }
}
