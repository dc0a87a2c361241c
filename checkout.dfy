/** The storefront: opening hours, the quantity stepper and reward toggle,
    pricing, and `gerarPedido`, which creates an order and its line items and
    then either settles a free order at once or asks the payment gateway for
    a PIX charge. */
module Checkout {
  import opened Common
  import opened Orders
  import Loyalty

  /** `estaAberto`: open from 07:00 until the end of 21:59. */
  predicate IsOpen(hour: int) {
    7 <= hour < 22
  }

  /** The buy button's `disabled` condition. */
  predicate BuyDisabled(processing: bool, stock: nat, hour: int) {
    processing || stock == 0 || !IsOpen(hour)
  }

  /** `precoUnitario`: the active product's current price, 0 without one. */
  function UnitPrice(product: Option<Product>): nat {
    if product.Some? then product.value.price else 0
  }

  /** `quantidadeCobrada`: one unit is free when a reward is used. */
  function BilledQuantity(quantity: nat, useReward: bool): nat {
    if useReward then Max(0, quantity - 1) else quantity
  }

  /** `total = quantidadeCobrada * precoUnitario`. */
  function Total(quantity: nat, useReward: bool, unitPrice: nat): nat {
    BilledQuantity(quantity, useReward) * unitPrice
  }

  /** `statusInicial`. */
  function InitialStatus(total: nat): CanonicalStatus {
    if total == 0 then Paid else AwaitingPayment
  }

  /** `itensParaInserir`: the paid units at the frozen current price when
      there are any, then one free unit when a reward is used; nothing
      without an active product. */
  function PlannedItems(orderId: string, product: Option<Product>, quantity: nat, useReward: bool): seq<Item> {
    if product.None? then []
    else
      var p := product.value;
      var billed := BilledQuantity(quantity, useReward);
      (if billed > 0 then [Item(orderId, p.id, billed, p.price)] else [])
      + (if useReward then [Item(orderId, p.id, 1, 0)] else [])
  }

  // ---------------------------------------------------------------------
  // The checkout as a function of the page state, the tables and the
  // outcomes of the external calls

  /** What the `criar-pix` function answered: a charge, or an error or
      `sucesso: false`. */
  datatype GatewayReply = Charged(reference: string, copyCode: string, qrImage: string) | ChargeRefused

  /** Which of the external writes succeed. */
  datatype Backend = Backend(orderInsertOk: bool, itemsInsertOk: bool, gateway: GatewayReply, pixSaveOk: bool)

  datatype Failure = OrderInsertFailed | ItemsInsertFailed | GatewayFailed | PixSaveFailed

  datatype CheckoutResult =
    | LoginRequired                      // navigate("/login")
    | InsufficientStock                  // alert, before any write
    | Failed(reason: Failure)            // the catch block's alert
    | FreeOrderPaid(orderId: string)     // zero total: paid at once, no PIX
    | AwaitingPix(orderId: string, copyCode: string, qrImage: string)

  /** The page state `gerarPedido` reads. */
  datatype Request = Request(user: Option<User>, product: Option<Product>, stock: nat, quantity: nat, useReward: bool)

  datatype Placement = Placement(orders: seq<Order>, items: seq<Item>, result: CheckoutResult)

  /** The tables after `gerarPedido` and what it reports. Nothing is rolled
      back: an order row written before a later failure stays. */
  function Place(flow: Flow, req: Request, orders: seq<Order>, items: seq<Item>,
                 newId: string, today: int, b: Backend): Placement
  {
    if req.user.None? then Placement(orders, items, LoginRequired)
    else if req.quantity > req.stock then Placement(orders, items, InsufficientStock)
    else Submit(flow, req.user.value, req.product, req.quantity, req.useReward, orders, items, newId, today, b)
  }

  /** Past the guards: write the order row, then its line items, then settle
      a free order or charge a paid one. */
  function Submit(flow: Flow, user: User, product: Option<Product>, quantity: nat, useReward: bool,
                  orders: seq<Order>, items: seq<Item>, newId: string, today: int, b: Backend): Placement
  {
    if !b.orderInsertOk then Placement(orders, items, Failed(OrderInsertFailed))
    else
      var total := Total(quantity, useReward, UnitPrice(product));
      Settle(flow, product, quantity, useReward, orders + [NewOrder(newId, user.id, total, InitialStatus(total), today)],
             items, newId, b)
  }

  /** Once order `id` is written: its line items, then a free order is done
      and a paid one is charged. */
  function Settle(flow: Flow, product: Option<Product>, quantity: nat, useReward: bool,
                  orders: seq<Order>, items: seq<Item>, id: string, b: Backend): Placement
  {
    var planned := PlannedItems(id, product, quantity, useReward);
    if planned != [] && !b.itemsInsertOk then Placement(orders, items, Failed(ItemsInsertFailed))
    else if Total(quantity, useReward, UnitPrice(product)) == 0 then Placement(orders, items + planned, FreeOrderPaid(id))
    else Charge(flow, orders, items + planned, id, b)
  }

  /** The call to `criar-pix` for order `id` and the update that stores the
      QR code. */
  function Charge(flow: Flow, orders: seq<Order>, items: seq<Item>, id: string, b: Backend): Placement {
    match b.gateway
    case ChargeRefused => Placement(orders, items, Failed(GatewayFailed))
    case Charged(reference, code, image) =>
      // criar-pix itself stores the gateway id and the copy-paste code
      var charged := PatchById(orders, id, AttachCharge(reference, code));
      if b.pixSaveOk then
        Placement(PatchById(charged, id, SavePix(code, image)), items, AwaitingPix(id, code, image))
      else if flow == HookController then
        Placement(charged, items, Failed(PixSaveFailed))
      else
        // the routed page does not look at the update's error
        Placement(charged, items, AwaitingPix(id, code, image))
  }

  /** The checkout got past both guards and wrote the order row. */
  predicate OrderWritten(req: Request, b: Backend) {
    req.user.Some? && req.quantity <= req.stock && b.orderInsertOk
  }

  /** ... and the line items too (or there were none to write). */
  predicate ItemsWritten(req: Request, newId: string, b: Backend) {
    OrderWritten(req, b)
    && (PlannedItems(newId, req.product, req.quantity, req.useReward) == [] || b.itemsInsertOk)
  }

  // ---------------------------------------------------------------------
  // Properties

  /** The billed units and the free unit make up the requested quantity,
      and the line items carry exactly the total: Σ qty × price = total,
      Σ qty = quantity, and one free unit exactly when a reward is used. */
  lemma PlannedItemsMatchTotal(orderId: string, p: Product, quantity: nat, useReward: bool)
    ensures var planned := PlannedItems(orderId, Some(p), quantity, useReward);
      && SumValue(planned) == Total(quantity, useReward, p.price)
      && (quantity >= 1 || !useReward ==> SumQty(planned) == quantity)
      && (forall it :: it in planned ==> it.orderId == orderId && it.quantity > 0)
      && (p.price > 0 ==> SumQty(FreeItems(planned)) == if useReward then 1 else 0)
      && (p.price > 0 ==> (useReward <==> exists it :: it in planned && it.frozenPrice == 0))
  {
    var billed := BilledQuantity(quantity, useReward);
    var paid: seq<Item> := if billed > 0 then [Item(orderId, p.id, billed, p.price)] else [];
    var free: seq<Item> := if useReward then [Item(orderId, p.id, 1, 0)] else [];
    assert PlannedItems(orderId, Some(p), quantity, useReward) == paid + free;
    SumValueAppend(paid, free);
    SumQtyAppend(paid, free);
    FreeItemsAppend(paid, free);
    SumQtyAppend(FreeItems(paid), FreeItems(free));
    if billed > 0 {
      assert SumValue(paid) == billed * p.price + SumValue([]);
      assert SumQty(paid) == billed + SumQty([]);
      assert FreeItems(paid) == (if p.price == 0 then [paid[0]] else []) + FreeItems([]);
    }
    if useReward {
      assert SumValue(free) == 1 * 0 + SumValue([]);
      assert SumQty(free) == 1 + SumQty([]);
      assert FreeItems(free) == [free[0]] + FreeItems([]);
      assert SumQty(FreeItems(free)) == 1 + SumQty([]);
    }
  }

  /** No session, or more bags than the stock: nothing is written. */
  lemma GuardsWriteNothing(flow: Flow, req: Request, orders: seq<Order>, items: seq<Item>,
                           newId: string, today: int, b: Backend)
    requires req.user.None? || req.quantity > req.stock
    ensures var p := Place(flow, req, orders, items, newId, today, b);
      p.orders == orders && p.items == items
      && p.result == (if req.user.None? then LoginRequired else InsufficientStock)
  {
  }

  lemma FreshIdNotAt(orders: seq<Order>, id: string, i: int)
    requires id !in Ids(orders) && 0 <= i < |orders|
    ensures orders[i].id != id
  {
    assert Ids(orders)[i] == orders[i].id;
  }

  /** Once the order row is written it stays, whatever fails later: one new
      row with the new id, the customer, the computed total, and status
      `PAGO` exactly when the total is 0; the older rows are untouched. */
  lemma OrderRowWritten(flow: Flow, req: Request, orders: seq<Order>, items: seq<Item>,
                        newId: string, today: int, b: Backend)
    requires newId !in Ids(orders)
    ensures var p := Place(flow, req, orders, items, newId, today, b);
      if OrderWritten(req, b) then
        var total := Total(req.quantity, req.useReward, UnitPrice(req.product));
        var o := p.orders[|orders|];
        && |p.orders| == |orders| + 1
        && p.orders[..|orders|] == orders
        && o.id == newId && o.owner == req.user.value.id && o.total == total
        && o.createdDay == today && o.deliveredAt == None
        && (o.status == Paid <==> total == 0)
        && (o.status == AwaitingPayment <==> total > 0)
      else p.orders == orders
  {
    var p := Place(flow, req, orders, items, newId, today, b);
    if OrderWritten(req, b) {
      var total := Total(req.quantity, req.useReward, UnitPrice(req.product));
      var created := orders + [NewOrder(newId, req.user.value.id, total, InitialStatus(total), today)];
      forall i | 0 <= i < |orders|
        ensures p.orders[i] == orders[i]
      {
        FreshIdNotAt(orders, newId, i);
      }
    }
  }

  /** The line items are appended exactly when the order row was written and
      their insert succeeded (or there were none); never otherwise. */
  lemma ItemsAppended(flow: Flow, req: Request, orders: seq<Order>, items: seq<Item>,
                      newId: string, today: int, b: Backend)
    ensures var p := Place(flow, req, orders, items, newId, today, b);
      p.items == if ItemsWritten(req, newId, b)
                 then items + PlannedItems(newId, req.product, req.quantity, req.useReward)
                 else items
  {
  }

  /** A zero total never reaches the payment gateway: the order is `PAGO`
      from the start and the result does not depend on anything the gateway
      or the PIX update would do. */
  lemma ZeroTotalSkipsGateway(flow: Flow, req: Request, orders: seq<Order>, items: seq<Item>,
                              newId: string, today: int, b: Backend, gateway: GatewayReply, saveOk: bool)
    requires ItemsWritten(req, newId, b)
    requires Total(req.quantity, req.useReward, UnitPrice(req.product)) == 0
    ensures var p := Place(flow, req, orders, items, newId, today, b);
      && p == Place(flow, req, orders, items, newId, today, b.(gateway := gateway, pixSaveOk := saveOk))
      && p.result == FreeOrderPaid(newId)
      && p.orders == orders + [NewOrder(newId, req.user.value.id, 0, Paid, today)]
  {
  }

  /** A positive total goes to the gateway. On a charge the same order gets
      the gateway id and the PIX data and stays `AGUARDANDO_PAGAMENTO`; the
      customer reaches the payment step unless the hook controller sees the
      PIX update fail. A refused charge is a failure. */
  lemma PositiveTotalCallsGateway(flow: Flow, req: Request, orders: seq<Order>, items: seq<Item>,
                                  newId: string, today: int, b: Backend)
    requires newId !in Ids(orders)
    requires ItemsWritten(req, newId, b)
    requires Total(req.quantity, req.useReward, UnitPrice(req.product)) > 0
    ensures var p := Place(flow, req, orders, items, newId, today, b);
      var o := p.orders[|orders|];
      && |p.orders| == |orders| + 1 && p.orders[..|orders|] == orders
      && o.status == AwaitingPayment && o.id == newId
      && (b.gateway.ChargeRefused? ==> p.result == Failed(GatewayFailed) && o.pixCode == None)
      && (b.gateway.Charged? ==>
            && o.gatewayRef == Some(b.gateway.reference)
            && o.pixCode == Some(b.gateway.copyCode)
            && o.qrImage == (if b.pixSaveOk then Some(b.gateway.qrImage) else None)
            && (p.result.AwaitingPix? <==> b.pixSaveOk || flow == RoutedPage)
            && (p.result.AwaitingPix? ==> p.result == AwaitingPix(newId, b.gateway.copyCode, b.gateway.qrImage)))
  {
    OrderRowWritten(flow, req, orders, items, newId, today, b);
  }

  /** The buy button is enabled only from 07:00 to 21:59, with stock left
      and no checkout running. With a product sold out the button is
      disabled, and a checkout started anyway stops at the stock guard
      without writing. */
  lemma BuyButtonGuards(flow: Flow, req: Request, orders: seq<Order>, items: seq<Item>,
                        newId: string, today: int, b: Backend, processing: bool, hour: int)
    requires req.user.Some? && req.quantity >= 1
    ensures !BuyDisabled(processing, req.stock, hour) <==> !processing && req.stock > 0 && 7 <= hour <= 21
    ensures req.stock == 0 ==>
      BuyDisabled(processing, req.stock, hour)
      && Place(flow, req, orders, items, newId, today, b) == Placement(orders, items, InsufficientStock)
  {
  }

  /** After a checkout that wrote its items, the new order's total equals
      the value of its own line items (the ledger invariant), whatever the
      gateway did. */
  lemma OrderTotalMatchesItems(flow: Flow, req: Request, orders: seq<Order>, items: seq<Item>,
                               newId: string, today: int, b: Backend)
    requires newId !in Ids(orders)
    requires ItemsReferenceOrders(items, orders)
    requires ItemsWritten(req, newId, b) && req.product.Some?
    ensures var p := Place(flow, req, orders, items, newId, today, b);
      SumValue(ItemsOf(p.items, newId)) == p.orders[|orders|].total
  {
    var p := Place(flow, req, orders, items, newId, today, b);
    var planned := PlannedItems(newId, req.product, req.quantity, req.useReward);
    OrderRowWritten(flow, req, orders, items, newId, today, b);
    PlannedItemsMatchTotal(newId, req.product.value, req.quantity, req.useReward);
    forall it | it in items ensures it.orderId != newId {
      assert it.orderId in Ids(orders);
    }
    ItemsOfAppend(items, planned, newId);
    ItemsOfNone(items, newId);
    ItemsOfAll(planned, newId);
    assert ItemsOf(p.items, newId) == planned;
  }

  /** The customer's orders gain exactly the new one. */
  lemma OrdersOfGainsOne(orders: seq<Order>, o: Order)
    ensures OrdersOf(orders + [o], o.owner) == OrdersOf(orders, o.owner) + [o]
  {
    OrdersOfAppend(orders, [o], o.owner);
    assert OrdersOf([o], o.owner) == [o] + OrdersOf([], o.owner);
  }

  /** Appending the items of a reward checkout adds one redeemed unit. */
  lemma RedeemedGainsOne(mine: seq<Order>, items: seq<Item>, o: Order, p: Product, quantity: nat)
    requires forall it :: it in items ==> it.orderId != o.id
    requires p.price > 0
    ensures Loyalty.RedeemedUnits(mine + [o], items + PlannedItems(o.id, Some(p), quantity, true))
         == Loyalty.RedeemedUnits(mine, items) + 1
  {
    var planned := PlannedItems(o.id, Some(p), quantity, true);
    var ids := Ids(mine) + [o.id];
    PlannedItemsMatchTotal(o.id, p, quantity, true);
    IdsAppend(mine, o);
    ItemsOfOrdersAppend(items, planned, ids);
    ItemsOfOrdersExtraId(items, Ids(mine), o.id);
    ItemsOfOrdersAll(planned, ids, o.id);
    FreeItemsAppend(ItemsOfOrders(items, Ids(mine)), planned);
    SumQtyAppend(FreeItems(ItemsOfOrders(items, Ids(mine))), FreeItems(planned));
    Loyalty.RedeemedUnitsIsQuery(mine, items);
    Loyalty.RedeemedUnitsIsQuery(mine + [o], items + planned);
  }

  lemma MulSucc(r: int, t: int)
    ensures (r + 1) * t == r * t + t
  {
  }

  /** A checkout that redeems a reward lowers the recomputed balance by
      exactly one threshold, whatever the price used for earning and whether
      the order is free or awaiting payment: the new order earns nothing
      until picked up, and its price-0 item counts as one redeemed unit. With
      the storefront threshold this is the local `prev - 10` of a free order. */
  lemma RewardCheckoutLowersBalance(orders: seq<Order>, items: seq<Item>, user: User, p: Product,
                                    quantity: nat, newId: string, today: int, unitPrice: nat, threshold: nat)
    requires ItemsReferenceOrders(items, orders) && newId !in Ids(orders)
    requires p.price > 0 && unitPrice > 0
    ensures
      var total := Total(quantity, true, p.price);
      var o := NewOrder(newId, user.id, total, InitialStatus(total), today);
      var planned := PlannedItems(newId, Some(p), quantity, true);
      Loyalty.Balance(OrdersOf(orders + [o], user.id), items + planned, unitPrice, threshold)
        == Loyalty.Balance(OrdersOf(orders, user.id), items, unitPrice, threshold) - threshold
  {
    var total := Total(quantity, true, p.price);
    var o := NewOrder(newId, user.id, total, InitialStatus(total), today);
    var planned := PlannedItems(newId, Some(p), quantity, true);
    var mine := OrdersOf(orders, user.id);
    OrdersOfGainsOne(orders, o);
    Loyalty.OnlyDeliveredEarn(mine, o);
    forall it | it in items ensures it.orderId != newId {
      assert it.orderId in Ids(orders);
    }
    RedeemedGainsOne(mine, items, o, p, quantity);
    var spent := Loyalty.Spent(mine);
    var r := Loyalty.RedeemedUnits(mine, items);
    assert Loyalty.Spent(mine + [o]) == spent;
    assert Loyalty.RedeemedUnits(mine + [o], items + planned) == r + 1;
    MulSucc(r, threshold);
    assert Loyalty.Balance(mine + [o], items + planned, unitPrice, threshold) == spent / unitPrice - (r + 1) * threshold;
  }

  /** The minus button: `Math.max(1, q - 1)`, and the reward is switched
      off when the quantity was at most 1. */
  function MinusClick(quantity: nat, useReward: bool): (nat, bool) {
    (Max(1, quantity - 1), if quantity <= 1 then false else useReward)
  }

  /** The plus button: `Math.min(estoque, q + 1)`. */
  function PlusClick(quantity: nat, stock: nat): nat {
    Min(stock, quantity + 1)
  }

  predicate MinusDisabled(quantity: nat, stock: nat) { quantity <= 1 || stock == 0 }

  predicate PlusDisabled(quantity: nat, stock: nat) { quantity >= stock || stock == 0 }

  /** The stepper keeps the quantity between 1 and the stock: an enabled
      minus lowers it by one and never touches the reward (the reset branch
      only runs when the button is disabled); an enabled plus raises it by
      one, and plus never goes above the stock. */
  lemma StepperStaysInStock(quantity: nat, stock: nat, useReward: bool)
    requires 1 <= quantity <= stock
    ensures !MinusDisabled(quantity, stock) ==>
      MinusClick(quantity, useReward) == (quantity - 1, useReward) && 1 <= quantity - 1
    ensures PlusClick(quantity, stock) <= stock
    ensures !PlusDisabled(quantity, stock) ==> PlusClick(quantity, stock) == quantity + 1
    ensures MinusDisabled(quantity, stock) ==> MinusClick(quantity, useReward) == (1, false)
  {
  }

  /** When the items query fails, the routed page's storefront balance
      forgets the customer's redemptions: it exceeds the true balance by 10
      per bag already redeemed, so the reward toggle can be offered for bags
      already taken. */
  lemma PageItemsFailureOverstatesBalance(mine: seq<Order>, items: seq<Item>, price: nat)
    requires price > 0
    ensures Loyalty.Spent(mine) / price
         == Loyalty.Balance(mine, items, price, Loyalty.StorefrontThreshold)
            + Loyalty.RedeemedUnits(mine, items) * Loyalty.StorefrontThreshold
    ensures Loyalty.RedeemedUnits(mine, items) > 0 ==>
      Loyalty.Spent(mine) / price >= Loyalty.Balance(mine, items, price, Loyalty.StorefrontThreshold) + 10
  {
  }

  /** The first active product (`.eq("ativo", true).limit(1)`). */
  function ActiveProduct(products: seq<Product>): (r: Option<Product>)
    ensures r.Some? ==> r.value in products && r.value.active
    ensures r.None? ==> forall p :: p in products ==> !p.active
  {
    if products == [] then None
    else if products[0].active then Some(products[0])
    else ActiveProduct(products[1..])
  }

  datatype Step = ProductStep | PaymentStep   // `etapa`

  /** The storefront page (or its hook) and the state it keeps. */
  class Storefront {
    var user: Option<User>
    var product: Option<Product>     // produtoAtivo
    var stock: nat                   // estoque, as loaded
    var loadingStock: bool           // carregandoEstoque
    var quantity: nat                // quantidade
    var useReward: bool              // usarResgate
    var brasas: int                  // brasasDisponiveis
    var step: Step                   // etapa
    var processing: bool             // processando
    var orderPaid: bool              // pedidoPago
    var orderId: Option<string>      // pedidoId
    var pixCode: string              // pixCopiaCola
    var qrImage: string              // qrCodeBase64
    var redirectedToLogin: bool

    constructor ()
      ensures user == None && product == None && stock == 0 && loadingStock
      ensures quantity == 1 && !useReward && brasas == 0 && step == ProductStep
      ensures !processing && !orderPaid && orderId == None && pixCode == "" && qrImage == ""
      ensures !redirectedToLogin
    {
      user, product, stock, loadingStock := None, None, 0, true;
      quantity, useReward, brasas, step := 1, false, 0, ProductStep;
      processing, orderPaid, orderId, pixCode, qrImage := false, false, None, "", "";
      redirectedToLogin := false;
    }

    function Req(): Request
      reads this
    {
      Request(user, product, stock, quantity, useReward)
    }

    /** `carregarDadosIniciais`: session, active product and stock, then the
        brasas balance with the product price as the earning unit and 10 per
        redeemed unit. `sessionOk`, `productOk`, `ordersOk` and `itemsOk` say
        whether each read answered. The hook's service throws on a failed
        session read, so nothing is set but the end of the stock spinner; the
        routed page ignores that error and reads it as no session. A failed
        product query leaves no product in either copy. The hook's service
        throws on a failed orders or items query, so the balance stays as it
        was; the routed page ignores the error and reads the missing rows as
        none: no orders gives a balance of 0, and no free items ignores every
        past redemption, which overstates the balance by 10 per redeemed bag. */
    method LoadInitial(store: Store, flow: Flow, session: Option<User>, sessionOk: bool,
                       productOk: bool, ordersOk: bool, itemsOk: bool)
      modifies this`user, this`product, this`stock, this`loadingStock, this`brasas
      ensures !loadingStock
      ensures !sessionOk && flow == HookController ==>
        user == old(user) && product == old(product) && stock == old(stock) && brasas == old(brasas)
      ensures sessionOk || flow == RoutedPage ==>
        var signedIn := if sessionOk then session else None;
        var active := if productOk then ActiveProduct(store.products) else None;
        && user == signedIn
        && product == (if active.Some? then active else old(product))
        && stock == (if active.Some? then active.value.stock else old(stock))
        && (signedIn.None? || active.None? || active.value.price == 0 ==> brasas == old(brasas))
      ensures sessionOk || flow == RoutedPage ==>
        var signedIn := if sessionOk then session else None;
        var active := if productOk then ActiveProduct(store.products) else None;
        signedIn.Some? && active.Some? && active.value.price > 0 ==>
          var price := active.value.price;
          var mine := OrdersOf(store.orders, signedIn.value.id);
          && (ordersOk && (itemsOk || mine == []) ==>
                brasas == Loyalty.Balance(mine, store.items, price, Loyalty.StorefrontThreshold))
          && (ordersOk && !itemsOk && mine != [] && flow == RoutedPage ==>
                brasas == Loyalty.Spent(mine) / price
                && brasas == Loyalty.Balance(mine, store.items, price, Loyalty.StorefrontThreshold)
                             + Loyalty.RedeemedUnits(mine, store.items) * Loyalty.StorefrontThreshold)
          && (!ordersOk && flow == RoutedPage ==> brasas == 0)
          && (!(ordersOk && (itemsOk || mine == [])) && flow == HookController ==> brasas == old(brasas))
    {
      if !sessionOk && flow == HookController {
        loadingStock := false;
        return;
      }
      var signedIn := if sessionOk then session else None;
      user := signedIn;
      var active := if productOk then ActiveProduct(store.products) else None;
      if active.Some? {
        product := active;
        stock := active.value.stock;
      }
      loadingStock := false;
      if signedIn.Some? && active.Some? && active.value.price > 0 {
        var price := active.value.price;
        if !ordersOk {
          if flow == RoutedPage {
            brasas := 0;
          }
          return;
        }
        var mine := OrdersOf(store.orders, signedIn.value.id);
        var earned := Loyalty.Spent(mine) / price;
        var redeemed: nat := 0;
        if |mine| > 0 {
          if itemsOk {
            redeemed := Loyalty.RedeemedUnits(mine, store.items);
          } else if flow == HookController {
            return;
          } else {
            PageItemsFailureOverstatesBalance(mine, store.items, price);
          }
        }
        brasas := earned - redeemed * Loyalty.StorefrontThreshold;
      }
    }

    /** The minus button; nothing happens while it is disabled. */
    method PressMinus()
      modifies this`quantity, this`useReward
      ensures MinusDisabled(old(quantity), stock) ==> quantity == old(quantity) && useReward == old(useReward)
      ensures !MinusDisabled(old(quantity), stock) ==> (quantity, useReward) == MinusClick(old(quantity), old(useReward))
    {
      if !MinusDisabled(quantity, stock) {
        var next := MinusClick(quantity, useReward);
        quantity, useReward := next.0, next.1;
      }
    }

    /** The plus button; nothing happens while it is disabled. */
    method PressPlus()
      modifies this`quantity
      ensures quantity == if PlusDisabled(old(quantity), stock) then old(quantity) else PlusClick(old(quantity), stock)
    {
      if !PlusDisabled(quantity, stock) {
        quantity := PlusClick(quantity, stock);
      }
    }

    /** The free-bag toggle, shown only with at least 10 brasas. */
    method ToggleReward()
      modifies this`useReward
      ensures useReward == if brasas >= 10 then !old(useReward) else old(useReward)
    {
      if brasas >= 10 {
        useReward := !useReward;
      }
    }

    /** `gerarPedido`. `newId` is the id the database gives the new order
        row, `today` its creation day, and `b` the outcome of each external call. */
    method Checkout(store: Store, flow: Flow, newId: string, today: int, b: Backend) returns (r: CheckoutResult)
      requires store.Valid() && newId !in Ids(store.orders)
      modifies store`orders, store`items
      modifies this`step, this`processing, this`orderPaid, this`orderId, this`pixCode, this`qrImage
      modifies this`brasas, this`redirectedToLogin
      ensures store.Valid()
      ensures var p := Place(flow, Req(), old(store.orders), old(store.items), newId, today, b);
        store.orders == p.orders && store.items == p.items && r == p.result
      ensures redirectedToLogin == (old(redirectedToLogin) || r == LoginRequired)
      ensures processing == (if r == LoginRequired || r == InsufficientStock then old(processing) else false)
      ensures orderId == (if OrderWritten(Req(), b) then Some(newId) else old(orderId))
      ensures r.FreeOrderPaid? ==> orderPaid && brasas == old(brasas) - 10
      ensures !r.FreeOrderPaid? ==> orderPaid == old(orderPaid) && brasas == old(brasas)
      ensures step == (if r.FreeOrderPaid? || r.AwaitingPix? then PaymentStep else old(step))
      ensures r.AwaitingPix? ==> pixCode == r.copyCode && qrImage == r.qrImage
      ensures !r.AwaitingPix? ==> pixCode == old(pixCode) && qrImage == old(qrImage)
    {
      if user.None? {
        redirectedToLogin := true;
        return LoginRequired;
      }
      if quantity > stock {
        return InsufficientStock;
      }
      processing := true;
      r := SubmitOrder(store, flow, newId, today, b);
      processing := false;
    }

    /** `gerarPedido` past its guards, inside the `try`. */
    method SubmitOrder(store: Store, flow: Flow, newId: string, today: int, b: Backend) returns (r: CheckoutResult)
      requires user.Some? && store.Valid() && newId !in Ids(store.orders)
      modifies store`orders, store`items
      modifies this`step, this`orderPaid, this`orderId, this`pixCode, this`qrImage, this`brasas
      ensures store.Valid()
      ensures var p := Submit(flow, user.value, product, quantity, useReward, old(store.orders), old(store.items), newId, today, b);
        store.orders == p.orders && store.items == p.items && r == p.result
      ensures orderId == (if b.orderInsertOk then Some(newId) else old(orderId))
      ensures r.FreeOrderPaid? ==> orderPaid && brasas == old(brasas) - 10
      ensures !r.FreeOrderPaid? ==> orderPaid == old(orderPaid) && brasas == old(brasas)
      ensures step == (if r.FreeOrderPaid? || r.AwaitingPix? then PaymentStep else old(step))
      ensures r.AwaitingPix? ==> pixCode == r.copyCode && qrImage == r.qrImage
      ensures !r.AwaitingPix? ==> pixCode == old(pixCode) && qrImage == old(qrImage)
    {
      var total := Total(quantity, useReward, UnitPrice(product));
      if !b.orderInsertOk {
        return Failed(OrderInsertFailed);
      }
      store.InsertOrder(NewOrder(newId, user.value.id, total, InitialStatus(total), today));
      orderId := Some(newId);
      assert store.orders[|store.orders| - 1].id == newId;
      r := SettleOrder(store, flow, newId, b);
    }

    /** The rest of the `try` once order `id` is written. */
    method SettleOrder(store: Store, flow: Flow, id: string, b: Backend) returns (r: CheckoutResult)
      requires store.Valid() && id in Ids(store.orders)
      modifies store`orders, store`items
      modifies this`step, this`orderPaid, this`pixCode, this`qrImage, this`brasas
      ensures store.Valid()
      ensures var p := Settle(flow, product, quantity, useReward, old(store.orders), old(store.items), id, b);
        store.orders == p.orders && store.items == p.items && r == p.result
      ensures r.FreeOrderPaid? ==> orderPaid && brasas == old(brasas) - 10
      ensures !r.FreeOrderPaid? ==> orderPaid == old(orderPaid) && brasas == old(brasas)
      ensures step == (if r.FreeOrderPaid? || r.AwaitingPix? then PaymentStep else old(step))
      ensures r.AwaitingPix? ==> pixCode == r.copyCode && qrImage == r.qrImage
      ensures !r.AwaitingPix? ==> pixCode == old(pixCode) && qrImage == old(qrImage)
    {
      var written := WriteItems(store, id, b);
      if !written {
        return Failed(ItemsInsertFailed);
      }
      if Total(quantity, useReward, UnitPrice(product)) == 0 {
        orderPaid := true;
        step := PaymentStep;
        brasas := brasas - 10;
        return FreeOrderPaid(id);
      }
      r := ChargeOrder(store, flow, id, b);
    }

    /** `itensParaInserir` and its insert, skipped when the list is empty. */
    method WriteItems(store: Store, orderId: string, b: Backend) returns (written: bool)
      requires store.Valid() && orderId in Ids(store.orders)
      modifies store`items
      ensures store.Valid()
      ensures var planned := PlannedItems(orderId, product, quantity, useReward);
        && written == (planned == [] || b.itemsInsertOk)
        && store.items == if written then old(store.items) + planned else old(store.items)
    {
      var batch: seq<Item> := [];
      if product.Some? {
        var billed := BilledQuantity(quantity, useReward);
        if billed > 0 {
          batch := batch + [Item(orderId, product.value.id, billed, product.value.price)];
        }
        if useReward {
          batch := batch + [Item(orderId, product.value.id, 1, 0)];
        }
      }
      assert batch == PlannedItems(orderId, product, quantity, useReward);
      if |batch| > 0 {
        if !b.itemsInsertOk {
          return false;
        }
        store.InsertItems(batch);
      } else {
        assert store.items + batch == store.items;
      }
      return true;
    }

    /** The PIX half of `gerarPedido`: the gateway call, the update storing
        the QR code, and on success the payment step with the code shown. */
    method ChargeOrder(store: Store, flow: Flow, id: string, b: Backend) returns (r: CheckoutResult)
      requires store.Valid()
      modifies store`orders, this`pixCode, this`qrImage, this`step
      ensures store.Valid()
      ensures var p := Charge(flow, old(store.orders), store.items, id, b);
        store.orders == p.orders && r == p.result
      ensures step == (if r.AwaitingPix? then PaymentStep else old(step))
      ensures r.AwaitingPix? ==> pixCode == r.copyCode && qrImage == r.qrImage
      ensures !r.AwaitingPix? ==> pixCode == old(pixCode) && qrImage == old(qrImage)
    {
      match b.gateway {
        case ChargeRefused =>
          return Failed(GatewayFailed);
        case Charged(reference, code, image) =>
          store.UpdateById(id, AttachCharge(reference, code));
          if b.pixSaveOk {
            store.UpdateById(id, SavePix(code, image));
          } else if flow == HookController {
            return Failed(PixSaveFailed);
          }
          pixCode := code;
          qrImage := image;
          step := PaymentStep;
          return AwaitingPix(id, code, image);
      }
    }
  }
}
