/** The admin panel: today's revenue and bag count, the seven-day revenue
    chart, manual approval of a PIX payment and the product form. */
module Admin {
  import opened Common
  import opened Orders
  import Lifecycle

  /** The statuses that count as sold: `PAGO` or `RETIRADO`. */
  predicate Counted(o: Order) {
    o.status == Paid || o.status == Delivered
  }

  /** `pedidosHoje`: sold orders created on `today`. */
  function TodayOrders(orders: seq<Order>, today: int): (r: seq<Order>)
    ensures forall o :: o in r <==> o in orders && o.createdDay == today && Counted(o)
  {
    if orders == [] then []
    else (if orders[0].createdDay == today && Counted(orders[0]) then [orders[0]] else [])
         + TodayOrders(orders[1..], today)
  }

  /** `faturamentoHoje`. */
  function RevenueToday(orders: seq<Order>, today: int): nat {
    SumTotals(TodayOrders(orders, today))
  }

  /** `sacosVendidos`: every item of today's sold orders, free ones included. */
  function BagsToday(orders: seq<Order>, items: seq<Item>, today: int): nat {
    SumQty(ItemsOfOrders(items, Ids(TodayOrders(orders, today))))
  }

  /** Sold orders whose creation day carries the label `l`. The chart
      compares day/month labels only, so `dayLabel` gives the day's `dd/mm` text. */
  function Labelled(orders: seq<Order>, dayLabel: int -> string, l: string): seq<Order> {
    if orders == [] then []
    else (if dayLabel(orders[0].createdDay) == l && Counted(orders[0]) then [orders[0]] else [])
         + Labelled(orders[1..], dayLabel, l)
  }

  /** A bucket holds exactly the sold orders whose creation day carries its label. */
  lemma {:induction false} LabelledMembers(orders: seq<Order>, dayLabel: int -> string, l: string)
    ensures forall o :: o in Labelled(orders, dayLabel, l) <==> o in orders && dayLabel(o.createdDay) == l && Counted(o)
  {
    if orders != [] {
      LabelledMembers(orders[1..], dayLabel, l);
      assert orders == [orders[0]] + orders[1..];
    }
  }

  datatype Bucket = Bucket(day: string, total: nat)

  /** `dadosGrafico`: seven buckets, from six days before `today` to `today`. */
  function Chart(orders: seq<Order>, today: int, dayLabel: int -> string): (r: seq<Bucket>)
    ensures |r| == 7
    ensures forall i :: 0 <= i < 7 ==> r[i].day == dayLabel(today - (6 - i))
  {
    seq(7, i requires 0 <= i < 7 =>
      var l := dayLabel(today - (6 - i));
      Bucket(l, SumTotals(Labelled(orders, dayLabel, l))))
  }

  // ---------------------------------------------------------------------

  lemma {:induction false} TodayOrdersAppend(a: seq<Order>, b: seq<Order>, today: int)
    ensures TodayOrders(a + b, today) == TodayOrders(a, today) + TodayOrders(b, today)
  {
    if a == [] {
      assert a + b == b;
    } else {
      assert (a + b)[0] == a[0];
      assert (a + b)[1..] == a[1..] + b;
      TodayOrdersAppend(a[1..], b, today);
    }
  }

  lemma {:induction false} LabelledAppend(a: seq<Order>, b: seq<Order>, dayLabel: int -> string, l: string)
    ensures Labelled(a + b, dayLabel, l) == Labelled(a, dayLabel, l) + Labelled(b, dayLabel, l)
  {
    if a == [] {
      assert a + b == b;
    } else {
      assert (a + b)[0] == a[0];
      assert (a + b)[1..] == a[1..] + b;
      LabelledAppend(a[1..], b, dayLabel, l);
    }
  }

  /** An order that is not `PAGO`/`RETIRADO` (a pending one, in particular)
      changes neither the revenue, nor the bag count, nor any chart bucket. */
  lemma PendingNeverCounts(orders: seq<Order>, items: seq<Item>, o: Order, today: int, dayLabel: int -> string)
    requires !Counted(o)
    ensures RevenueToday(orders + [o], today) == RevenueToday(orders, today)
    ensures BagsToday(orders + [o], items, today) == BagsToday(orders, items, today)
    ensures Chart(orders + [o], today, dayLabel) == Chart(orders, today, dayLabel)
  {
    TodayOrdersAppend(orders, [o], today);
    assert TodayOrders([o], today) == [] + TodayOrders([], today);
    assert TodayOrders(orders + [o], today) == TodayOrders(orders, today);
    forall l: string ensures Labelled(orders + [o], dayLabel, l) == Labelled(orders, dayLabel, l) {
      LabelledAppend(orders, [o], dayLabel, l);
      assert Labelled([o], dayLabel, l) == [] + Labelled([], dayLabel, l);
    }
    var after := Chart(orders + [o], today, dayLabel);
    var before := Chart(orders, today, dayLabel);
    assert forall i :: 0 <= i < 7 ==> after[i] == before[i];
  }

  lemma {:induction false} LabelsMatchDays(orders: seq<Order>, today: int, dayLabel: int -> string)
    requires forall o :: o in orders && Counted(o) && dayLabel(o.createdDay) == dayLabel(today) ==> o.createdDay == today
    ensures Labelled(orders, dayLabel, dayLabel(today)) == TodayOrders(orders, today)
  {
    if orders != [] {
      assert forall o :: o in orders[1..] ==> o in orders;
      LabelsMatchDays(orders[1..], today, dayLabel);
    }
  }

  /** Today's bar shows today's revenue whenever no sold order in the table
      was created on another day carrying today's label. */
  lemma TodayBucketIsRevenue(orders: seq<Order>, today: int, dayLabel: int -> string)
    requires forall o :: o in orders && Counted(o) && dayLabel(o.createdDay) == dayLabel(today) ==> o.createdDay == today
    ensures Chart(orders, today, dayLabel)[6] == Bucket(dayLabel(today), RevenueToday(orders, today))
  {
    LabelsMatchDays(orders, today, dayLabel);
  }

  /** The chart's `dd/mm` labels ignore the year: a sold order from the same
      date a year earlier is added to today's bar although it is no part of
      today's revenue. */
  lemma SameDateLastYearInflatesToday(o: Order, today: int, dayLabel: int -> string)
    requires dayLabel(today - 365) == dayLabel(today)
    requires Counted(o) && o.createdDay == today - 365 && o.total > 0
    ensures RevenueToday([o], today) == 0
    ensures Chart([o], today, dayLabel)[6] == Bucket(dayLabel(today), o.total)
    ensures Chart([o], today, dayLabel)[6].total > RevenueToday([o], today)
  {
    assert [o][1..] == [];
    assert TodayOrders([o], today) == [] + TodayOrders([], today);
    assert Labelled([o], dayLabel, dayLabel(today)) == [o] + Labelled([], dayLabel, dayLabel(today));
    assert SumTotals([o]) == o.total + SumTotals([]);
    assert Chart([o], today, dayLabel)[6] == Bucket(dayLabel(today), SumTotals(Labelled([o], dayLabel, dayLabel(today))));
  }

  lemma PatchByIdTail(orders: seq<Order>, id: string, p: Patch)
    requires orders != []
    ensures PatchById(orders, id, p)
         == [if orders[0].id == id then Apply(orders[0], p) else orders[0]] + PatchById(orders[1..], id, p)
  {
  }

  lemma PatchByIdAbsent(orders: seq<Order>, id: string, p: Patch)
    requires forall i :: 0 <= i < |orders| ==> orders[i].id != id
    ensures PatchById(orders, id, p) == orders
  {
  }

  lemma RevenueCons(h: Order, t: seq<Order>, today: int)
    ensures RevenueToday([h] + t, today)
         == (if h.createdDay == today && Counted(h) then h.total else 0) + RevenueToday(t, today)
  {
    assert ([h] + t)[0] == h && ([h] + t)[1..] == t;
    var first: seq<Order> := if h.createdDay == today && Counted(h) then [h] else [];
    assert TodayOrders([h] + t, today) == first + TodayOrders(t, today);
    SumTotalsAppend(first, TodayOrders(t, today));
    assert SumTotals([h]) == h.total + SumTotals([]);
  }

  lemma UniqueIdsTail(orders: seq<Order>)
    requires UniqueIds(orders) && orders != []
    ensures UniqueIds(orders[1..])
  {
    var tail := orders[1..];
    forall i, j | 0 <= i < j < |tail| ensures tail[i].id != tail[j].id {
      assert tail[i] == orders[i + 1] && tail[j] == orders[j + 1];
    }
  }

  /** Approving a pending order created today adds exactly its total to
      today's revenue. */
  lemma {:induction false} ApprovalAddsToRevenue(orders: seq<Order>, k: int, today: int)
    requires UniqueIds(orders) && 0 <= k < |orders|
    requires orders[k].status == AwaitingPayment && orders[k].createdDay == today
    ensures RevenueToday(Lifecycle.ApproveUpdate(orders, orders[k].id), today)
         == RevenueToday(orders, today) + orders[k].total
    decreases |orders|, 2
  {
    if k == 0 {
      ApprovalAtHead(orders, today);
    } else {
      ApprovalPastHead(orders, k, today);
    }
  }

  lemma ApprovalAtHead(orders: seq<Order>, today: int)
    requires UniqueIds(orders) && orders != []
    requires orders[0].status == AwaitingPayment && orders[0].createdDay == today
    ensures RevenueToday(Lifecycle.ApproveUpdate(orders, orders[0].id), today)
         == RevenueToday(orders, today) + orders[0].total
  {
    var id := orders[0].id;
    var p := SetStatus(Paid);
    var tail := orders[1..];
    var h := Apply(orders[0], p);
    assert Lifecycle.ApproveUpdate(orders, id) == [h] + tail by {
      assert PatchById(tail, id, p) == tail by {
        forall i | 0 <= i < |tail| ensures tail[i].id != id {
          assert tail[i] == orders[i + 1];
        }
        PatchByIdAbsent(tail, id, p);
      }
      PatchByIdTail(orders, id, p);
    }
    assert RevenueToday(orders, today) == RevenueToday(tail, today) by {
      assert orders == [orders[0]] + tail;
      RevenueCons(orders[0], tail, today);
    }
    assert RevenueToday([h] + tail, today) == h.total + RevenueToday(tail, today) by {
      assert h.createdDay == today && Counted(h);
      RevenueCons(h, tail, today);
    }
  }

  lemma {:induction false} ApprovalPastHead(orders: seq<Order>, k: int, today: int)
    requires UniqueIds(orders) && 0 < k < |orders|
    requires orders[k].status == AwaitingPayment && orders[k].createdDay == today
    ensures RevenueToday(Lifecycle.ApproveUpdate(orders, orders[k].id), today)
         == RevenueToday(orders, today) + orders[k].total
    decreases |orders|, 1
  {
    var id := orders[k].id;
    var p := SetStatus(Paid);
    var tail := orders[1..];
    ApprovalInTail(orders, k, today);
    PatchByIdTail(orders, id, p);
    assert orders == [orders[0]] + tail;
    RevenueCons(orders[0], tail, today);
    RevenueCons(orders[0], PatchById(tail, id, p), today);
  }

  lemma {:induction false} ApprovalInTail(orders: seq<Order>, k: int, today: int)
    requires UniqueIds(orders) && 0 < k < |orders|
    requires orders[k].status == AwaitingPayment && orders[k].createdDay == today
    ensures orders[0].id != orders[k].id
    ensures RevenueToday(Lifecycle.ApproveUpdate(orders[1..], orders[k].id), today)
         == RevenueToday(orders[1..], today) + orders[k].total
    decreases |orders|, 0
  {
    var tail := orders[1..];
    assert tail[k - 1] == orders[k];
    UniqueIdsTail(orders);
    ApprovalAddsToRevenue(tail, k - 1, today);
  }

  // ---------------------------------------------------------------------
  // The panel's state

  /** `formData`. */
  datatype ProductForm = ProductForm(name: string, price: nat, stock: nat, active: bool)

  function FormOf(p: Product): ProductForm {
    ProductForm(p.name, p.price, p.stock, p.active)
  }

  const EmptyForm := ProductForm("", 0, 0, true)

  datatype Approval = Declined | ApprovedAndReloaded | ApproveFailed

  /** The approve button is offered only on a pending order. */
  predicate ApproveOffered(o: Order) {
    o.status == AwaitingPayment
  }

  class Dashboard {
    var loading: bool
    var orders: seq<Order>           // pedidos
    var products: seq<Product>       // produtos
    var revenue: nat                 // faturamentoHoje
    var bags: nat                    // sacosVendidos
    var modalOpen: bool              // isModalOpen
    var editing: Option<Product>     // editando
    var form: ProductForm            // formData
    var alert: Option<string>

    constructor ()
      ensures loading && orders == [] && products == [] && revenue == 0 && bags == 0
      ensures !modalOpen && editing == None && form == EmptyForm && alert == None
    {
      loading, orders, products, revenue, bags := true, [], [], 0, 0;
      modalOpen, editing, form, alert := false, None, EmptyForm, None;
    }

    /** `carregarDadosGlobais`. The hook fetches orders and products together
        and alerts when either fails; the routed page fetches them one after
        the other and stops silently at the first failure. KPIs are computed
        only when both arrived. */
    method Reload(store: Store, flow: Flow, today: int, ordersOk: bool, productsOk: bool)
      modifies this`loading, this`orders, this`products, this`revenue, this`bags, this`alert
      ensures !loading
      ensures orders == (if ordersOk && (productsOk || flow == RoutedPage) then store.orders else old(orders))
      ensures products == (if ordersOk && productsOk then store.products else old(products))
      ensures ordersOk && productsOk ==>
        revenue == RevenueToday(store.orders, today) && bags == BagsToday(store.orders, store.items, today)
      ensures !(ordersOk && productsOk) ==> revenue == old(revenue) && bags == old(bags)
      ensures alert == if flow == HookController && !(ordersOk && productsOk)
                       then Some("Falha ao carregar dados do painel.") else old(alert)
    {
      loading := true;
      if flow == HookController && !(ordersOk && productsOk) {
        alert := Some("Falha ao carregar dados do painel.");
      } else if ordersOk {
        orders := store.orders;
        if productsOk {
          products := store.products;
          var sold := TodayOrders(orders, today);
          revenue := SumTotals(sold);
          bags := SumQty(ItemsOfOrders(store.items, Ids(sold)));
        }
      }
      loading := false;
    }

    /** `aprovarPagamento`: after the confirm dialog, set `PAGO` on the order
        whatever its status, then reload. The hook alerts on an update error;
        the routed page ignores it. */
    method Approve(store: Store, flow: Flow, id: string, confirmed: bool, updateError: Option<string>,
                   today: int, ordersOk: bool, productsOk: bool) returns (r: Approval)
      requires store.Valid()
      modifies store`orders
      modifies this`loading, this`orders, this`products, this`revenue, this`bags, this`alert
      ensures store.Valid()
      ensures r == (if !confirmed then Declined else if updateError.Some? then ApproveFailed else ApprovedAndReloaded)
      ensures store.orders == if r == ApprovedAndReloaded then Lifecycle.ApproveUpdate(old(store.orders), id)
                              else old(store.orders)
      ensures r == ApproveFailed && flow == HookController ==> alert == Some("Erro ao aprovar PIX: " + updateError.value)
      ensures r == ApproveFailed && flow == RoutedPage ==> alert == old(alert)
      ensures r != ApprovedAndReloaded ==>
        orders == old(orders) && products == old(products) && revenue == old(revenue) && bags == old(bags)
      ensures r != ApprovedAndReloaded ==> loading == old(loading)
      ensures r == Declined ==> alert == old(alert)
      ensures r == ApprovedAndReloaded ==>
        && !loading
        && orders == (if ordersOk && (productsOk || flow == RoutedPage) then store.orders else old(orders))
        && products == (if ordersOk && productsOk then store.products else old(products))
        && (ordersOk && productsOk ==>
              revenue == RevenueToday(store.orders, today) && bags == BagsToday(store.orders, store.items, today))
        && (!(ordersOk && productsOk) ==> revenue == old(revenue) && bags == old(bags))
        && alert == (if flow == HookController && !(ordersOk && productsOk)
                     then Some("Falha ao carregar dados do painel.") else old(alert))
    {
      if !confirmed {
        return Declined;
      }
      if updateError.Some? {
        if flow == HookController {
          alert := Some("Erro ao aprovar PIX: " + updateError.value);
        }
        return ApproveFailed;
      }
      store.UpdateById(id, SetStatus(Paid));
      Reload(store, flow, today, ordersOk, productsOk);
      return ApprovedAndReloaded;
    }

    /** `abrirModal(p?)`: edit a copy of `p`'s fields, or a blank form. */
    method OpenModal(p: Option<Product>)
      modifies this`editing, this`form, this`modalOpen
      ensures modalOpen && editing == p
      ensures form == if p.Some? then FormOf(p.value) else EmptyForm
    {
      editing := p;
      if p.Some? {
        form := FormOf(p.value);
      } else {
        form := EmptyForm;
      }
      modalOpen := true;
    }
  }
}
