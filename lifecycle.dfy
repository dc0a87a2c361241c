/** The life of an order's status across every writer of the orders table:
    the storefront's insert and PIX writes, the admin's manual approval, the
    payment webhook and the pickup terminal. */
module Lifecycle {
  import opened Common
  import opened Orders
  import Checkout
  import Scanner

  /** `aprovarPagamentoPix`: `PAGO` by id, whatever the current status. */
  function ApproveUpdate(orders: seq<Order>, id: string): seq<Order> {
    PatchById(orders, id, SetStatus(Paid))
  }

  /** `webhook-pix`: on a payment notice whose payment the gateway reports
      `approved`, every order charged under that payment id becomes `PAGO`,
      whatever its current status. Other notices change nothing. */
  function WebhookUpdate(orders: seq<Order>, action: string, paymentId: string, gatewayStatus: string): seq<Order> {
    if (action == "payment.updated" || action == "payment.created") && gatewayStatus == "approved"
    then PatchByRef(orders, paymentId, SetStatus(Paid))
    else orders
  }

  /** One write to the orders table. */
  datatype Event =
    | Placed(id: string, owner: string, total: nat, day: int)         // checkout's insert
    | ChargeCreated(id: string, reference: string, code: string)       // written by criar-pix
    | PixSaved(id: string, code: string, image: string)                // checkout's QR update
    | Approved(id: string)                                             // admin panel
    | Notified(action: string, paymentId: string, gatewayStatus: string) // webhook
    | PickedUp(flow: Flow, id: string, lookup: Scanner.Lookup, updateOk: bool, now: int) // terminal

  function Step(orders: seq<Order>, items: seq<Item>, e: Event): seq<Order> {
    match e
    case Placed(id, owner, total, day) => orders + [NewOrder(id, owner, total, Checkout.InitialStatus(total), day)]
    case ChargeCreated(id, reference, code) => PatchById(orders, id, AttachCharge(reference, code))
    case PixSaved(id, code, image) => PatchById(orders, id, SavePix(code, image))
    case Approved(id) => ApproveUpdate(orders, id)
    case Notified(action, paymentId, status) => WebhookUpdate(orders, action, paymentId, status)
    case PickedUp(flow, id, lookup, updateOk, now) => Scanner.Redeem(flow, orders, items, id, lookup, updateOk, now).orders
  }

  /** Every delivered order carries its delivery time. */
  predicate DeliveryStamped(orders: seq<Order>) {
    forall i :: 0 <= i < |orders| ==> orders[i].status == Delivered ==> orders[i].deliveredAt.Some?
  }

  predicate Consistent(orders: seq<Order>) {
    UniqueIds(orders) && DeliveryStamped(orders)
  }

  /** Ids are never reused: the database generates a fresh one per insert. */
  predicate Admissible(orders: seq<Order>, e: Event) {
    e.Placed? ==> e.id !in Ids(orders)
  }

  // ---------------------------------------------------------------------

  lemma FoundIsTheOne(orders: seq<Order>, id: string, i: int)
    requires UniqueIds(orders) && 0 <= i < |orders| && orders[i].id == id
    ensures FindOrder(orders, id) == Some(orders[i])
  {
    FindOrderAt(orders, i);
  }

  lemma StepLength(orders: seq<Order>, items: seq<Item>, e: Event)
    ensures |Step(orders, items, e)| == if e.Placed? then |orders| + 1 else |orders|
    ensures forall i :: 0 <= i < |orders| ==> Step(orders, items, e)[i].id == orders[i].id
  {
  }

  /** Every write keeps ids unique and deliveries stamped. */
  lemma StepKeepsConsistent(orders: seq<Order>, items: seq<Item>, e: Event)
    requires Consistent(orders) && Admissible(orders, e)
    ensures Consistent(Step(orders, items, e))
  {
    StepKeepsIdsUnique(orders, items, e);
    StepKeepsStamped(orders, items, e);
  }

  lemma StepKeepsIdsUnique(orders: seq<Order>, items: seq<Item>, e: Event)
    requires UniqueIds(orders) && Admissible(orders, e)
    ensures UniqueIds(Step(orders, items, e))
  {
    StepLength(orders, items, e);
    if e.Placed? {
      forall i | 0 <= i < |orders| ensures orders[i].id != e.id {
        assert Ids(orders)[i] == orders[i].id;
      }
    }
  }

  lemma StepKeepsStamped(orders: seq<Order>, items: seq<Item>, e: Event)
    requires DeliveryStamped(orders)
    ensures DeliveryStamped(Step(orders, items, e))
  {
    match e
    case Placed(id, owner, total, day) =>
      var next := Step(orders, items, e);
      assert next[|orders|].status != Delivered;
    case ChargeCreated(id, reference, code) =>
      PatchByIdKeepsStamped(orders, id, AttachCharge(reference, code));
    case PixSaved(id, code, image) =>
      PatchByIdKeepsStamped(orders, id, SavePix(code, image));
    case Approved(id) =>
      PatchByIdKeepsStamped(orders, id, SetStatus(Paid));
    case Notified(action, paymentId, status) =>
      PatchByRefKeepsStamped(orders, paymentId, SetStatus(Paid));
    case PickedUp(flow, id, lookup, updateOk, now) =>
      PatchByIdKeepsStamped(orders, id, Deliver(now));
  }

  lemma PatchByIdKeepsStamped(orders: seq<Order>, id: string, p: Patch)
    requires DeliveryStamped(orders) && p != SetStatus(Delivered)
    ensures DeliveryStamped(PatchById(orders, id, p))
  {
  }

  lemma PatchByRefKeepsStamped(orders: seq<Order>, reference: string, p: Patch)
    requires DeliveryStamped(orders) && p != SetStatus(Delivered)
    ensures DeliveryStamped(PatchByRef(orders, reference, p))
  {
  }

  /** A run of writes, applied in order. */
  function Run(orders: seq<Order>, items: seq<Item>, es: seq<Event>): seq<Order>
    decreases |es|
  {
    if es == [] then orders else Run(Step(orders, items, es[0]), items, es[1..])
  }

  /** Every write of the run is admissible where it happens. */
  predicate AdmissibleRun(orders: seq<Order>, items: seq<Item>, es: seq<Event>)
    decreases |es|
  {
    es == [] || (Admissible(orders, es[0]) && AdmissibleRun(Step(orders, items, es[0]), items, es[1..]))
  }

  /** The writes `gerarPedido` makes to the orders table, in order: the
      insert, then, for a paid order whose items were written, the charge
      `criar-pix` stores and the QR update when it succeeds. */
  function PlaceEvents(req: Checkout.Request, newId: string, today: int, b: Checkout.Backend): seq<Event> {
    if req.user.None? || req.quantity > req.stock || !b.orderInsertOk then []
    else
      var total := Checkout.Total(req.quantity, req.useReward, Checkout.UnitPrice(req.product));
      var placed := [Placed(newId, req.user.value.id, total, today)];
      var planned := Checkout.PlannedItems(newId, req.product, req.quantity, req.useReward);
      if (planned != [] && !b.itemsInsertOk) || total == 0 then placed
      else
        match b.gateway
        case ChargeRefused => placed
        case Charged(reference, code, image) =>
          placed + [ChargeCreated(newId, reference, code)]
          + (if b.pixSaveOk then [PixSaved(newId, code, image)] else [])
  }

  lemma RunCons(orders: seq<Order>, items: seq<Item>, e: Event, es: seq<Event>)
    ensures Run(orders, items, [e] + es) == Run(Step(orders, items, e), items, es)
    ensures AdmissibleRun(orders, items, [e] + es)
        <==> Admissible(orders, e) && AdmissibleRun(Step(orders, items, e), items, es)
  {
    assert ([e] + es)[0] == e && ([e] + es)[1..] == es;
  }

  /** The checkout writes the orders table only through `Step`: in both
      copies its table is the run of its own events. */
  lemma PlaceIsRun(flow: Flow, req: Checkout.Request, orders: seq<Order>, items: seq<Item>,
                   newId: string, today: int, b: Checkout.Backend)
    ensures Checkout.Place(flow, req, orders, items, newId, today, b).orders
         == Run(orders, items, PlaceEvents(req, newId, today, b))
  {
    var es := PlaceEvents(req, newId, today, b);
    if es != [] {
      var tail := es[1..];
      assert es == [es[0]] + tail;
      RunCons(orders, items, es[0], tail);
      var placed := Step(orders, items, es[0]);
      if tail != [] {
        assert tail == [tail[0]] + tail[1..];
        RunCons(placed, items, tail[0], tail[1..]);
        if tail[1..] != [] {
          assert tail[1..] == [tail[1]] + [];
          RunCons(Step(placed, items, tail[0]), items, tail[1], []);
        }
      }
    }
  }

  lemma {:induction false} RunKeepsConsistent(orders: seq<Order>, items: seq<Item>, es: seq<Event>)
    requires Consistent(orders) && AdmissibleRun(orders, items, es)
    ensures Consistent(Run(orders, items, es))
    decreases |es|
  {
    if es != [] {
      StepKeepsConsistent(orders, items, es[0]);
      RunKeepsConsistent(Step(orders, items, es[0]), items, es[1..]);
    }
  }

  /** A checkout with a fresh order id keeps ids unique and deliveries
      stamped, whichever of its writes fail. */
  lemma PlaceKeepsConsistent(flow: Flow, req: Checkout.Request, orders: seq<Order>, items: seq<Item>,
                             newId: string, today: int, b: Checkout.Backend)
    requires Consistent(orders) && newId !in Ids(orders)
    ensures Consistent(Checkout.Place(flow, req, orders, items, newId, today, b).orders)
  {
    PlaceIsRun(flow, req, orders, items, newId, today, b);
    var es := PlaceEvents(req, newId, today, b);
    if es != [] {
      var tail := es[1..];
      assert es == [es[0]] + tail;
      RunCons(orders, items, es[0], tail);
      var placed := Step(orders, items, es[0]);
      if tail != [] {
        assert tail == [tail[0]] + tail[1..];
        RunCons(placed, items, tail[0], tail[1..]);
        if tail[1..] != [] {
          assert tail[1..] == [tail[1]] + [];
          RunCons(Step(placed, items, tail[0]), items, tail[1], []);
        }
      }
    }
    RunKeepsConsistent(orders, items, es);
  }

  /** `RETIRADO` is reached only through the pickup terminal, only from
      `PAGO`, and only for the scanned order; a new order is never born
      delivered. */
  lemma DeliveredOnlyByPickup(orders: seq<Order>, items: seq<Item>, e: Event, i: int)
    requires UniqueIds(orders)
    requires 0 <= i < |Step(orders, items, e)|
    requires i < |orders| ==> orders[i].status != Delivered
    requires Step(orders, items, e)[i].status == Delivered
    ensures i < |orders| && e.PickedUp? && orders[i].id == e.id && orders[i].status == Paid
  {
    if e.PickedUp? {
      PickupDeliversOnlyPaid(orders, items, e, i);
    } else {
      OtherWritesNeverDeliver(orders, items, e, i);
    }
  }

  lemma PickupDeliversOnlyPaid(orders: seq<Order>, items: seq<Item>, e: Event, i: int)
    requires UniqueIds(orders) && e.PickedUp? && 0 <= i < |orders|
    requires orders[i].status != Delivered && Step(orders, items, e)[i].status == Delivered
    ensures orders[i].id == e.id && orders[i].status == Paid
  {
    var r := Scanner.Redeem(e.flow, orders, items, e.id, e.lookup, e.updateOk, e.now);
    assert r.outcome.Handed?;
    assert orders[i].id == e.id;
    FoundIsTheOne(orders, e.id, i);
  }

  lemma OtherWritesNeverDeliver(orders: seq<Order>, items: seq<Item>, e: Event, i: int)
    requires !e.PickedUp? && 0 <= i < |Step(orders, items, e)|
    ensures Step(orders, items, e)[i].status == Delivered ==> i < |orders| && orders[i].status == Delivered
  {
    StepLength(orders, items, e);
  }

  /** `PAGO` is reached by an existing order only through the admin's
      approval or the payment webhook; a new order starts `PAGO` exactly when
      its total is 0. */
  lemma PaidOnlyByPayment(orders: seq<Order>, items: seq<Item>, e: Event, i: int)
    requires 0 <= i < |Step(orders, items, e)|
    requires i < |orders| ==> orders[i].status != Paid
    requires Step(orders, items, e)[i].status == Paid
    ensures i < |orders| ==> e.Approved? || e.Notified?
    ensures i == |orders| ==> e.Placed? && e.total == 0
  {
    StepLength(orders, items, e);
  }

  /** Approving twice is approving once. */
  lemma ApprovalIdempotent(orders: seq<Order>, id: string)
    ensures ApproveUpdate(ApproveUpdate(orders, id), id) == ApproveUpdate(orders, id)
  {
    var once := ApproveUpdate(orders, id);
    assert forall i :: 0 <= i < |orders| ==> once[i].id == orders[i].id;
  }

  /** The gateway's approval lands on the order that was charged under that
      payment id: after `criar-pix` stored the reference on order `id`, an
      approved notice for it makes that order `PAGO`, and touches no order
      holding another reference. */
  lemma WebhookPaysChargedOrder(orders: seq<Order>, id: string, reference: string, code: string,
                                action: string, k: int)
    requires action == "payment.updated" || action == "payment.created"
    requires 0 <= k < |orders| && orders[k].id == id
    ensures var charged := PatchById(orders, id, AttachCharge(reference, code));
      var paid := WebhookUpdate(charged, action, reference, "approved");
      && paid[k].status == Paid
      && paid[k].gatewayRef == Some(reference)
      && forall i :: 0 <= i < |orders| && charged[i].gatewayRef != Some(reference) ==> paid[i] == charged[i]
  {
  }

  /** The intended course of a paid order: placed with a positive total,
      charged, approved by the gateway, then picked up. It ends delivered at
      the pickup time, with its charge data, and no other order changes. */
  lemma PaidOrderCourse(orders: seq<Order>, items: seq<Item>, id: string, owner: string, total: nat,
                        day: int, reference: string, code: string, flow: Flow, now: int)
    requires UniqueIds(orders) && id !in Ids(orders) && total > 0
    requires forall i :: 0 <= i < |orders| ==> orders[i].gatewayRef != Some(reference)
    ensures var s1 := Step(orders, items, Placed(id, owner, total, day));
      var s2 := Step(s1, items, ChargeCreated(id, reference, code));
      var s3 := Step(s2, items, Notified("payment.updated", reference, "approved"));
      var s4 := Step(s3, items, PickedUp(flow, id, Scanner.LookupOk, true, now));
      && |s4| == |orders| + 1
      && s4[..|orders|] == orders
      && s4[|orders|].id == id && s4[|orders|].total == total
      && s4[|orders|].status == Delivered && s4[|orders|].deliveredAt == Some(now)
      && s4[|orders|].gatewayRef == Some(reference)
  {
    var o := NewOrder(id, owner, total, Checkout.InitialStatus(total), day);
    assert Step(orders, items, Placed(id, owner, total, day)) == orders + [o];
    var o2 := Apply(o, AttachCharge(reference, code));
    var o3 := Apply(o2, SetStatus(Paid));
    CourseStages(orders, items, o, reference, code, flow, now);
    assert (orders + [Apply(o3, Deliver(now))])[..|orders|] == orders;
  }

  lemma CourseStages(orders: seq<Order>, items: seq<Item>, o: Order, reference: string, code: string,
                     flow: Flow, now: int)
    requires UniqueIds(orders) && o.id !in Ids(orders) && o.status == AwaitingPayment
    requires forall i :: 0 <= i < |orders| ==> orders[i].gatewayRef != Some(reference)
    ensures var o2 := Apply(o, AttachCharge(reference, code));
      var o3 := Apply(o2, SetStatus(Paid));
      && Step(orders + [o], items, ChargeCreated(o.id, reference, code)) == orders + [o2]
      && Step(orders + [o2], items, Notified("payment.updated", reference, "approved")) == orders + [o3]
      && Step(orders + [o3], items, PickedUp(flow, o.id, Scanner.LookupOk, true, now)) == orders + [Apply(o3, Deliver(now))]
  {
    forall i | 0 <= i < |orders| ensures orders[i].id != o.id {
      assert Ids(orders)[i] == orders[i].id;
    }
    var o2 := Apply(o, AttachCharge(reference, code));
    var o3 := Apply(o2, SetStatus(Paid));
    assert Step(orders + [o], items, ChargeCreated(o.id, reference, code)) == orders + [o2] by {
      PatchFreshTail(orders, o, AttachCharge(reference, code));
    }
    assert Step(orders + [o2], items, Notified("payment.updated", reference, "approved")) == orders + [o3] by {
      PatchByRefTail(orders, o2, reference, SetStatus(Paid));
    }
    assert Step(orders + [o3], items, PickedUp(flow, o.id, Scanner.LookupOk, true, now))
        == orders + [Apply(o3, Deliver(now))] by {
      PickupStage(orders, items, o3, flow, now);
    }
  }

  lemma PickupStage(orders: seq<Order>, items: seq<Item>, o: Order, flow: Flow, now: int)
    requires UniqueIds(orders) && o.status == Paid
    requires forall i :: 0 <= i < |orders| ==> orders[i].id != o.id
    ensures Scanner.Redeem(flow, orders + [o], items, o.id, Scanner.LookupOk, true, now).orders
         == orders + [Apply(o, Deliver(now))]
  {
    assert UniqueIds(orders + [o]);
    FoundIsTheOne(orders + [o], o.id, |orders|);
    PatchFreshTail(orders, o, Deliver(now));
  }

  lemma PatchFreshTail(orders: seq<Order>, o: Order, p: Patch)
    requires forall i :: 0 <= i < |orders| ==> orders[i].id != o.id
    ensures PatchById(orders + [o], o.id, p) == orders + [Apply(o, p)]
  {
    var r := PatchById(orders + [o], o.id, p);
    assert forall i :: 0 <= i < |orders| ==> r[i] == orders[i];
    assert r[|orders|] == Apply(o, p);
  }

  lemma PatchByRefTail(orders: seq<Order>, o: Order, reference: string, p: Patch)
    requires forall i :: 0 <= i < |orders| ==> orders[i].gatewayRef != Some(reference)
    requires o.gatewayRef == Some(reference)
    ensures PatchByRef(orders + [o], reference, p) == orders + [Apply(o, p)]
  {
    var r := PatchByRef(orders + [o], reference, p);
    assert forall i :: 0 <= i < |orders| ==> r[i] == orders[i];
    assert r[|orders|] == Apply(o, p);
  }

  /** As written, neither the approval nor the webhook looks at the current
      status, so a notice for a payment whose bags were already handed over
      puts the order back to `PAGO`, and the same ticket is then accepted a
      second time. */
  lemma NoticeAfterPickupReopensOrder()
    ensures
      var o := NewOrder("p1", "u1", 1500, Paid, 0).(gatewayRef := Some("mp-1"));
      var delivered := Step([o], [], PickedUp(RoutedPage, "p1", Scanner.LookupOk, true, 10));
      var reopened := Step(delivered, [], Notified("payment.updated", "mp-1", "approved"));
      var again := Scanner.Redeem(RoutedPage, reopened, [], "p1", Scanner.LookupOk, true, 20);
      && delivered[0].status == Delivered
      && reopened[0].status == Paid
      && again.outcome.Handed?
  {
    var o := NewOrder("p1", "u1", 1500, Paid, 0).(gatewayRef := Some("mp-1"));
    assert FindOrder([o], "p1") == Some(o);
    var delivered := Step([o], [], PickedUp(RoutedPage, "p1", Scanner.LookupOk, true, 10));
    var reopened := Step(delivered, [], Notified("payment.updated", "mp-1", "approved"));
    assert FindOrder(reopened, "p1") == Some(reopened[0]);
  }
}
