/** The pickup terminal: the QR ticket a customer shows, the id read back
    from it, the guard `processarQRCode` applies before handing over the
    bags, and the terminal's four-state screen with its restart timer. */
module Scanner {
  import opened Common
  import opened Orders
  import Checkout

  /** The address encoded in a pickup ticket, followed by the order id. */
  const TicketBase: string := "https://brasa-express.vercel.app/admin/entrega/"

  function TicketUrl(id: string): string {
    TicketBase + id
  }

  /** `decodedText.split("/").pop()`: the text after the last `/`, or all of
      it when there is none. */
  function LastSegment(text: string): (r: string)
    ensures '/' !in r
    ensures |r| <= |text| && r == text[|text| - |r|..]
    ensures |r| < |text| ==> text[|text| - |r| - 1] == '/'
  {
    if text == [] then []
    else if text[|text| - 1] == '/' then []
    else
      var init := text[..|text| - 1];
      var rest := LastSegment(init);
      assert init[|init| - |rest|..] + [text[|text| - 1]] == text[|text| - |rest| - 1..];
      rest + [text[|text| - 1]]
  }

  /** Reading back a ticket gives the order id it was made for, and so does
      reading a bare id, as long as the id has no `/` (database ids are UUIDs). */
  lemma TicketRoundTrip(id: string)
    requires '/' !in id
    ensures LastSegment(TicketUrl(id)) == id
    ensures LastSegment(id) == id
  {
    var text := TicketUrl(id);
    assert text[|TicketBase| - 1] == '/';
    assert text[|TicketBase|..] == id;
  }

  /** Why a scan did not hand anything over. */
  datatype ScanError =
    | NotFound                    // "Pedido não encontrado no banco de dados."
    | LookupFailed(message: string) // the database's own error, rethrown
    | AlreadyDelivered
    | PaymentPending
    | InvalidStatus(status: string)
    | UpdateFailed

  /** `erroMsg` for each error; the two copies word the update error apart. */
  function ErrorMessage(flow: Flow, e: ScanError): string {
    match e
    case NotFound => "Pedido não encontrado no banco de dados."
    case LookupFailed(m) => m
    case AlreadyDelivered => "ALERTA: Este pedido já foi entregue!"
    case PaymentPending => "ALERTA: O pagamento está pendente!"
    case InvalidStatus(s) => "Status inválido: " + s
    case UpdateFailed =>
      if flow == HookController then "Erro ao atualizar o status para RETIRADO."
      else "Erro ao atualizar o status."
  }

  /** `pedidoInfo`: the order as read, with `qtdTotal` and `qtdBrindes`. */
  datatype PickupInfo = PickupInfo(order: Order, totalUnits: nat, freeUnits: nat)

  datatype Outcome = Handed(info: PickupInfo) | Rejected(error: ScanError)

  datatype Redemption = Redemption(orders: seq<Order>, outcome: Outcome)

  /** Whether the order-with-items query answered. `.single()` reports a
      missing row as an error, so a missing order arrives as `LookupError`. */
  datatype Lookup = LookupOk | LookupError(message: string)

  /** `processarQRCode` on the orders table: look the order up with its
      items, check its status, then mark it delivered at `now`.
      The routed page turns any lookup error into "not found"; the hook's
      service rethrows the database's error. */
  function Redeem(flow: Flow, orders: seq<Order>, items: seq<Item>, id: string,
                  lookup: Lookup, updateOk: bool, now: int): Redemption
  {
    if lookup.LookupError? then
      Redemption(orders, Rejected(if flow == HookController then LookupFailed(lookup.message) else NotFound))
    else
      match FindOrder(orders, id)
      case None => Redemption(orders, Rejected(NotFound))
      case Some(o) =>
        if o.status == Delivered then Redemption(orders, Rejected(AlreadyDelivered))
        else if o.status == AwaitingPayment then Redemption(orders, Rejected(PaymentPending))
        else if o.status != Paid then Redemption(orders, Rejected(InvalidStatus(StatusName(o.status))))
        else if !updateOk then Redemption(orders, Rejected(UpdateFailed))
        else
          var mine := ItemsOf(items, id);
          Redemption(PatchById(orders, id, Deliver(now)),
                     Handed(PickupInfo(o, SumQty(mine), SumQty(FreeItems(mine)))))
  }

  // ---------------------------------------------------------------------
  // Properties of the guard

  /** Bags are handed over exactly when the order exists, is `PAGO` and the
      delivery update succeeds; the status checks come in the source's
      order and each rejection names the first one that fails. */
  lemma HandedIffPaid(flow: Flow, orders: seq<Order>, items: seq<Item>, id: string,
                      lookup: Lookup, updateOk: bool, now: int)
    ensures var r := Redeem(flow, orders, items, id, lookup, updateOk, now);
      var found := FindOrder(orders, id);
      && (r.outcome.Handed? <==> lookup == LookupOk && found.Some? && found.value.status == Paid && updateOk)
      && (lookup == LookupOk && found.None? ==> r.outcome == Rejected(NotFound))
      && (lookup == LookupOk && found.Some? && found.value.status == Delivered ==> r.outcome == Rejected(AlreadyDelivered))
      && (lookup == LookupOk && found.Some? && found.value.status == AwaitingPayment ==> r.outcome == Rejected(PaymentPending))
      && (lookup == LookupOk && found.Some? && found.value.status.Other? ==>
            r.outcome == Rejected(InvalidStatus(found.value.status.name)))
  {
  }

  /** The check compares the column's text with "PAGO": any order whose
      stored status reads "PAGO" is handed over when the update succeeds. */
  lemma PaidTextIsHandedOver(flow: Flow, orders: seq<Order>, items: seq<Item>, k: int, now: int)
    requires UniqueIds(orders) && 0 <= k < |orders|
    requires StatusName(orders[k].status) == "PAGO"
    ensures Redeem(flow, orders, items, orders[k].id, LookupOk, true, now).outcome.Handed?
  {
    FindOrderAt(orders, k);
  }

  /** Every rejected scan leaves the orders table as it was: the update is
      the last step. */
  lemma RejectionKeepsOrders(flow: Flow, orders: seq<Order>, items: seq<Item>, id: string,
                             lookup: Lookup, updateOk: bool, now: int)
    ensures var r := Redeem(flow, orders, items, id, lookup, updateOk, now);
      r.outcome.Rejected? ==> r.orders == orders
  {
  }

  lemma HandOverWritesDelivery(flow: Flow, orders: seq<Order>, items: seq<Item>, id: string,
                               lookup: Lookup, updateOk: bool, now: int)
    ensures var r := Redeem(flow, orders, items, id, lookup, updateOk, now);
      r.outcome.Handed? ==> r.orders == PatchById(orders, id, Deliver(now))
  {
  }

  /** A hand-over changes only the scanned order, and only its status and
      delivery time, which are set together. */
  lemma HandOverMarksOnlyThatOrder(flow: Flow, orders: seq<Order>, items: seq<Item>, id: string,
                                   lookup: Lookup, updateOk: bool, now: int)
    ensures var r := Redeem(flow, orders, items, id, lookup, updateOk, now);
      r.outcome.Handed? ==>
        && r.outcome.info.order.status == Paid
        && |r.orders| == |orders|
        && forall i :: 0 <= i < |orders| ==>
             r.orders[i] == if orders[i].id == id
                            then orders[i].(status := Delivered, deliveredAt := Some(now))
                            else orders[i]
  {
  }

  /** The same ticket cannot be redeemed twice: after a hand-over, the next
      scan that finds the order reports it as already delivered. */
  lemma SecondScanAlreadyDelivered(flow: Flow, orders: seq<Order>, items: seq<Item>, id: string,
                                   updateOk: bool, now: int, updateOk2: bool, later: int)
    ensures var r := Redeem(flow, orders, items, id, LookupOk, updateOk, now);
      r.outcome.Handed? ==>
        Redeem(flow, r.orders, items, id, LookupOk, updateOk2, later) == Redemption(r.orders, Rejected(AlreadyDelivered))
  {
    var r := Redeem(flow, orders, items, id, LookupOk, updateOk, now);
    if r.outcome.Handed? {
      assert id in Ids(orders) && r.orders == PatchById(orders, id, Deliver(now));
      FoundAfterDeliveryIsDelivered(orders, id, now);
    }
  }

  lemma FoundAfterDeliveryIsDelivered(orders: seq<Order>, id: string, now: int)
    requires id in Ids(orders)
    ensures var found := FindOrder(PatchById(orders, id, Deliver(now)), id);
      found.Some? && found.value.status == Delivered
  {
    var after := PatchById(orders, id, Deliver(now));
    var k :| 0 <= k < |orders| && Ids(orders)[k] == id;
    assert Ids(after)[k] == id;
    var found := FindOrder(after, id).value;
    var j :| 0 <= j < |after| && after[j] == found;
    assert after[j].status == Delivered;
  }

  /** The free bags are among the bags handed over. */
  lemma FreeUnitsWithinTotal(flow: Flow, orders: seq<Order>, items: seq<Item>, id: string,
                             lookup: Lookup, updateOk: bool, now: int)
    ensures var r := Redeem(flow, orders, items, id, lookup, updateOk, now);
      r.outcome.Handed? ==> r.outcome.info.freeUnits <= r.outcome.info.totalUnits
  {
    FreeQtyAtMostQty(ItemsOf(items, id));
  }

  /** What the terminal shows for an order from the storefront matches what
      was bought: as many bags as were asked for, of which one is free
      exactly when a reward was used. */
  lemma PickupCountsMatchPurchase(flow: Flow, orders: seq<Order>, items: seq<Item>, id: string,
                                  lookup: Lookup, updateOk: bool, now: int,
                                  p: Product, quantity: nat, useReward: bool)
    requires p.price > 0 && quantity >= 1
    requires forall it :: it in items ==> it.orderId != id
    ensures var all := items + Checkout.PlannedItems(id, Some(p), quantity, useReward);
      var r := Redeem(flow, orders, all, id, lookup, updateOk, now);
      r.outcome.Handed? ==>
        r.outcome.info.totalUnits == quantity
        && r.outcome.info.freeUnits == (if useReward then 1 else 0)
  {
    var planned := Checkout.PlannedItems(id, Some(p), quantity, useReward);
    Checkout.PlannedItemsMatchTotal(id, p, quantity, useReward);
    ItemsOfAppend(items, planned, id);
    ItemsOfNone(items, id);
    ItemsOfAll(planned, id);
    assert ItemsOf(items + planned, id) == planned;
  }

  // ---------------------------------------------------------------------
  // The terminal's screen

  datatype ScanStatus = Waiting | Processing | Succeeded | Errored

  class Terminal {
    var status: ScanStatus
    var info: Option<PickupInfo>     // pedidoInfo
    var error: string                // erroMsg
    var restartPending: bool         // restartTimerRef holds a timer
    var scanning: Option<string>     // the id a running processarQRCode works on

    ghost predicate Valid()
      reads this
    {
      && (restartPending ==> status == Succeeded || status == Errored)
      && (status == Succeeded ==> info.Some?)
      && (status == Processing ==> scanning.Some?)
    }

    constructor ()
      ensures Valid() && status == Waiting && info == None && error == ""
      ensures !restartPending && scanning == None
    {
      status, info, error, restartPending, scanning := Waiting, None, "", false, None;
    }

    /** The camera is mounted only while the terminal waits. */
    predicate CameraOn()
      reads this
    {
      status == Waiting
    }

    /** The camera read `text`. With the camera off there is no reading; an
        empty id is ignored; otherwise processing starts on that id. */
    method Decoded(text: string)
      requires Valid()
      modifies this`status, this`scanning
      ensures Valid()
      ensures var id := LastSegment(text);
        if old(CameraOn()) && id != [] then status == Processing && scanning == Some(id)
        else status == old(status) && scanning == old(scanning)
    {
      if CameraOn() {
        var id := LastSegment(text);
        if id != [] {
          status := Processing;
          scanning := Some(id);
        }
      }
    }

    /** The rest of `processarQRCode`, once the lookup has answered: on
        success the order is marked delivered and the counts are shown, on
        any failure the message is; both arm the restart timer. */
    method Processed(store: Store, flow: Flow, lookup: Lookup, updateOk: bool, now: int)
      requires Valid() && store.Valid() && scanning.Some?
      modifies store`orders, this`status, this`info, this`error, this`restartPending, this`scanning
      ensures Valid() && store.Valid()
      ensures var r := Redeem(flow, old(store.orders), store.items, old(scanning.value), lookup, updateOk, now);
        && store.orders == r.orders
        && restartPending && scanning == None
        && (r.outcome.Handed? ==> status == Succeeded && info == Some(r.outcome.info) && error == old(error))
        && (r.outcome.Rejected? ==>
              status == Errored && info == old(info) && error == ErrorMessage(flow, r.outcome.error))
    {
      var id := scanning.value;
      var r := Redeem(flow, store.orders, store.items, id, lookup, updateOk, now);
      HandOverWritesDelivery(flow, store.orders, store.items, id, lookup, updateOk, now);
      RejectionKeepsOrders(flow, store.orders, store.items, id, lookup, updateOk, now);
      if r.outcome.Handed? {
        store.UpdateById(id, Deliver(now));
        info := Some(r.outcome.info);
        status := Succeeded;
      } else {
        error := ErrorMessage(flow, r.outcome.error);
        status := Errored;
      }
      restartPending := true;
      scanning := None;
    }

    /** `reiniciarManualmente`: cancel the timer, clear the screen, wait. */
    method Restart()
      requires Valid()
      modifies this`status, this`info, this`error, this`restartPending
      ensures Valid()
      ensures !restartPending && info == None && error == "" && status == Waiting && CameraOn()
    {
      restartPending := false;
      info := None;
      error := "";
      status := Waiting;
    }

    /** The 4-second timer runs out, if one is pending. */
    method RestartTimerFires()
      requires Valid()
      modifies this`status, this`info, this`error, this`restartPending
      ensures Valid()
      ensures old(restartPending) ==> !restartPending && info == None && error == "" && status == Waiting
      ensures !old(restartPending) ==> status == old(status) && info == old(info) && error == old(error)
      ensures !restartPending
    {
      if restartPending {
        Restart();
      }
    }

    /** Leaving the page cancels a pending restart. */
    method Unmount()
      requires Valid()
      modifies this`restartPending
      ensures Valid() && !restartPending
    {
      restartPending := false;
    }
  }
}
