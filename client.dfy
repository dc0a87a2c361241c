/** The customer's area: the order list with its status badges and pickup
    tickets, the brasas balance with the rewards and progress it yields, and
    the copy-PIX button. */
module Client {
  import opened Common
  import opened Orders
  import Loyalty
  import Scanner
  import Auth

  /** `renderStatusBadge`. */
  datatype Badge = FreeReleased | Released | HandedOver | Pending | Cancelled

  /** The badge for a status text and an order total, tested in the source's
      order: a free paid order first, then the status itself. */
  function BadgeOf(status: string, total: nat): Badge {
    if total == 0 && status == "PAGO" then FreeReleased
    else if status == "PAGO" then Released
    else if status == "RETIRADO" then HandedOver
    else if status == "AGUARDANDO_PAGAMENTO" then Pending
    else Cancelled
  }

  /** Each badge names exactly one kind of order; every status the system
      does not know reads as cancelled. */
  lemma BadgeClassification(s: CanonicalStatus, total: nat)
    ensures var b := BadgeOf(StatusName(s), total);
      && (b == FreeReleased <==> s == Paid && total == 0)
      && (b == Released <==> s == Paid && total > 0)
      && (b == HandedOver <==> s == Delivered)
      && (b == Pending <==> s == AwaitingPayment)
      && (b == Cancelled <==> s.Other?)
  {
  }

  /** The pickup QR code: shown only for a `PAGO` order. */
  function Ticket(o: Order): Option<string> {
    if o.status == Paid then Some(Scanner.TicketUrl(o.id)) else None
  }

  /** A ticket the customer is shown is accepted by the terminal while the
      order is as shown: it reads back the order's id, and the order passes
      every check, so the bags are handed over when the update succeeds. */
  lemma ShownTicketIsAccepted(flow: Flow, orders: seq<Order>, items: seq<Item>, k: int, now: int)
    requires UniqueIds(orders) && 0 <= k < |orders| && '/' !in orders[k].id
    requires Ticket(orders[k]).Some?
    ensures var id := Scanner.LastSegment(Ticket(orders[k]).value);
      && id == orders[k].id
      && Scanner.Redeem(flow, orders, items, id, Scanner.LookupOk, true, now).outcome.Handed?
  {
    var o := orders[k];
    assert Ticket(o) == Some(Scanner.TicketUrl(o.id)) && o.status == Paid;
    Scanner.TicketRoundTrip(o.id);
    FindOrderAt(orders, k);
    HandedWhenPaid(flow, orders, items, o, now);
  }

  lemma HandedWhenPaid(flow: Flow, orders: seq<Order>, items: seq<Item>, o: Order, now: int)
    requires FindOrder(orders, o.id) == Some(o) && o.status == Paid
    ensures Scanner.Redeem(flow, orders, items, o.id, Scanner.LookupOk, true, now).outcome.Handed?
  {
  }

  /** What the session carries besides the user (`user_metadata`). */
  datatype Session = Session(user: User, fullName: string, phone: string)

  class ClientArea {
    var loading: bool
    var user: Option<User>
    var name: string                 // nome
    var phone: string                // telefone
    var orders: seq<Order>           // pedidos
    var redeemed: nat                // recompensasUsadas
    var brasas: int                  // brasasDisponiveis
    var copied: Option<string>       // pixCopiadoId
    var copyResets: nat              // copy timers still to fire
    var redirectedToLogin: bool

    constructor ()
      ensures loading && user == None && name == "" && phone == "" && orders == []
      ensures redeemed == 0 && brasas == 0 && copied == None && copyResets == 0 && !redirectedToLogin
    {
      loading, user, name, phone, orders := true, None, "", "", [];
      redeemed, brasas, copied, copyResets, redirectedToLogin := 0, 0, None, 0, false;
    }

    /** `recompensasDisponiveis`. */
    function Rewards(): int
      reads this
    {
      Loyalty.Rewards(brasas, Loyalty.ClientThreshold)
    }

    /** `progressoAtual`. */
    function Progress(): int
      reads this
    {
      Loyalty.Progress(brasas, Loyalty.ClientThreshold)
    }

    /** `carregarDados`: without a session, go to the login page without
        fetching anything. `sessionOk` says whether the session read answered:
        the hook's service throws when it does not, so nothing is loaded and
        nobody is redirected; the routed page ignores that error and reads it
        as no session. With a session, show the profile, then the customer's
        orders, then count the redeemed units (skipping the query when there
        are no orders) and compute the balance. A failed orders query stops
        there. A failed items query stops the hook (its service throws) but
        counts as no redemptions on the routed page. */
    method Load(store: Store, flow: Flow, session: Option<Session>, sessionOk: bool, ordersOk: bool, itemsOk: bool)
      modifies this`loading, this`user, this`name, this`phone, this`orders, this`redeemed
      modifies this`brasas, this`redirectedToLogin
      ensures !loading
      ensures !sessionOk && flow == HookController ==>
        redirectedToLogin == old(redirectedToLogin) && user == old(user) && name == old(name) && phone == old(phone)
        && orders == old(orders) && redeemed == old(redeemed) && brasas == old(brasas)
      ensures (sessionOk || flow == RoutedPage) && !(sessionOk && session.Some?) ==>
        redirectedToLogin && user == old(user) && name == old(name) && phone == old(phone)
        && orders == old(orders) && redeemed == old(redeemed) && brasas == old(brasas)
      ensures sessionOk && session.Some? ==>
        redirectedToLogin == old(redirectedToLogin) && user == Some(session.value.user)
        && name == session.value.fullName && phone == session.value.phone
      ensures sessionOk && session.Some? && ordersOk ==> orders == OrdersOf(store.orders, session.value.user.id)
      ensures !(sessionOk && session.Some? && ordersOk) ==> orders == old(orders)
      ensures var mine := OrdersOf(store.orders, if sessionOk && session.Some? then session.value.user.id else "");
        && (sessionOk && session.Some? && ordersOk && (itemsOk || mine == []) ==>
              redeemed == Loyalty.RedeemedUnits(mine, store.items)
              && brasas == Loyalty.Balance(mine, store.items, Loyalty.ClientUnitPrice, Loyalty.ClientThreshold))
        && (sessionOk && session.Some? && ordersOk && !itemsOk && mine != [] && flow == RoutedPage ==>
              redeemed == 0 && brasas == Loyalty.Spent(mine) / Loyalty.ClientUnitPrice)
        && (sessionOk && session.Some? && ordersOk && !itemsOk && mine != [] && flow == HookController ==>
              redeemed == old(redeemed) && brasas == old(brasas))
        && (!(sessionOk && session.Some? && ordersOk) ==> redeemed == old(redeemed) && brasas == old(brasas))
    {
      loading := true;
      if !sessionOk && flow == HookController {
        loading := false;
        return;
      }
      if !sessionOk || session.None? {
        redirectedToLogin := true;
        loading := false;
        return;
      }
      user := Some(session.value.user);
      name := session.value.fullName;
      phone := session.value.phone;
      if !ordersOk {
        loading := false;
        return;
      }
      var mine := OrdersOf(store.orders, session.value.user.id);
      orders := mine;
      var ids := Ids(mine);
      var count: nat := 0;
      if |ids| > 0 {
        if itemsOk {
          count := SumQty(FreeItems(ItemsOfOrders(store.items, ids)));
        } else if flow == HookController {
          loading := false;
          return;
        }
      }
      redeemed := count;
      var spent := SumTotals(Loyalty.DeliveredOrders(mine));
      brasas := spent / Loyalty.ClientUnitPrice - count * Loyalty.ClientThreshold;
      loading := false;
    }

    /** `handleTelefoneChange` of the profile form: the sign-up screen's
        mask. */
    method PhoneChanged(input: string)
      modifies this`phone
      ensures phone == Auth.MaskPhone(input)
      ensures |phone| <= 15 && Auth.Digits(phone) == Auth.KeptDigits(input)
    {
      Auth.MaskKeepsDigits(input);
      Auth.MaskLength(input);
      phone := Auth.MaskPhone(input);
    }

    /** `copiarPix`: mark that order's code as copied and start a 3-second
        timer that clears the mark. Earlier timers are not cancelled. */
    method CopyPix(pix: string, id: string)
      modifies this`copied, this`copyResets
      ensures copied == Some(id) && copyResets == old(copyResets) + 1
    {
      copied := Some(id);
      copyResets := copyResets + 1;
    }

    /** One of the copy timers fires and clears the mark, whichever order it
        was started for. */
    method CopyTimerFires()
      modifies this`copied, this`copyResets
      ensures old(copyResets) > 0 ==> copied == None && copyResets == old(copyResets) - 1
      ensures old(copyResets) == 0 ==> copied == old(copied) && copyResets == 0
    {
      if copyResets > 0 {
        copied := None;
        copyResets := copyResets - 1;
      }
    }
  }
}
