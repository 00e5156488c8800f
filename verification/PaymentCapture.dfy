/** The payment service's calls and payOrder: authorize when there is no payment, then capture. */
module PaymentCapture {
  import opened Wrappers
  import opened FreshIds
  import opened CheckoutModel
  import opened CheckoutPayments

  /** An amount that does not read as a finite number is None; it is in cents otherwise. */
  datatype Money = Money(amount: Option<int>, currency: string)

  /** Every field may be missing; an empty string counts as missing. */
  datatype AuthorizeRequest = AuthorizeRequest(order: Option<OrderId>, user: Option<UserId>,
                                               total: Option<Money>, key: Option<Key>)

  datatype RpcError = Invalid | PaymentNotFound | WrongStatus

  datatype PayError = OrderNotFound | Rpc(error: RpcError) | GatewayTimeout

  /** Which of payOrder's two calls, if any, times out although the payment service carried it out. */
  datatype Lost = Neither | TheAuthorize | TheCapture

  predicate WellFormedRequest(r: AuthorizeRequest) {
    && r.order.Some? && r.user.Some? && r.total.Some? && r.key.Some?
    && r.total.value.amount.Some? && r.total.value.amount.value > 0 && r.total.value.currency != ""
  }

  /** Only payments of order `o` may differ, and at most one of them is new. */
  ghost predicate OnlyFor(o: OrderId, before: map<PaymentId, Payment>, after: map<PaymentId, Payment>) {
    && PaymentsKept(before, after)
    && (forall p :: p in after && after[p].order != o ==> p in before && after[p] == before[p])
    && (forall p, q :: p in after && q in after && p !in before && q !in before ==> p == q)
  }

  class PaymentsService {
    var payments: map<PaymentId, Payment>

    constructor ()
      ensures payments == map[]
    {
      payments := map[];
    }

    /** The request's payment, whether it was there already or is new; nothing is charged twice. */
    method Authorize(r: AuthorizeRequest) returns (result: Result<PaymentId, RpcError>)
      modifies this
      ensures result.Err? <==>
        || r.order.None? || r.user.None? || r.key.None? || r.total.None? || r.total.value.amount.None?
        || r.total.value.amount.value <= 0 || r.total.value.currency == ""
      ensures result.Err? ==> result.error == Invalid && payments == old(payments)
      ensures result.Ok? ==>
        var p := result.value;
        var already := exists q :: (q in old(payments) && old(payments)[q].order == r.order.value
                                    && old(payments)[q].key == r.key.value);
        && p in payments && payments[p].order == r.order.value && payments[p].key == r.key.value
        && (already ==> payments == old(payments))
        && (!already ==>
              && p !in old(payments)
              && payments == old(payments)[p :=
                   Payment(r.order.value, r.key.value, r.total.value.amount.value, Authorized)])
    {
      if !WellFormedRequest(r) {
        return Err(Invalid);
      }
      if q :| q in payments && payments[q].order == r.order.value && payments[q].key == r.key.value {
        return Ok(q);
      }
      FreshNat(payments.Keys);
      var p :| p !in payments;
      payments := payments[p := Payment(r.order.value, r.key.value, r.total.value.amount.value, Authorized)];
      return Ok(p);
    }

    /** Moves a payment from one status to the next; doing it again changes nothing. */
    method Advance(id: Option<PaymentId>, from: PaymentStatus, to: PaymentStatus)
      returns (result: Result<(), RpcError>)
      modifies this
      ensures result == (if id.None? then Err(Invalid)
                         else if id.value !in old(payments) then Err(PaymentNotFound)
                         else if old(payments)[id.value].status != from && old(payments)[id.value].status != to
                           then Err(WrongStatus)
                         else Ok(()))
      ensures payments == if result.Ok? then old(payments)[id.value := old(payments)[id.value].(status := to)]
                          else old(payments)
    {
      if id.None? {
        return Err(Invalid);
      }
      if id.value !in payments {
        return Err(PaymentNotFound);
      }
      var payment := payments[id.value];
      if payment.status == to {
        return Ok(());
      }
      if payment.status != from {
        return Err(WrongStatus);
      }
      payments := payments[id.value := payment.(status := to)];
      return Ok(());
    }

    /** A captured payment stays captured, a refunded one cannot be captured any more. */
    method Capture(id: Option<PaymentId>) returns (result: Result<(), RpcError>)
      modifies this
      ensures result.Ok? <==> id.Some? && id.value in old(payments) && !old(payments)[id.value].status.Refunded?
      ensures result.Ok? ==> payments == old(payments)[id.value := old(payments)[id.value].(status := Captured)]
      ensures result.Err? ==> payments == old(payments)
      ensures PaymentsKept(old(payments), payments)
    {
      result := Advance(id, Authorized, Captured);
    }

    /** Only what was captured is refunded, once. */
    method Refund(id: Option<PaymentId>) returns (result: Result<(), RpcError>)
      modifies this
      ensures result.Ok? <==> id.Some? && id.value in old(payments) && !old(payments)[id.value].status.Authorized?
      ensures result.Ok? ==> payments == old(payments)[id.value := old(payments)[id.value].(status := Refunded)]
      ensures result.Err? ==> payments == old(payments)
      ensures PaymentsKept(old(payments), payments)
    {
      result := Advance(id, Captured, Refunded);
    }
  }

  /** The order can be paid: it has a payment that is not refunded, or owes something and has none. */
  ghost predicate Payable(orders: map<OrderId, Order>, payments: map<PaymentId, Payment>, o: OrderId) {
    && o in orders
    && (forall p :: p in payments && payments[p].order == o ==> !payments[p].status.Refunded?)
    && (orders[o].total > 0 || exists p :: p in payments && payments[p].order == o)
  }

  class OrderPayments {
    const service: PaymentsService
    var orders: map<OrderId, Order>

    constructor (service: PaymentsService, orders: map<OrderId, Order>)
      ensures this.service == service && this.orders == orders
    {
      this.service, this.orders := service, orders;
    }

    /** The order's payment, authorized now if there was none. */
    method FindOrAuthorize(o: OrderId, user: UserId) returns (found: Result<PaymentId, RpcError>)
      requires o in orders && PaymentsSound(orders, service.payments)
      modifies service
      ensures PaymentsSound(orders, service.payments) && OnlyFor(o, old(service.payments), service.payments)
      ensures found.Ok? ==> PaymentOf(service.payments, found.value, o)
      ensures found.Ok? <==> orders[o].total > 0
                             || exists p :: p in old(service.payments) && old(service.payments)[p].order == o
      ensures forall p :: p in service.payments && p !in old(service.payments) ==>
                            service.payments[p].status == Authorized
      ensures (exists p :: p in old(service.payments) && old(service.payments)[p].order == o) ==>
                service.payments == old(service.payments)
    {
      if p :| p in service.payments && service.payments[p].order == o {
        return Ok(p);
      }
      var order := orders[o];
      found := service.Authorize(AuthorizeRequest(Some(o), Some(user), Some(Money(Some(order.total), "USD")),
                                                  Some(order.key)));
      if found.Ok? {
        PaymentsAfterInsert(orders, old(service.payments), found.value, service.payments[found.value]);
      }
    }

    /**
     payOrder: whatever times out, the order has at most one payment, for its own key and total, and a
     call that succeeds has captured it. Without a timeout it succeeds exactly when the order is payable.
     */
    method PayOrder(o: OrderId, user: UserId, mayRead: bool, lost: Lost) returns (r: Result<PaymentId, PayError>)
      requires PaymentsSound(orders, service.payments)
      modifies service
      ensures PaymentsSound(orders, service.payments) && OnlyFor(o, old(service.payments), service.payments)
      ensures r == Err(OrderNotFound) <==> o !in orders || !mayRead
      ensures r == Err(OrderNotFound) ==> service.payments == old(service.payments)
      ensures r.Ok? ==> PaymentOf(service.payments, r.value, o) && service.payments[r.value].status == Captured
      ensures lost.Neither? ==> (r.Ok? <==> mayRead && Payable(orders, old(service.payments), o))
      ensures r.Ok? ==> mayRead && Payable(orders, old(service.payments), o)
      ensures lost.TheCapture? && r == Err(GatewayTimeout) ==>
        exists p :: PaymentOf(service.payments, p, o) && service.payments[p].status == Captured
    {
      if o !in orders || !mayRead {
        return Err(OrderNotFound);
      }
      ghost var before := service.payments;
      var hadNone := forall p :: p in service.payments ==> service.payments[p].order != o;
      var found := FindOrAuthorize(o, user);
      if found.Err? {
        return Err(Rpc(found.error));
      }
      if hadNone && lost.TheAuthorize? {
        return Err(GatewayTimeout);
      }
      var p := found.value;
      if service.payments[p].status == Captured {
        return Ok(p);
      }
      ghost var middle := service.payments;
      var captured := service.Capture(Some(p));
      if captured.Err? {
        return Err(Rpc(captured.error));
      }
      PaymentsAfterMove(orders, middle, p, service.payments[p]);
      if lost.TheCapture? {
        return Err(GatewayTimeout);
      }
      return Ok(p);
    }
  }
}
