/** One payment per order, for the order's own key and total, whatever times out and is tried again. */
module CheckoutPayments {
  import opened Wrappers
  import opened CheckoutModel
  import opened CheckoutStock
  import opened CheckoutUnique

  predicate Owes(orders: map<OrderId, Order>, o: OrderId, key: Key, amount: nat) {
    o in orders && orders[o].key == key && orders[o].total == amount
  }

  ghost predicate CommittedSound(orders: map<OrderId, Order>, txs: map<TxId, Tx>) {
    forall t :: t in txs && txs[t].pc.Committed? ==>
      Owes(orders, txs[t].pc.order, txs[t].dto.key, txs[t].pc.total)
  }

  ghost predicate RequestsSound(orders: map<OrderId, Order>, payments: map<PaymentId, Payment>,
                                requests: map<RequestId, Request>)
  {
    forall r :: r in requests ==>
      && Owes(orders, requests[r].order, requests[r].key, requests[r].amount)
      && (requests[r].phase.Replied? ==> PaymentOf(payments, requests[r].phase.payment, requests[r].order))
  }

  predicate PaymentOf(payments: map<PaymentId, Payment>, p: PaymentId, o: OrderId) {
    p in payments && payments[p].order == o
  }

  ghost predicate PaymentsSound(orders: map<OrderId, Order>, payments: map<PaymentId, Payment>) {
    && (forall p :: p in payments ==> Owes(orders, payments[p].order, payments[p].key, payments[p].amount))
    && (forall p, q :: p in payments && q in payments && payments[p].order == payments[q].order ==> p == q)
  }

  predicate PaySound(payments: map<PaymentId, Payment>, requests: map<RequestId, Request>, pay: Pay) {
    match pay.pc
    case Missing => true
    case Waiting(r) => r in requests && requests[r].order == pay.order
    case Holding(p) => PaymentOf(payments, p, pay.order)
    case Paid(p) => PaymentOf(payments, p, pay.order) && !payments[p].status.Authorized?
  }

  ghost predicate PaysSound(payments: map<PaymentId, Payment>, requests: map<RequestId, Request>,
                            pays: map<PayId, Pay>)
  {
    forall y :: y in pays ==> PaySound(payments, requests, pays[y])
  }

  ghost predicate MoneySound(s: State) {
    && CommittedSound(s.orders, s.txs)
    && RequestsSound(s.orders, s.payments, s.requests)
    && PaymentsSound(s.orders, s.payments)
    && PaysSound(s.payments, s.requests, s.pays)
  }

  // ---- what a step can do to orders and payments ----------------------------------------------

  ghost predicate OrdersKept(orders: map<OrderId, Order>, orders': map<OrderId, Order>) {
    forall o :: o in orders ==> o in orders' && orders'[o] == orders[o]
  }

  function Rank(status: PaymentStatus): nat {
    match status
    case Authorized => 0
    case Captured => 1
    case Refunded => 2
  }

  predicate Later(before: Payment, after: Payment) {
    after == before.(status := after.status) && Rank(before.status) <= Rank(after.status)
  }

  /** Payments are never dropped, never change hands or amount, and never go back in status. */
  ghost predicate PaymentsKept(payments: map<PaymentId, Payment>, payments': map<PaymentId, Payment>) {
    forall p :: p in payments ==> p in payments' && Later(payments[p], payments'[p])
  }

  lemma CreateStepKeepsMoney(s: State, l: Label)
    requires Enabled(s, l) && CreateLabel(l)
    ensures Next(s, l).payments == s.payments && Next(s, l).pays == s.pays
    ensures !l.SendAuthorize? ==> Next(s, l).requests == s.requests
  {}

  /** A committed order row keeps its items, key and total for good. */
  lemma OrdersStay(s: State, l: Label)
    requires UniqueSound(s) && Sound(s) && Enabled(s, l)
    ensures OrdersKept(s.orders, Next(s, l).orders)
  {
    if l.Commit? {
      CommitStaysUnique(s, l.tx);
      CommitEffect(s, l.tx);
    } else if CreateLabel(l) {
      TxStepEffect(s, l);
    } else {
      PaymentStepsKeepShop(s, l);
    }
  }

  lemma PaymentsStay(s: State, l: Label)
    requires Enabled(s, l)
    ensures PaymentsKept(s.payments, Next(s, l).payments)
  {
    if CreateLabel(l) {
      CreateStepKeepsMoney(s, l);
    }
  }

  /** The steps on payments, field by field: a new one is AUTHORIZED for what its request asks. */
  lemma InsertPaymentInFull(s: State, l: Label)
    requires Enabled(s, l) && l.InsertPayment?
    ensures l.request in s.requests && l.payment !in s.payments
    ensures var q, s' := s.requests[l.request], Next(s, l);
      && s'.payments == s.payments[l.payment := Payment(q.order, q.key, q.amount, Authorized)]
      && s'.requests == s.requests[l.request := Request(q.order, q.key, q.amount, Replied(l.payment))]
      && s' == s.(payments := s'.payments, requests := s'.requests)
  {}

  /** A request whose payment is there already is answered with it, and no payment changes. */
  lemma SearchInFull(s: State, l: Label)
    requires Enabled(s, l) && l.Search?
    ensures var q, s' := s.requests[l.request], Next(s, l);
      && s' == s.(requests := s'.requests)
      && s'.requests == s.requests[l.request :=
           Request(q.order, q.key, q.amount, if l.found.Some? then Replied(l.found.value) else Searched)]
      && (l.found.Some? ==> l.found.value in s.payments && s.payments[l.found.value].order == q.order
                            && s.payments[l.found.value].key == q.key)
      && (l.found.None? ==> forall p :: p in s.payments ==> s.payments[p].order != q.order || s.payments[p].key != q.key)
  {}

  /** A capture, answered or not, leaves an authorized or captured payment CAPTURED and nothing else of it changed. */
  lemma CaptureInFull(s: State, l: Label)
    requires Enabled(s, l) && (l.Capture? || l.CaptureTimesOut?)
    ensures l.pay in s.pays && s.pays[l.pay].pc.Holding?
    ensures var p, s' := s.pays[l.pay].pc.payment, Next(s, l);
      && p in s.payments && (s.payments[p].status == Authorized || s.payments[p].status == Captured)
      && s'.payments == s.payments[p := Payment(s.payments[p].order, s.payments[p].key, s.payments[p].amount, Captured)]
      && (l.Capture? ==> s'.pays == s.pays[l.pay := Pay(s.pays[l.pay].order, Paid(p))])
      && (l.CaptureTimesOut? ==> s'.pays == s.pays - {l.pay})
      && s' == s.(payments := s'.payments, pays := s'.pays)
  {}

  /** Only a captured payment is refunded. */
  lemma RefundInFull(s: State, l: Label)
    requires Enabled(s, l) && l.Refund?
    ensures l.payment in s.payments && s.payments[l.payment].status == Captured
    ensures var was := s.payments[l.payment];
      Next(s, l) == s.(payments := s.payments[l.payment := Payment(was.order, was.key, was.amount, Refunded)])
  {}

  // ---- create's steps -------------------------------------------------------------------------

  lemma CommittedStep(s: State, l: Label)
    requires Enabled(s, l) && CreateLabel(l) && !l.Commit? && l.tx in Next(s, l).txs
    ensures !Next(s, l).txs[l.tx].pc.Committed?
  {}

  lemma CommitOwes(s: State, t: TxId)
    requires Enabled(s, Commit(t))
    ensures var s', tx := Next(s, Commit(t)), s.txs[t];
            && s'.txs[t].pc == Committed(tx.pc.order, tx.pc.total) && s'.txs[t].dto == tx.dto
            && Owes(s'.orders, tx.pc.order, tx.dto.key, tx.pc.total)
  {}

  lemma CommittedStaysSound(s: State, l: Label)
    requires CommittedSound(s.orders, s.txs) && Enabled(s, l)
    requires OrdersKept(s.orders, Next(s, l).orders)
    ensures CommittedSound(Next(s, l).orders, Next(s, l).txs)
  {
    if l.Commit? {
      CommitEffect(s, l.tx);
      CommitOwes(s, l.tx);
    } else if CreateLabel(l) {
      TxStepEffect(s, l);
      if l.tx in Next(s, l).txs {
        CommittedStep(s, l);
      }
    } else {
      PaymentStepsKeepShop(s, l);
    }
  }

  // ---- authorize requests ---------------------------------------------------------------------

  lemma RequestComesFrom(s: State, l: Label, r: RequestId)
    requires Enabled(s, l) && r in Next(s, l).requests && r !in s.requests
    ensures (l.SendAuthorize? || l.PaySend?) && l.request == r
  {
    if CreateLabel(l) {
      CreateStepKeepsMoney(s, l);
    }
  }

  /** A new request is for what its order owes. */
  lemma NewRequestOwes(s: State, l: Label, r: RequestId)
    requires CommittedSound(s.orders, s.txs) && Enabled(s, l) && r in Next(s, l).requests && r !in s.requests
    ensures var q := Next(s, l).requests[r]; Owes(s.orders, q.order, q.key, q.amount) && q.phase.Sent?
  {
    RequestComesFrom(s, l, r);
    if l.SendAuthorize? {
      assert s.txs[l.tx].pc.Committed?;
    }
  }

  /** A moved request asks for the same and may hold its order's payment. */
  lemma CreateKeepsRequest(s: State, l: Label, r: RequestId)
    requires Enabled(s, l) && CreateLabel(l) && r in s.requests
    ensures r in Next(s, l).requests && Next(s, l).requests[r] == s.requests[r]
  {
    if !l.SendAuthorize? {
      CreateStepKeepsMoney(s, l);
    }
  }

  lemma PaymentMovesRequest(s: State, l: Label, r: RequestId)
    requires Enabled(s, l) && !CreateLabel(l) && r in s.requests
    ensures r in Next(s, l).requests
    ensures var q, q' := s.requests[r], Next(s, l).requests[r];
            && q' == q.(phase := q'.phase)
            && (q'.phase.Replied? && q' != q ==> PaymentOf(Next(s, l).payments, q'.phase.payment, q.order))
  {}

  lemma RequestMoves(s: State, l: Label, r: RequestId)
    requires Enabled(s, l) && r in s.requests
    ensures r in Next(s, l).requests
    ensures var q, q' := s.requests[r], Next(s, l).requests[r];
            && q' == q.(phase := q'.phase)
            && (q'.phase.Replied? && q' != q ==> PaymentOf(Next(s, l).payments, q'.phase.payment, q.order))
  {
    if CreateLabel(l) {
      CreateKeepsRequest(s, l, r);
    } else {
      PaymentMovesRequest(s, l, r);
    }
  }

  lemma RequestsStaySound(s: State, l: Label)
    requires MoneySound(s) && Enabled(s, l)
    requires OrdersKept(s.orders, Next(s, l).orders) && PaymentsKept(s.payments, Next(s, l).payments)
    ensures RequestsSound(Next(s, l).orders, Next(s, l).payments, Next(s, l).requests)
  {
    var s' := Next(s, l);
    forall r | r in s'.requests
      ensures Owes(s'.orders, s'.requests[r].order, s'.requests[r].key, s'.requests[r].amount)
      ensures s'.requests[r].phase.Replied? ==>
        PaymentOf(s'.payments, s'.requests[r].phase.payment, s'.requests[r].order)
    {
      if r in s.requests {
        RequestMoves(s, l, r);
      } else {
        NewRequestOwes(s, l, r);
      }
    }
  }

  // ---- payments -------------------------------------------------------------------------------

  lemma PaymentsAfterInsert(orders: map<OrderId, Order>, payments: map<PaymentId, Payment>,
                            p: PaymentId, payment: Payment)
    requires PaymentsSound(orders, payments) && p !in payments
    requires Owes(orders, payment.order, payment.key, payment.amount)
    requires forall q :: q in payments ==> payments[q].order != payment.order || payments[q].key != payment.key
    ensures PaymentsSound(orders, payments[p := payment])
  {}

  lemma PaymentsAfterMove(orders: map<OrderId, Order>, payments: map<PaymentId, Payment>,
                          p: PaymentId, payment: Payment)
    requires PaymentsSound(orders, payments) && p in payments && Later(payments[p], payment)
    ensures PaymentsSound(orders, payments[p := payment])
  {}

  lemma PaymentsEffect(s: State, l: Label)
    requires Enabled(s, l) && !l.InsertPayment? && !l.Capture? && !l.CaptureTimesOut? && !l.Refund?
    ensures Next(s, l).payments == s.payments
  {}

  lemma PaymentsStaySound(s: State, l: Label)
    requires MoneySound(s) && Enabled(s, l)
    ensures PaymentsSound(s.orders, Next(s, l).payments)
  {
    if l.InsertPayment? {
      var q := s.requests[l.request];
      assert forall p :: p in s.payments ==> !PaymentFor(s, q, p);
      PaymentsAfterInsert(s.orders, s.payments, l.payment, Payment(q.order, q.key, q.amount, Authorized));
    } else if l.Refund? {
      PaymentsAfterMove(s.orders, s.payments, l.payment, s.payments[l.payment].(status := Refunded));
    } else if l.Capture? || l.CaptureTimesOut? {
      var p := s.pays[l.pay].pc.payment;
      PaymentsAfterMove(s.orders, s.payments, p, s.payments[p].(status := Captured));
    } else {
      PaymentsEffect(s, l);
    }
  }

  predicate PayLabel(l: Label) {
    l.LookUp? || l.PaySend? || l.PayReceive? || l.Capture?
  }

  lemma PayUnmoved(s: State, l: Label, y: PayId)
    requires Enabled(s, l) && y in Next(s, l).pays && !(PayLabel(l) && l.pay == y)
    ensures y in s.pays && Next(s, l).pays[y] == s.pays[y]
  {
    if CreateLabel(l) {
      CreateStepKeepsMoney(s, l);
    }
  }

  lemma PayMoves(s: State, l: Label)
    requires Enabled(s, l) && PayLabel(l)
    requires RequestsSound(s.orders, s.payments, s.requests) && PaysSound(s.payments, s.requests, s.pays)
    ensures l.pay in Next(s, l).pays
    ensures PaySound(Next(s, l).payments, Next(s, l).requests, Next(s, l).pays[l.pay])
  {}

  lemma PaysStaySound(s: State, l: Label)
    requires MoneySound(s) && Enabled(s, l) && PaymentsKept(s.payments, Next(s, l).payments)
    ensures PaysSound(Next(s, l).payments, Next(s, l).requests, Next(s, l).pays)
  {
    var s' := Next(s, l);
    forall y | y in s'.pays ensures PaySound(s'.payments, s'.requests, s'.pays[y]) {
      if PayLabel(l) && l.pay == y {
        PayMoves(s, l);
      } else {
        PayUnmoved(s, l, y);
        if s.pays[y].pc.Waiting? {
          RequestMoves(s, l, s.pays[y].pc.request);
        }
      }
    }
  }

  // ---- every step and every run ---------------------------------------------------------------

  lemma MoneyStaysSound(s: State, l: Label)
    requires MoneySound(s) && UniqueSound(s) && Sound(s) && Enabled(s, l)
    ensures MoneySound(Next(s, l))
  {
    OrdersStay(s, l);
    PaymentsStay(s, l);
    CommittedStaysSound(s, l);
    RequestsStaySound(s, l);
    PaymentsStaySound(s, l);
    PaysStaySound(s, l);
  }

  lemma {:induction false} MoneyRuns(products: map<ProductId, Product>, ls: seq<Label>)
    requires Stocked(products) && ExecFrom(Initially(products), ls).Some?
    ensures MoneySound(ExecFrom(Initially(products), ls).value)
  {
    if ls != [] {
      var before := ExecFrom(Initially(products), ls[..|ls| - 1]).value;
      MoneyRuns(products, ls[..|ls| - 1]);
      RunsAreSound(products, ls[..|ls| - 1]);
      RunsAreUnique(products, ls[..|ls| - 1]);
      MoneyStaysSound(before, ls[|ls| - 1]);
    }
  }

  // ---- the theorems ---------------------------------------------------------------------------

  /** At most one payment per order, and it is for the order's own key and total. */
  lemma OnePaymentPerOrder(products: map<ProductId, Product>, ls: seq<Label>, p: PaymentId, q: PaymentId)
    requires Stocked(products) && ExecFrom(Initially(products), ls).Some?
    requires var s := ExecFrom(Initially(products), ls).value; p in s.payments && q in s.payments
    ensures var s := ExecFrom(Initially(products), ls).value;
            var o := s.payments[p].order;
            && o in s.orders && s.payments[p].key == s.orders[o].key && s.payments[p].amount == s.orders[o].total
            && (p != q ==> s.payments[q].order != o)
  {
    MoneyRuns(products, ls);
  }

  /** So a lookup by order id has one answer. */
  lemma LookUpIsUnambiguous(products: map<ProductId, Product>, ls: seq<Label>, o: OrderId,
                            a: Option<PaymentId>, b: Option<PaymentId>)
    requires Stocked(products) && ExecFrom(Initially(products), ls).Some?
    requires FindsPayment(ExecFrom(Initially(products), ls).value, o, a)
    requires FindsPayment(ExecFrom(Initially(products), ls).value, o, b)
    ensures a == b
  {
    MoneyRuns(products, ls);
  }

  /** Whoever was told that an order is paid was told of that order's one payment, by then captured. */
  lemma PaidMeansCaptured(products: map<ProductId, Product>, ls: seq<Label>, y: PayId)
    requires Stocked(products) && ExecFrom(Initially(products), ls).Some?
    requires var s := ExecFrom(Initially(products), ls).value; y in s.pays && s.pays[y].pc.Paid?
    ensures var s := ExecFrom(Initially(products), ls).value;
            var p := s.pays[y].pc.payment;
            && p in s.payments && s.payments[p].order == s.pays[y].order
            && s.pays[y].order in s.orders && s.payments[p].amount == s.orders[s.pays[y].order].total
            && Rank(s.payments[p].status) >= Rank(Captured)
  {
    MoneyRuns(products, ls);
  }

  /** Over any stretch of a run orders stay as committed and payments only move forward. */
  lemma {:induction false} RecordsOnlyMoveForward(products: map<ProductId, Product>, ls: seq<Label>, n: nat)
    requires Stocked(products) && ExecFrom(Initially(products), ls).Some? && n <= |ls|
    ensures ExecFrom(Initially(products), ls[..n]).Some?
    ensures var s, s' := ExecFrom(Initially(products), ls[..n]).value, ExecFrom(Initially(products), ls).value;
            OrdersKept(s.orders, s'.orders) && PaymentsKept(s.payments, s'.payments)
    decreases |ls|
  {
    if n == |ls| {
      assert ls[..n] == ls;
    } else {
      var front := ls[..|ls| - 1];
      assert front[..n] == ls[..n];
      RecordsOnlyMoveForward(products, front, n);
      RunsAreSound(products, front);
      RunsAreUnique(products, front);
      var before := ExecFrom(Initially(products), front).value;
      OrdersStay(before, ls[|ls| - 1]);
      PaymentsStay(before, ls[|ls| - 1]);
    }
  }
}
