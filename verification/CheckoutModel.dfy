/**
 Order creation and payment as a labelled transition system: any number of `create` transactions
 working on shared product rows under row locks, `authorize` requests that outlive the callers who
 time out on them, and `payOrder` calls that look a payment up, authorize when there is none, and capture.

 Money is in cents. An error anywhere aborts a transaction; an aborted one may keep its locks for a
 while, because some of the error paths hand the connection back without a rollback.
 */
module CheckoutModel {
  import opened Wrappers
  import opened MapTotals

  type ProductId = nat
  type UserId = nat
  type Key = nat
  type OrderId = nat
  type TxId = nat
  type PaymentId = nat
  type RequestId = nat
  type PayId = nat

  datatype Product = Product(stock: int, price: nat)

  datatype Item = Item(product: ProductId, quantity: nat)

  datatype CreateOrder = CreateOrder(user: UserId, key: Key, items: seq<Item>)

  datatype OrderItem = OrderItem(product: ProductId, quantity: nat, unitPrice: nat)

  datatype Order = Order(user: UserId, key: Key, items: seq<OrderItem>, total: nat)

  datatype EventKind = ProcessRequested | OrderPlaced

  datatype OutboxRow = OutboxRow(order: OrderId, kind: EventKind)

  // ---- create ---------------------------------------------------------------------------------

  datatype TxPc =
    | Begun                                // transaction open
    | Locking                              // no existing order found; locking product rows
    | Checked                              // the check loop passed
    | Decrementing(order: OrderId, next: nat) // order and items inserted; stock update loop
    | Totalled(order: OrderId, total: nat) // totals written, outbox rows added; about to commit
    | Committed(order: OrderId, total: nat) // committed; authorize call not yet sent
    | Aborted                              // failed; rollback still to come

  /** `read` holds the locked rows as they were read, `writes` the rows as this transaction left them. */
  datatype Tx = Tx(dto: CreateOrder, pc: TxPc, read: map<ProductId, Product>, writes: map<ProductId, Product>)

  // ---- payments -------------------------------------------------------------------------------

  datatype PaymentStatus = Authorized | Captured | Refunded

  datatype Payment = Payment(order: OrderId, key: Key, amount: nat, status: PaymentStatus)

  datatype RequestPhase = Sent | Searched | Replied(payment: PaymentId) | Refused

  /** An authorize request: once sent it is the payment service's, whatever becomes of the caller. */
  datatype Request = Request(order: OrderId, key: Key, amount: nat, phase: RequestPhase)

  datatype PayPc =
    | Missing                              // no payment found for the order
    | Waiting(request: RequestId)          // authorize sent
    | Holding(payment: PaymentId)          // a payment at hand, capture not yet called
    | Paid(payment: PaymentId)             // captured

  datatype Pay = Pay(order: OrderId, pc: PayPc)

  datatype State = State(
    products: map<ProductId, Product>,
    locks: map<ProductId, TxId>,
    orders: map<OrderId, Order>,
    outbox: multiset<OutboxRow>,
    txs: map<TxId, Tx>,
    payments: map<PaymentId, Payment>,
    requests: map<RequestId, Request>,
    pays: map<PayId, Pay>)

  function Initially(products: map<ProductId, Product>): State {
    State(products, map[], map[], multiset{}, map[], map[], map[], map[])
  }

  datatype Label =
    | Begin(tx: TxId, dto: CreateOrder)
    | ReturnExisting(tx: TxId, order: OrderId)
    | Proceed(tx: TxId)
    | LockProduct(tx: TxId, product: ProductId)
    | Check(tx: TxId)
    | InsertOrder(tx: TxId, order: OrderId)
    | KeyConflict(tx: TxId)
    | Decrement(tx: TxId)
    | DecrementMisses(tx: TxId)
    | WriteTotals(tx: TxId)
    | Commit(tx: TxId)
    | Abort(tx: TxId)
    | Close(tx: TxId)
    | SendAuthorize(tx: TxId, request: RequestId)
    | DeleteOrder(order: OrderId)
    | Search(request: RequestId, found: Option<PaymentId>)
    | InsertPayment(request: RequestId, payment: PaymentId)
    | Refuse(request: RequestId)
    | LookUp(pay: PayId, order: OrderId, found: Option<PaymentId>)
    | PaySend(pay: PayId, request: RequestId)
    | PayReceive(pay: PayId)
    | Capture(pay: PayId)
    | CaptureTimesOut(pay: PayId)
    | Refund(payment: PaymentId)
    | PayLeave(pay: PayId)

  predicate CreateLabel(l: Label) {
    || l.Begin? || l.ReturnExisting? || l.Proceed? || l.LockProduct? || l.Check? || l.InsertOrder?
    || l.KeyConflict? || l.Decrement? || l.DecrementMisses? || l.WriteTotals? || l.Commit? || l.Abort? || l.Close?
    || l.SendAuthorize?
  }

  // ---- guards ---------------------------------------------------------------------------------

  /** The request is well formed: some items, and no product twice. */
  predicate WellFormed(dto: CreateOrder) {
    dto.items != [] && forall i, j :: 0 <= i < j < |dto.items| ==> dto.items[i].product != dto.items[j].product
  }

  ghost predicate OrderFor(s: State, dto: CreateOrder, o: OrderId) {
    o in s.orders && s.orders[o].user == dto.user && s.orders[o].key == dto.key
  }

  ghost predicate HasOrder(s: State, dto: CreateOrder) {
    exists o :: o in s.orders && OrderFor(s, dto, o)
  }

  /** The transaction has inserted its order row, uncommitted: it holds the unique (user, key). */
  predicate Inserted(tx: Tx) {
    tx.pc.Decrementing? || tx.pc.Totalled?
  }

  predicate Open(tx: Tx) {
    !tx.pc.Committed?
  }

  ghost predicate KeyUnused(s: State, dto: CreateOrder) {
    && (forall o :: o in s.orders ==> !OrderFor(s, dto, o))
    && (forall t :: t in s.txs && Inserted(s.txs[t]) ==>
          s.txs[t].dto.user != dto.user || s.txs[t].dto.key != dto.key)
  }

  ghost predicate FreshOrder(s: State, o: OrderId) {
    && o !in s.orders
    && (forall t :: t in s.txs && Inserted(s.txs[t]) ==> s.txs[t].pc.order != o)
  }

  predicate Sufficient(tx: Tx) {
    forall i :: 0 <= i < |tx.dto.items| ==>
      tx.dto.items[i].product in tx.read && tx.read[tx.dto.items[i].product].stock >= tx.dto.items[i].quantity
  }

  /** The row as the transaction's own statements see it. */
  function Visible(s: State, tx: Tx, p: ProductId): Product
    requires p in tx.writes || p in s.products
  {
    if p in tx.writes then tx.writes[p] else s.products[p]
  }

  predicate AtDecrement(s: State, t: TxId) {
    && t in s.txs && s.txs[t].pc.Decrementing? && s.txs[t].pc.next < |s.txs[t].dto.items|
    && s.txs[t].dto.items[s.txs[t].pc.next].product in s.products
  }

  function CurrentItem(s: State, t: TxId): Item
    requires AtDecrement(s, t)
  {
    s.txs[t].dto.items[s.txs[t].pc.next]
  }

  /** `WHERE id = $2 AND stock >= $1` */
  predicate GuardHolds(s: State, t: TxId)
    requires AtDecrement(s, t)
  {
    Visible(s, s.txs[t], CurrentItem(s, t).product).stock >= CurrentItem(s, t).quantity
  }

  ghost predicate PaymentFor(s: State, r: Request, p: PaymentId) {
    p in s.payments && s.payments[p].order == r.order && s.payments[p].key == r.key
  }

  /** `findOne` by a condition: some matching row, or none when there is none. */
  ghost predicate FindsPayment(s: State, o: OrderId, found: Option<PaymentId>) {
    match found
    case Some(p) => p in s.payments && s.payments[p].order == o
    case None => forall p :: p in s.payments ==> s.payments[p].order != o
  }

  predicate RequestAt(s: State, r: RequestId, phase: RequestPhase) {
    r in s.requests && s.requests[r].phase == phase
  }

  ghost predicate Enabled(s: State, l: Label) {
    match l
    case Begin(t, dto) => t !in s.txs && WellFormed(dto)
    case ReturnExisting(t, o) => t in s.txs && s.txs[t].pc.Begun? && OrderFor(s, s.txs[t].dto, o)
    case Proceed(t) =>
      t in s.txs && s.txs[t].pc.Begun? && forall o :: o in s.orders ==> !OrderFor(s, s.txs[t].dto, o)
    case LockProduct(t, p) =>
      && t in s.txs && s.txs[t].pc.Locking? && p in s.products && p !in s.locks
      && (exists i :: 0 <= i < |s.txs[t].dto.items| && s.txs[t].dto.items[i].product == p)
    case Check(t) => t in s.txs && s.txs[t].pc.Locking? && Sufficient(s.txs[t])
    case InsertOrder(t, o) =>
      t in s.txs && s.txs[t].pc.Checked? && KeyUnused(s, s.txs[t].dto) && FreshOrder(s, o)
    case KeyConflict(t) => t in s.txs && s.txs[t].pc.Checked? && HasOrder(s, s.txs[t].dto)
    case Decrement(t) => AtDecrement(s, t) && GuardHolds(s, t)
    case DecrementMisses(t) => AtDecrement(s, t) && !GuardHolds(s, t)
    case WriteTotals(t) =>
      && t in s.txs && s.txs[t].pc.Decrementing? && s.txs[t].pc.next == |s.txs[t].dto.items|
      && forall i :: 0 <= i < |s.txs[t].dto.items| ==> s.txs[t].dto.items[i].product in s.txs[t].read
    case Commit(t) =>
      && t in s.txs && s.txs[t].pc.Totalled?
      && forall i :: 0 <= i < |s.txs[t].dto.items| ==> s.txs[t].dto.items[i].product in s.txs[t].read
    case Abort(t) => t in s.txs && Open(s.txs[t])
    case Close(t) => t in s.txs && (s.txs[t].pc.Aborted? || s.txs[t].pc.Committed?)
    case SendAuthorize(t, r) => t in s.txs && s.txs[t].pc.Committed? && r !in s.requests
    case DeleteOrder(o) => o in s.orders && s.orders[o].items == []
    case Search(r, found) =>
      && RequestAt(s, r, Sent) && s.requests[r].amount > 0
      && (match found
          case Some(p) => PaymentFor(s, s.requests[r], p)
          case None => forall p :: p in s.payments ==> !PaymentFor(s, s.requests[r], p))
    case InsertPayment(r, p) =>
      && RequestAt(s, r, Searched) && p !in s.payments
      && forall q :: q in s.payments ==> !PaymentFor(s, s.requests[r], q)
    case Refuse(r) => r in s.requests && (s.requests[r].phase.Sent? || s.requests[r].phase.Searched?)
    case LookUp(y, o, found) => y !in s.pays && o in s.orders && FindsPayment(s, o, found)
    case PaySend(y, r) =>
      y in s.pays && s.pays[y].pc.Missing? && s.pays[y].order in s.orders && r !in s.requests
    case PayReceive(y) =>
      && y in s.pays && s.pays[y].pc.Waiting? && s.pays[y].pc.request in s.requests
      && s.requests[s.pays[y].pc.request].phase.Replied?
    case Capture(y) => CanCapture(s, y)
    case CaptureTimesOut(y) => CanCapture(s, y)
    case Refund(p) => p in s.payments && s.payments[p].status.Captured?
    case PayLeave(y) => y in s.pays
  }

  predicate CanCapture(s: State, y: PayId) {
    && y in s.pays && s.pays[y].pc.Holding? && s.pays[y].pc.payment in s.payments
    && !s.payments[s.pays[y].pc.payment].status.Refunded?
  }

  // ---- effects --------------------------------------------------------------------------------

  function Priced(items: seq<Item>, read: map<ProductId, Product>): (r: seq<OrderItem>)
    requires forall i :: 0 <= i < |items| ==> items[i].product in read
    ensures |r| == |items|
  {
    if items == [] then [] else
    var last := items[|items| - 1];
    Priced(items[..|items| - 1], read) + [OrderItem(last.product, last.quantity, read[last.product].price)]
  }

  /** SUM(unit_price * quantity); the discounts and the shipping are all zero. */
  function Subtotal(items: seq<OrderItem>): nat {
    if items == [] then 0 else
    var last := items[|items| - 1];
    Subtotal(items[..|items| - 1]) + last.unitPrice * last.quantity
  }

  function SetTx(s: State, t: TxId, pc: TxPc): State
    requires t in s.txs
  {
    s.(txs := s.txs[t := s.txs[t].(pc := pc)])
  }

  function Unlock(locks: map<ProductId, TxId>, t: TxId): map<ProductId, TxId> {
    map p | p in locks && locks[p] != t :: locks[p]
  }

  function SetPhase(s: State, r: RequestId, phase: RequestPhase): State
    requires r in s.requests
  {
    s.(requests := s.requests[r := s.requests[r].(phase := phase)])
  }

  function SetPay(s: State, y: PayId, pc: PayPc): State
    requires y in s.pays
  {
    s.(pays := s.pays[y := s.pays[y].(pc := pc)])
  }

  /** The capture call: an authorized payment becomes captured, a captured one stays so. */
  function CapturePayment(s: State, p: PaymentId): State
    requires p in s.payments
  {
    s.(payments := s.payments[p := s.payments[p].(status := Captured)])
  }

  function Next(s: State, l: Label): State
    requires Enabled(s, l)
  {
    match l
    case Begin(t, dto) => s.(txs := s.txs[t := Tx(dto, Begun, map[], map[])])
    case ReturnExisting(t, _) => s.(txs := s.txs - {t})
    case Proceed(t) => SetTx(s, t, Locking)
    case LockProduct(t, p) =>
      s.(locks := s.locks[p := t],
         txs := s.txs[t := s.txs[t].(read := s.txs[t].read[p := s.products[p]])])
    case Check(t) => SetTx(s, t, Checked)
    case InsertOrder(t, o) => SetTx(s, t, Decrementing(o, 0))
    case KeyConflict(t) => SetTx(s, t, Aborted)
    case Decrement(t) =>
      var tx, item := s.txs[t], CurrentItem(s, t);
      var row := Visible(s, tx, item.product);
      s.(txs := s.txs[t := tx.(pc := Decrementing(tx.pc.order, tx.pc.next + 1),
                               writes := tx.writes[item.product := row.(stock := row.stock - item.quantity)])])
    case DecrementMisses(t) => SetTx(s, t, Aborted)
    case WriteTotals(t) =>
      SetTx(s, t, Totalled(s.txs[t].pc.order, Subtotal(Priced(s.txs[t].dto.items, s.txs[t].read))))
    case Commit(t) =>
      var tx := s.txs[t];
      var o := tx.pc.order;
      s.(products := s.products + tx.writes,
         locks := Unlock(s.locks, t),
         orders := s.orders[o := Order(tx.dto.user, tx.dto.key, Priced(tx.dto.items, tx.read), tx.pc.total)],
         outbox := s.outbox + multiset{OutboxRow(o, ProcessRequested), OutboxRow(o, OrderPlaced)},
         txs := s.txs[t := Tx(tx.dto, Committed(o, tx.pc.total), map[], map[])])
    case Abort(t) => SetTx(s, t, Aborted)
    case Close(t) => s.(locks := Unlock(s.locks, t), txs := s.txs - {t})
    case SendAuthorize(t, r) =>
      var tx := s.txs[t];
      s.(requests := s.requests[r := Request(tx.pc.order, tx.dto.key, tx.pc.total, Sent)], txs := s.txs - {t})
    case DeleteOrder(o) => s.(orders := s.orders - {o})
    case Search(r, found) =>
      SetPhase(s, r, if found.Some? then Replied(found.value) else Searched)
    case InsertPayment(r, p) =>
      var q := s.requests[r];
      SetPhase(s, r, Replied(p)).(payments := s.payments[p := Payment(q.order, q.key, q.amount, Authorized)])
    case Refuse(r) => SetPhase(s, r, Refused)
    case LookUp(y, o, found) =>
      s.(pays := s.pays[y := Pay(o, if found.Some? then Holding(found.value) else Missing)])
    case PaySend(y, r) =>
      var o := s.pays[y].order;
      SetPay(s, y, Waiting(r)).(requests :=
        s.requests[r := Request(o, s.orders[o].key, s.orders[o].total, Sent)])
    case PayReceive(y) => SetPay(s, y, Holding(s.requests[s.pays[y].pc.request].phase.payment))
    case Capture(y) => SetPay(CapturePayment(s, s.pays[y].pc.payment), y, Paid(s.pays[y].pc.payment))
    case CaptureTimesOut(y) => CapturePayment(s, s.pays[y].pc.payment).(pays := s.pays - {y})
    case Refund(p) => s.(payments := s.payments[p := s.payments[p].(status := Refunded)])
    case PayLeave(y) => s.(pays := s.pays - {y})
  }

  // ---- what create answers --------------------------------------------------------------------

  datatype Outcome =
    | BadRequest
    | Existing(order: OrderId)
    | Conflict(product: ProductId)
    | Created(order: OrderId)
    | PaymentTimeout
    | PaymentUnavailable
    | Unexpected

  /** What is thrown on as it came: the code's own refusals, and errors it does not expect. */
  type Refusal = o: Outcome | o.BadRequest? || o.Conflict? || o.Unexpected? witness BadRequest

  /** An rxjs timeout; an error of the database driver or of gRPC, which carry a code; any other. */
  datatype Error = TimeoutError | Coded(code: string) | Uncoded(thrown: Refusal)

  const UNIQUE_VIOLATION := "23505"

  function CodeOf(e: Error): Option<string> {
    if e.Coded? then Some(e.code) else None
  }

  /** The ways out of the catch block. */
  datatype CatchBranch = AtTimeout | AtCode | AtUniqueViolation | AtEnd

  /** Its tests in their order; between the second and the third it rolls back. */
  function BranchOf(e: Error): CatchBranch {
    if e.TimeoutError? then AtTimeout
    else if CodeOf(e) != None then AtCode
    else if CodeOf(e) == Some(UNIQUE_VIOLATION) then AtUniqueViolation
    else AtEnd
  }

  function ThrownOn(e: Error): Outcome {
    if e.Uncoded? then e.thrown else Unexpected
  }

  function FoundOr(existing: Option<OrderId>, otherwise: Outcome): Outcome {
    if existing.Some? then Existing(existing.value) else otherwise
  }

  /** What the caller is told; `existing` is what the lookup after a unique violation would find. */
  function Catch(e: Error, existing: Option<OrderId>): Outcome {
    match BranchOf(e)
    case AtTimeout => PaymentTimeout
    case AtCode => PaymentUnavailable
    case AtUniqueViolation => FoundOr(existing, ThrownOn(e))
    case AtEnd => ThrownOn(e)
  }

  // ---- runs -----------------------------------------------------------------------------------

  ghost function ExecFrom(s: State, ls: seq<Label>): Option<State> {
    if ls == [] then Some(s) else
    var before := ExecFrom(s, ls[..|ls| - 1]);
    if before.Some? && Enabled(before.value, ls[|ls| - 1])
    then Some(Next(before.value, ls[|ls| - 1]))
    else None
  }

  /** The product table a run starts from: the column's CHECK constraint keeps stock non-negative. */
  predicate Stocked(products: map<ProductId, Product>) {
    forall p :: p in products ==> products[p].stock >= 0
  }
}
