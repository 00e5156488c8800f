/** The code of `create`: one request from its checks to the authorize call, with nobody interfering. */
module OrderCreation {
  import opened Wrappers
  import opened FreshIds
  import opened CheckoutModel
  import opened CheckoutStock
  import opened CheckoutTotals

  /** The shop's tables as an object that transactions update in place. */
  class Shop {
    var products: map<ProductId, Product>
    var locks: map<ProductId, TxId>
    var orders: map<OrderId, Order>
    var outbox: multiset<OutboxRow>
    var txs: map<TxId, Tx>
    var payments: map<PaymentId, Payment>
    var requests: map<RequestId, Request>
    var pays: map<PayId, Pay>

    constructor (products: map<ProductId, Product>)
      ensures Abs() == Initially(products)
    {
      this.products, locks, orders, outbox := products, map[], map[], multiset{};
      txs, payments, requests, pays := map[], map[], map[], map[];
    }

    ghost function Abs(): State
      reads this
    {
      State(products, locks, orders, outbox, txs, payments, requests, pays)
    }
  }

  /** How the payment service's answer reaches the caller. */
  datatype Reply = Answered | TimedOut | Failed(code: string)

  /** Some run of the transition system leads from one state to the other. */
  ghost predicate Reaches(before: State, after: State) {
    exists ls :: ExecFrom(before, ls) == Some(after)
  }

  lemma ReachesOn(before: State, middle: State, l: Label)
    requires Reaches(before, middle) && Enabled(middle, l)
    ensures Reaches(before, Next(middle, l))
  {
    var ls :| ExecFrom(before, ls) == Some(middle);
    assert (ls + [l])[..|ls + [l]| - 1] == ls;
    assert ExecFrom(before, ls + [l]) == Some(Next(middle, l));
  }

  ghost predicate Leads(before: State, l: Label, after: State) {
    Enabled(before, l) && Next(before, l) == after
  }

  /** Taking the same step over and over, from state to state. */
  lemma {:induction false} ReachesAlong(before: State, states: seq<State>, l: Label)
    requires states != [] && Reaches(before, states[0])
    requires forall i :: 0 <= i < |states| - 1 ==> Leads(states[i], l, states[i + 1])
    ensures Reaches(before, states[|states| - 1])
  {
    if |states| > 1 {
      var front := states[..|states| - 1];
      ReachesAlong(before, front, l);
      assert Leads(states[|states| - 2], l, states[|states| - 1]);
      ReachesOn(before, front[|front| - 1], l);
    }
  }

  // ---- what a request comes to ----------------------------------------------------------------

  predicate AllFound(products: map<ProductId, Product>, items: seq<Item>) {
    forall i :: 0 <= i < |items| ==> items[i].product in products
  }

  predicate Enough(products: map<ProductId, Product>, item: Item) {
    item.product in products && products[item.product].stock >= item.quantity
  }

  predicate AllEnough(products: map<ProductId, Product>, items: seq<Item>) {
    forall i :: 0 <= i < |items| ==> Enough(products, items[i])
  }

  /** The products after a sale: of each one, as many fewer as the items say. */
  function AfterSale(products: map<ProductId, Product>, items: seq<Item>): map<ProductId, Product>
    requires AllFound(products, items)
  {
    map p | p in products :: Sold(products[p], Taken(Priced(items, products), p))
  }

  function NewOrder(products: map<ProductId, Product>, dto: CreateOrder): Order
    requires AllFound(products, dto.items)
  {
    var items := Priced(dto.items, products);
    Order(dto.user, dto.key, items, Subtotal(items))
  }

  /** What an accepted request leaves behind, however the payment service's answer fares. */
  function AfterCreate(s: State, dto: CreateOrder, o: OrderId, r: RequestId): State
    requires AllFound(s.products, dto.items)
  {
    var order := NewOrder(s.products, dto);
    s.(products := AfterSale(s.products, dto.items),
       orders := s.orders[o := order],
       outbox := s.outbox + multiset{OutboxRow(o, ProcessRequested), OutboxRow(o, OrderPlaced)},
       requests := s.requests[r := Request(o, dto.key, order.total, Sent)])
  }

  // ---- the transaction, seen from the state it began in ---------------------------------------

  /** No other transaction holds anything that the request needs. */
  ghost predicate Undisturbed(s: State, dto: CreateOrder) {
    && (forall i :: 0 <= i < |dto.items| ==> dto.items[i].product !in s.locks)
    && (forall t :: t in s.txs && Inserted(s.txs[t]) ==>
          s.txs[t].dto.user != dto.user || s.txs[t].dto.key != dto.key)
  }

  ghost predicate FreshTx(s: State, t: TxId) {
    t !in s.txs && forall p :: p in s.locks ==> s.locks[p] != t
  }

  function Held(locks: map<ProductId, TxId>, t: TxId, rows: set<ProductId>): map<ProductId, TxId> {
    locks + (map p | p in rows :: t)
  }

  /** The state with `t` open on it: until it commits it has only taken locks. */
  function During(s: State, t: TxId, tx: Tx): State {
    s.(locks := Held(s.locks, t, tx.read.Keys), txs := s.txs[t := tx])
  }

  /** The transaction has read the rows of its first `n` items that exist, and they are unlocked in `s`. */
  ghost predicate ReadUpTo(s: State, tx: Tx, n: nat) {
    && n <= |tx.dto.items|
    && (forall i :: 0 <= i < n && tx.dto.items[i].product in s.products ==> tx.dto.items[i].product in tx.read)
    && (forall i :: n <= i < |tx.dto.items| ==> tx.dto.items[i].product !in tx.read)
    && (forall p :: p in tx.read ==> p !in s.locks && p in s.products && tx.read[p] == s.products[p])
  }

  /** A step of the transaction changes the state at one place only. */
  lemma Moved(s: State, t: TxId, tx: Tx, tx': Tx)
    requires tx'.read == tx.read
    ensures During(s, t, tx).(txs := During(s, t, tx).txs[t := tx']) == During(s, t, tx')
  {}

  lemma HeldOneMore(locks: map<ProductId, TxId>, t: TxId, rows: set<ProductId>, p: ProductId)
    ensures Held(locks, t, rows)[p := t] == Held(locks, t, rows + {p})
  {}

  lemma Locked(s: State, t: TxId, tx: Tx, p: ProductId, row: Product)
    ensures var tx' := tx.(read := tx.read[p := row]);
      During(s, t, tx).(locks := During(s, t, tx).locks[p := t], txs := During(s, t, tx).txs[t := tx'])
      == During(s, t, tx')
  {
    HeldOneMore(s.locks, t, tx.read.Keys, p);
    assert tx.read[p := row].Keys == tx.read.Keys + {p};
  }

  lemma ReadOneMore(s: State, tx: Tx, n: nat)
    requires ReadUpTo(s, tx, n) && n < |tx.dto.items| && WellFormed(tx.dto)
    requires tx.dto.items[n].product in s.products && tx.dto.items[n].product !in s.locks
    ensures var p := tx.dto.items[n].product;
            ReadUpTo(s, tx.(read := tx.read[p := s.products[p]]), n + 1)
  {}

  lemma LockStep(s: State, t: TxId, tx: Tx, n: nat)
    requires WellFormed(tx.dto) && Undisturbed(s, tx.dto)
    requires tx.pc.Locking? && ReadUpTo(s, tx, n) && n < |tx.dto.items|
    requires tx.dto.items[n].product in s.products
    ensures var p := tx.dto.items[n].product;
            var tx' := tx.(read := tx.read[p := s.products[p]]);
            && ReadUpTo(s, tx', n + 1)
            && Enabled(During(s, t, tx), LockProduct(t, p))
            && Next(During(s, t, tx), LockProduct(t, p)) == During(s, t, tx')
  {
    var p := tx.dto.items[n].product;
    var d := During(s, t, tx);
    ReadOneMore(s, tx, n);
    Locked(s, t, tx, p, s.products[p]);
    assert p !in d.locks && d.txs[t] == tx;
  }

  lemma BeginStep(s: State, t: TxId, dto: CreateOrder)
    requires FreshTx(s, t) && WellFormed(dto)
    ensures Enabled(s, Begin(t, dto))
    ensures Next(s, Begin(t, dto)) == During(s, t, Tx(dto, Begun, map[], map[]))
  {}

  lemma ProceedStep(s: State, t: TxId, dto: CreateOrder)
    requires FreshTx(s, t) && !HasOrder(s, dto)
    ensures var begun := During(s, t, Tx(dto, Begun, map[], map[]));
            && Enabled(begun, Proceed(t))
            && Next(begun, Proceed(t)) == During(s, t, Tx(dto, Locking, map[], map[]))
  {
    NoOrderDuring(s, t, Tx(dto, Begun, map[], map[]));
    Moved(s, t, Tx(dto, Begun, map[], map[]), Tx(dto, Locking, map[], map[]));
  }

  lemma NoOrderDuring(s: State, t: TxId, tx: Tx)
    requires !HasOrder(s, tx.dto)
    ensures During(s, t, tx).orders == s.orders && During(s, t, tx).txs[t] == tx
    ensures forall o :: o in s.orders ==> !OrderFor(During(s, t, tx), tx.dto, o)
  {
    assert forall o :: OrderFor(During(s, t, tx), tx.dto, o) == OrderFor(s, tx.dto, o);
  }

  lemma CheckStep(s: State, t: TxId, tx: Tx)
    requires tx.pc.Locking? && Sufficient(tx)
    ensures Enabled(During(s, t, tx), Check(t))
    ensures Next(During(s, t, tx), Check(t)) == During(s, t, tx.(pc := Checked))
  {
    assert Next(During(s, t, tx), Check(t)).txs == During(s, t, tx.(pc := Checked)).txs;
  }

  lemma StillFree(s: State, t: TxId, tx: Tx, o: OrderId)
    requires FreshTx(s, t) && tx.pc.Checked? && Undisturbed(s, tx.dto) && !HasOrder(s, tx.dto) && FreshOrder(s, o)
    ensures KeyUnused(During(s, t, tx), tx.dto) && FreshOrder(During(s, t, tx), o)
  {
    forall p | p in s.orders ensures !OrderFor(During(s, t, tx), tx.dto, p) {
      assert OrderFor(During(s, t, tx), tx.dto, p) == OrderFor(s, tx.dto, p);
    }
  }

  lemma InsertStep(s: State, t: TxId, tx: Tx, o: OrderId)
    requires tx.pc.Checked? && KeyUnused(During(s, t, tx), tx.dto) && FreshOrder(During(s, t, tx), o)
    ensures Enabled(During(s, t, tx), InsertOrder(t, o))
    ensures Next(During(s, t, tx), InsertOrder(t, o)) == During(s, t, tx.(pc := Decrementing(o, 0)))
  {
    Moved(s, t, tx, tx.(pc := Decrementing(o, 0)));
  }

  /** The transaction, its reads all in and sufficient, has updated the rows of its first `n` items. */
  ghost predicate DecrementedUpTo(s: State, tx: Tx, o: OrderId, n: nat) {
    && tx.pc == Decrementing(o, n) && Sufficient(tx) && WritesUpTo(tx, n)
    && ReadUpTo(s, tx, |tx.dto.items|)
  }

  function Decremented(tx: Tx, o: OrderId, n: nat): Tx
    requires n < |tx.dto.items| && tx.dto.items[n].product in tx.read
  {
    var item := tx.dto.items[n];
    tx.(pc := Decrementing(o, n + 1),
        writes := tx.writes[item.product := Sold(tx.read[item.product], item.quantity)])
  }

  lemma DecrementedOneMore(s: State, tx: Tx, o: OrderId, n: nat)
    requires WellFormed(tx.dto) && DecrementedUpTo(s, tx, o, n) && n < |tx.dto.items|
    ensures DecrementedUpTo(s, Decremented(tx, o, n), o, n + 1)
    ensures tx.dto.items[n].product !in tx.writes && Enough(s.products, tx.dto.items[n])
    ensures tx.read[tx.dto.items[n].product] == s.products[tx.dto.items[n].product]
  {
    DecrementedSound(tx, Decremented(tx, o, n), n);
  }

  lemma SeesOwnRead(s: State, t: TxId, tx: Tx, o: OrderId, n: nat)
    requires tx.pc == Decrementing(o, n) && n < |tx.dto.items| && tx.dto.items[n].product !in tx.writes
    requires Enough(s.products, tx.dto.items[n])
    ensures AtDecrement(During(s, t, tx), t) && GuardHolds(During(s, t, tx), t)
    ensures CurrentItem(During(s, t, tx), t) == tx.dto.items[n]
    ensures Visible(During(s, t, tx), tx, tx.dto.items[n].product) == s.products[tx.dto.items[n].product]
    ensures During(s, t, tx).txs[t] == tx
  {}

  lemma DecrementStep(s: State, t: TxId, tx: Tx, o: OrderId, n: nat)
    requires tx.pc == Decrementing(o, n) && n < |tx.dto.items| && tx.dto.items[n].product in tx.read
    requires tx.dto.items[n].product !in tx.writes && Enough(s.products, tx.dto.items[n])
    requires tx.read[tx.dto.items[n].product] == s.products[tx.dto.items[n].product]
    ensures Enabled(During(s, t, tx), Decrement(t))
    ensures Next(During(s, t, tx), Decrement(t)) == During(s, t, Decremented(tx, o, n))
  {
    SeesOwnRead(s, t, tx, o, n);
    var d := During(s, t, tx);
    assert Next(d, Decrement(t)) == d.(txs := d.txs[t := Decremented(tx, o, n)]);
    Moved(s, t, tx, Decremented(tx, o, n));
  }

  /** Prices read under the locks are the prices in the table. */
  lemma {:induction false} PricedAsRead(items: seq<Item>, read: map<ProductId, Product>,
                                        products: map<ProductId, Product>)
    requires AllFound(read, items) && (forall p :: p in read ==> p in products && products[p] == read[p])
    ensures Priced(items, read) == Priced(items, products)
  {
    if items != [] {
      PricedAsRead(items[..|items| - 1], read, products);
    }
  }

  lemma TotalsStep(s: State, t: TxId, tx: Tx, o: OrderId)
    requires tx.pc == Decrementing(o, |tx.dto.items|) && Sufficient(tx) && ReadUpTo(s, tx, |tx.dto.items|)
    ensures AllFound(s.products, tx.dto.items)
    ensures var tx' := tx.(pc := Totalled(o, NewOrder(s.products, tx.dto).total));
            && Enabled(During(s, t, tx), WriteTotals(t))
            && Next(During(s, t, tx), WriteTotals(t)) == During(s, t, tx')
  {
    assert AllFound(tx.read, tx.dto.items);
    PricedAsRead(tx.dto.items, tx.read, s.products);
    Moved(s, t, tx, tx.(pc := Totalled(o, NewOrder(s.products, tx.dto).total)));
  }

  lemma SoldRows(s: State, tx: Tx, o: OrderId)
    requires WellFormed(tx.dto) && DecrementedUpTo(s, tx, o, |tx.dto.items|)
    ensures AllFound(s.products, tx.dto.items)
    ensures s.products + tx.writes == AfterSale(s.products, tx.dto.items)
  {
    var sold := s.products + tx.writes;
    forall p | p in s.products ensures sold[p] == AfterSale(s.products, tx.dto.items)[p] {
      if p in tx.writes {
        var j :| 0 <= j < |tx.dto.items| && tx.dto.items[j].product == p;
        TakenOnce(tx.dto.items, s.products, j);
      } else {
        TakenNothing(tx.dto.items, s.products, p);
      }
    }
  }

  /** The committed order, its authorize call not yet sent. */
  function AfterCommit(s: State, t: TxId, tx: Tx, o: OrderId): State
    requires AllFound(s.products, tx.dto.items)
  {
    var order := NewOrder(s.products, tx.dto);
    s.(products := AfterSale(s.products, tx.dto.items),
       orders := s.orders[o := order],
       outbox := s.outbox + multiset{OutboxRow(o, ProcessRequested), OutboxRow(o, OrderPlaced)},
       txs := s.txs[t := Tx(tx.dto, Committed(o, order.total), map[], map[])])
  }

  lemma LocksReleased(s: State, t: TxId, tx: Tx, tx': Tx)
    requires FreshTx(s, t) && forall p :: p in tx.read ==> p !in s.locks
    ensures Unlock(During(s, t, tx).locks, t) == s.locks
    ensures During(s, t, tx).txs[t] == tx && During(s, t, tx).txs[t := tx'] == s.txs[t := tx']
  {}

  lemma CommitStep(s: State, t: TxId, tx: Tx, o: OrderId)
    requires AllFound(s.products, tx.dto.items) && AllFound(tx.read, tx.dto.items)
    requires tx.pc == Totalled(o, NewOrder(s.products, tx.dto).total)
    requires s.products + tx.writes == AfterSale(s.products, tx.dto.items)
    requires Priced(tx.dto.items, tx.read) == Priced(tx.dto.items, s.products)
    requires FreshTx(s, t) && forall p :: p in tx.read ==> p !in s.locks
    ensures Enabled(During(s, t, tx), Commit(t))
    ensures Next(During(s, t, tx), Commit(t)) == AfterCommit(s, t, tx, o)
  {
    LocksReleased(s, t, tx, Tx(tx.dto, Committed(o, tx.pc.total), map[], map[]));
  }

  lemma SendStep(s: State, t: TxId, tx: Tx, o: OrderId, r: RequestId)
    requires t !in s.txs && AllFound(s.products, tx.dto.items) && r !in s.requests
    ensures Enabled(AfterCommit(s, t, tx, o), SendAuthorize(t, r))
    ensures Next(AfterCommit(s, t, tx, o), SendAuthorize(t, r)) == AfterCreate(s, tx.dto, o, r)
  {
    assert AfterCommit(s, t, tx, o).txs - {t} == s.txs;
  }

  // ---- the transaction after so many turns of its loops ---------------------------------------

  /** The rows of the first `n` items that exist. */
  function Rows(products: map<ProductId, Product>, items: seq<Item>, n: nat): map<ProductId, Product>
    requires n <= |items|
  {
    if n == 0 then map[] else
    var front, p := Rows(products, items, n - 1), items[n - 1].product;
    if p in products then front[p := products[p]] else front
  }

  /** The rows of the first `n` items with their stock updated. */
  function SoldRowsUpTo(products: map<ProductId, Product>, items: seq<Item>, n: nat): map<ProductId, Product>
    requires n <= |items| && AllFound(products, items)
  {
    if n == 0 then map[] else
    var item := items[n - 1];
    SoldRowsUpTo(products, items, n - 1)[item.product := Sold(products[item.product], item.quantity)]
  }

  function LockingTx(s: State, dto: CreateOrder, n: nat): Tx
    requires n <= |dto.items|
  {
    Tx(dto, Locking, Rows(s.products, dto.items, n), map[])
  }

  function SellingTx(s: State, dto: CreateOrder, o: OrderId, n: nat): Tx
    requires n <= |dto.items| && AllFound(s.products, dto.items)
  {
    Tx(dto, Decrementing(o, n), Rows(s.products, dto.items, |dto.items|), SoldRowsUpTo(s.products, dto.items, n))
  }

  /** The request is well formed and nothing it needs is taken. */
  ghost predicate Ready(s: State, t: TxId, dto: CreateOrder) {
    FreshTx(s, t) && WellFormed(dto) && Undisturbed(s, dto)
  }

  lemma {:induction false} LockingReached(from: State, s: State, t: TxId, dto: CreateOrder, n: nat)
    requires Ready(s, t, dto) && Reaches(from, During(s, t, Tx(dto, Locking, map[], map[]))) && n <= |dto.items|
    ensures ReadUpTo(s, LockingTx(s, dto, n), n) && Reaches(from, During(s, t, LockingTx(s, dto, n)))
  {
    if n > 0 {
      LockingReached(from, s, t, dto, n - 1);
      var p := dto.items[n - 1].product;
      if p in s.products {
        LockStep(s, t, LockingTx(s, dto, n - 1), n - 1);
        ReachesOn(from, During(s, t, LockingTx(s, dto, n - 1)), LockProduct(t, p));
      }
    }
  }

  lemma EnoughRead(s: State, tx: Tx)
    requires ReadUpTo(s, tx, |tx.dto.items|) && AllEnough(s.products, tx.dto.items)
    ensures Sufficient(tx)
  {
    assert forall i :: 0 <= i < |tx.dto.items| ==> Enough(s.products, tx.dto.items[i]);
  }

  /** The transaction with its rows locked and its stock checked. */
  function CheckedTx(s: State, dto: CreateOrder): Tx {
    LockingTx(s, dto, |dto.items|).(pc := Checked)
  }

  lemma CheckedReached(from: State, s: State, t: TxId, dto: CreateOrder)
    requires Ready(s, t, dto) && Reaches(from, During(s, t, Tx(dto, Locking, map[], map[])))
    requires AllEnough(s.products, dto.items)
    ensures Sufficient(CheckedTx(s, dto)) && ReadUpTo(s, CheckedTx(s, dto), |dto.items|)
    ensures Reaches(from, During(s, t, CheckedTx(s, dto)))
  {
    var locked := LockingTx(s, dto, |dto.items|);
    LockingReached(from, s, t, dto, |dto.items|);
    EnoughRead(s, locked);
    CheckStep(s, t, locked);
    ReachesOn(from, During(s, t, locked), Check(t));
  }

  /** Rows locked, stock checked, order inserted: the stock update loop is about to begin. */
  lemma SellingBegins(s: State, t: TxId, dto: CreateOrder, o: OrderId)
    requires Ready(s, t, dto) && Reaches(s, During(s, t, Tx(dto, Locking, map[], map[])))
    requires !HasOrder(s, dto) && FreshOrder(s, o)
    requires AllFound(s.products, dto.items) && AllEnough(s.products, dto.items)
    ensures DecrementedUpTo(s, SellingTx(s, dto, o, 0), o, 0)
    ensures Reaches(s, During(s, t, SellingTx(s, dto, o, 0)))
  {
    CheckedReached(s, s, t, dto);
    StillFree(s, t, CheckedTx(s, dto), o);
    InsertStep(s, t, CheckedTx(s, dto), o);
    ReachesOn(s, During(s, t, CheckedTx(s, dto)), InsertOrder(t, o));
  }

  /** The transaction's writes are those of its first `n` items. */
  ghost predicate Wrote(products: map<ProductId, Product>, tx: Tx, n: nat)
    requires n <= |tx.dto.items| && AllFound(products, tx.dto.items)
  {
    WritesUpTo(tx.(writes := SoldRowsUpTo(products, tx.dto.items, n)), n)
  }

  lemma NothingWritten(products: map<ProductId, Product>, tx: Tx)
    requires AllFound(products, tx.dto.items)
    ensures Wrote(products, tx, 0)
  {}

  lemma WroteOneMore(products: map<ProductId, Product>, tx: Tx, n: nat)
    requires WellFormed(tx.dto) && 0 < n <= |tx.dto.items| && AllFound(products, tx.dto.items) && Sufficient(tx)
    requires forall p :: p in tx.read ==> p in products && products[p] == tx.read[p]
    requires Wrote(products, tx, n - 1)
    ensures Wrote(products, tx, n)
  {
    assert tx.dto.items[n - 1].product in tx.read;
    DecrementedSound(tx.(writes := SoldRowsUpTo(products, tx.dto.items, n - 1)),
                     tx.(writes := SoldRowsUpTo(products, tx.dto.items, n)), n - 1);
  }

  lemma {:induction false} SellingWrites(products: map<ProductId, Product>, tx: Tx, n: nat)
    requires WellFormed(tx.dto) && n <= |tx.dto.items| && AllFound(products, tx.dto.items) && Sufficient(tx)
    requires forall p :: p in tx.read ==> p in products && products[p] == tx.read[p]
    ensures Wrote(products, tx, n)
  {
    if n == 0 {
      NothingWritten(products, tx);
    } else {
      SellingWrites(products, tx, n - 1);
      WroteOneMore(products, tx, n);
    }
  }

  lemma SellingSound(s: State, dto: CreateOrder, o: OrderId, n: nat)
    requires WellFormed(dto) && n <= |dto.items| && AllFound(s.products, dto.items)
    requires DecrementedUpTo(s, SellingTx(s, dto, o, 0), o, 0)
    ensures DecrementedUpTo(s, SellingTx(s, dto, o, n), o, n)
  {
    SellingWrites(s.products, SellingTx(s, dto, o, n), n);
  }

  /** The state before the stock update loop, and after each turn of it. */
  function SellingStates(s: State, t: TxId, dto: CreateOrder, o: OrderId): (states: seq<State>)
    requires AllFound(s.products, dto.items)
    ensures |states| == |dto.items| + 1
    ensures forall i :: 0 <= i <= |dto.items| ==> states[i] == During(s, t, SellingTx(s, dto, o, i))
  {
    seq(|dto.items| + 1, i requires 0 <= i <= |dto.items| => During(s, t, SellingTx(s, dto, o, i)))
  }

  lemma SellingLeads(s: State, t: TxId, dto: CreateOrder, o: OrderId)
    requires WellFormed(dto) && AllFound(s.products, dto.items)
    requires DecrementedUpTo(s, SellingTx(s, dto, o, 0), o, 0)
    ensures var states := SellingStates(s, t, dto, o);
      forall i :: 0 <= i < |states| - 1 ==> Leads(states[i], Decrement(t), states[i + 1])
  {
    forall i | 0 <= i < |dto.items|
      ensures Leads(SellingStates(s, t, dto, o)[i], Decrement(t), SellingStates(s, t, dto, o)[i + 1])
    {
      SellingStep(s, t, dto, o, i);
    }
  }

  lemma SellingReached(s: State, t: TxId, dto: CreateOrder, o: OrderId)
    requires WellFormed(dto) && AllFound(s.products, dto.items)
    requires DecrementedUpTo(s, SellingTx(s, dto, o, 0), o, 0)
    requires Reaches(s, During(s, t, SellingTx(s, dto, o, 0)))
    ensures Reaches(s, During(s, t, SellingTx(s, dto, o, |dto.items|)))
  {
    SellingLeads(s, t, dto, o);
    ReachesAlong(s, SellingStates(s, t, dto, o), Decrement(t));
  }

  lemma SellingStep(s: State, t: TxId, dto: CreateOrder, o: OrderId, n: nat)
    requires WellFormed(dto) && n < |dto.items| && AllFound(s.products, dto.items)
    requires DecrementedUpTo(s, SellingTx(s, dto, o, 0), o, 0)
    ensures Leads(During(s, t, SellingTx(s, dto, o, n)), Decrement(t), During(s, t, SellingTx(s, dto, o, n + 1)))
  {
    SellingSound(s, dto, o, n);
    DecrementedOneMore(s, SellingTx(s, dto, o, n), o, n);
    DecrementStep(s, t, SellingTx(s, dto, o, n), o, n);
    SellingOneMore(s, dto, o, n);
  }

  lemma SellingOneMore(s: State, dto: CreateOrder, o: OrderId, n: nat)
    requires n < |dto.items| && AllFound(s.products, dto.items)
    requires DecrementedUpTo(s, SellingTx(s, dto, o, n), o, n)
    ensures SellingTx(s, dto, o, n + 1) == Decremented(SellingTx(s, dto, o, n), o, n)
  {}

  /** The whole of an accepted request is a run of the transition system. */
  lemma AcceptedReached(s: State, t: TxId, dto: CreateOrder, o: OrderId, r: RequestId)
    requires Ready(s, t, dto) && Reaches(s, During(s, t, Tx(dto, Locking, map[], map[])))
    requires !HasOrder(s, dto) && FreshOrder(s, o) && r !in s.requests
    requires AllFound(s.products, dto.items) && AllEnough(s.products, dto.items)
    ensures Reaches(s, AfterCreate(s, dto, o, r))
  {
    SellingBegins(s, t, dto, o);
    SellingSound(s, dto, o, |dto.items|);
    SellingReached(s, t, dto, o);
    FinishReached(s, t, SellingTx(s, dto, o, |dto.items|), o, r);
  }

  lemma FinishReached(s: State, t: TxId, tx: Tx, o: OrderId, r: RequestId)
    requires FreshTx(s, t) && WellFormed(tx.dto) && DecrementedUpTo(s, tx, o, |tx.dto.items|)
    requires r !in s.requests && Reaches(s, During(s, t, tx))
    ensures AllFound(s.products, tx.dto.items)
    ensures Reaches(s, AfterCreate(s, tx.dto, o, r))
  {
    assert AllFound(tx.read, tx.dto.items);
    SoldRows(s, tx, o);
    PricedAsRead(tx.dto.items, tx.read, s.products);
    var totalled := tx.(pc := Totalled(o, NewOrder(s.products, tx.dto).total));
    TotalsStep(s, t, tx, o);
    ReachesOn(s, During(s, t, tx), WriteTotals(t));
    CommitStep(s, t, totalled, o);
    ReachesOn(s, During(s, t, totalled), Commit(t));
    SendStep(s, t, totalled, o, r);
    ReachesOn(s, AfterCommit(s, t, totalled, o), SendAuthorize(t, r));
  }

  lemma BeginReached(s: State, t: TxId, dto: CreateOrder)
    requires Ready(s, t, dto)
    ensures Reaches(s, During(s, t, Tx(dto, Begun, map[], map[])))
    ensures !HasOrder(s, dto) ==> Reaches(s, During(s, t, Tx(dto, Locking, map[], map[])))
  {
    assert ExecFrom(s, []) == Some(s);
    BeginStep(s, t, dto);
    ReachesOn(s, s, Begin(t, dto));
    if !HasOrder(s, dto) {
      ProceedStep(s, t, dto);
      ReachesOn(s, During(s, t, Tx(dto, Begun, map[], map[])), Proceed(t));
    }
  }

  /** What the rows read and written in the loops come to. */
  ghost predicate SoldOut(s: State, tx: Tx) {
    && AllFound(s.products, tx.dto.items) && AllFound(tx.read, tx.dto.items)
    && s.products + tx.writes == AfterSale(s.products, tx.dto.items)
    && Priced(tx.dto.items, tx.read) == Priced(tx.dto.items, s.products)
    && (forall p :: p in tx.read ==> p !in s.locks)
  }

  lemma RowsSold(s: State, t: TxId, dto: CreateOrder, o: OrderId)
    requires Ready(s, t, dto) && Reaches(s, During(s, t, Tx(dto, Locking, map[], map[])))
    requires !HasOrder(s, dto) && FreshOrder(s, o)
    requires AllFound(s.products, dto.items) && AllEnough(s.products, dto.items)
    ensures SoldOut(s, SellingTx(s, dto, o, |dto.items|))
  {
    SellingBegins(s, t, dto, o);
    SellingSound(s, dto, o, |dto.items|);
    var tx := SellingTx(s, dto, o, |dto.items|);
    SoldRows(s, tx, o);
    assert AllFound(tx.read, dto.items);
    PricedAsRead(dto.items, tx.read, s.products);
  }

  // ---- the service ----------------------------------------------------------------------------

  function InsertedIds(txs: map<TxId, Tx>): set<OrderId> {
    set u | u in txs && Inserted(txs[u]) :: txs[u].pc.order
  }

  lemma StillFresh(s: State, t: TxId, tx: Tx, o: OrderId)
    requires t !in s.txs && o !in s.orders && o !in InsertedIds(During(s, t, tx).txs)
    ensures FreshOrder(s, o)
  {
    forall u | u in s.txs && Inserted(s.txs[u]) ensures s.txs[u].pc.order != o {
      assert During(s, t, tx).txs[u] == s.txs[u];
    }
  }

  /** The tables after the transaction `t` commits and sends its authorize request. */
  function Settled(d: State, t: TxId, o: OrderId, r: RequestId): State
    requires t in d.txs && AllFound(d.txs[t].read, d.txs[t].dto.items)
  {
    var tx := d.txs[t];
    var items := Priced(tx.dto.items, tx.read);
    d.(products := d.products + tx.writes,
       locks := Unlock(d.locks, t),
       orders := d.orders[o := Order(tx.dto.user, tx.dto.key, items, Subtotal(items))],
       outbox := d.outbox + multiset{OutboxRow(o, ProcessRequested), OutboxRow(o, OrderPlaced)},
       txs := d.txs - {t},
       requests := d.requests[r := Request(o, tx.dto.key, Subtotal(items), Sent)])
  }

  lemma CommitLeaves(s: State, t: TxId, tx: Tx, o: OrderId, r: RequestId)
    requires FreshTx(s, t) && SoldOut(s, tx)
    ensures AllFound(During(s, t, tx).txs[t].read, During(s, t, tx).txs[t].dto.items)
    ensures AfterCreate(s, tx.dto, o, r) == Settled(During(s, t, tx), t, o, r)
  {
    LocksReleased(s, t, tx, tx);
    assert During(s, t, tx).txs - {t} == s.txs;
  }

  /** The item at `i` is the first one its product has too little stock for. */
  ghost predicate FirstShort(products: map<ProductId, Product>, items: seq<Item>, i: nat) {
    i < |items| && !Enough(products, items[i]) && forall j :: 0 <= j < i ==> Enough(products, items[j])
  }

  lemma SameOrders(s: State, t: TxId, tx: Tx)
    ensures forall o :: OrderFor(During(s, t, tx), tx.dto, o) <==> OrderFor(s, tx.dto, o)
    ensures HasOrder(During(s, t, tx), tx.dto) <==> HasOrder(s, tx.dto)
  {
    assert forall o :: OrderFor(During(s, t, tx), tx.dto, o) <==> OrderFor(s, tx.dto, o);
  }

  predicate Accepted(outcome: Outcome) {
    outcome.Created? || outcome.PaymentTimeout? || outcome.PaymentUnavailable?
  }

  predicate Answer(outcome: Outcome, reply: Reply) {
    match reply
    case Answered => outcome.Created?
    case TimedOut => outcome.PaymentTimeout?
    case Failed(_) => outcome.PaymentUnavailable?
  }

  /** The order is in the table under a new id, and its authorize request is on its way. */
  ghost predicate Placed(before: State, dto: CreateOrder, outcome: Outcome, after: State) {
    && AllFound(before.products, dto.items)
    && exists o, r ::
         && (outcome.Created? ==> outcome.order == o)
         && FreshOrder(before, o) && r !in before.requests && after == AfterCreate(before, dto, o, r)
  }

  /**
     One order more, with the request's items at the table's prices and their sum as its total, and one authorize
     request more, for that order, its key and that sum.
   */
  ghost predicate Ordered(before: State, dto: CreateOrder, outcome: Outcome, orders: map<OrderId, Order>,
                          requests: map<RequestId, Request>)
  {
    exists o: OrderId, r: RequestId ::
      && o !in before.orders && r !in before.requests && o in orders && (outcome.Created? ==> outcome.order == o)
      && orders == before.orders[o := orders[o]] && BilledTo(orders[o], dto, before.products)
      && requests == before.requests[r := Request(o, dto.key, orders[o].total, Sent)]
  }

  lemma PlacedInFull(before: State, dto: CreateOrder, outcome: Outcome, after: State)
    requires Placed(before, dto, outcome, after)
    ensures Ordered(before, dto, outcome, after.orders, after.requests)
  {
    var o: OrderId, r: RequestId :|
      (outcome.Created? ==> outcome.order == o) && FreshOrder(before, o) && r !in before.requests
      && after == AfterCreate(before, dto, o, r);
    PricedIsBilled(dto, before.products, before.products);
    OrderAdded(before, dto, o, r);
    assert after.orders[o] == NewOrder(before.products, dto);
  }

  class OrdersService {
    const shop: Shop

    constructor (shop: Shop)
      ensures this.shop == shop
    {
      this.shop := shop;
    }

    method NoDuplicates(items: seq<Item>) returns (distinct: bool)
      ensures distinct <==> forall i, j :: 0 <= i < j < |items| ==> items[i].product != items[j].product
    {
      var unique: set<ProductId> := {};
      for n := 0 to |items|
        invariant forall p :: p in unique <==> exists i :: 0 <= i < n && items[i].product == p
        invariant forall i, j :: 0 <= i < j < n ==> items[i].product != items[j].product
      {
        if items[n].product in unique {
          return false;
        }
        unique := unique + {items[n].product};
      }
      return true;
    }

    method FindExisting(dto: CreateOrder) returns (found: Option<OrderId>)
      ensures found.Some? ==> OrderFor(shop.Abs(), dto, found.value)
      ensures found.None? <==> !HasOrder(shop.Abs(), dto)
    {
      if o :| o in shop.orders && shop.orders[o].user == dto.user && shop.orders[o].key == dto.key {
        assert OrderFor(shop.Abs(), dto, o);
        return Some(o);
      }
      return None;
    }

    method BeginTx(dto: CreateOrder) returns (t: TxId)
      modifies shop
      ensures FreshTx(old(shop.Abs()), t)
      ensures shop.Abs() == During(old(shop.Abs()), t, Tx(dto, Begun, map[], map[]))
    {
      FreshNat(shop.txs.Keys + shop.locks.Values);
      t :| t !in shop.txs && t !in shop.locks.Values;
      shop.txs := shop.txs[t := Tx(dto, Begun, map[], map[])];
    }

    method Rollback(t: TxId, ghost s: State, ghost tx: Tx)
      requires FreshTx(s, t) && shop.Abs() == During(s, t, tx) && (forall p :: p in tx.read ==> p !in s.locks)
      modifies shop
      ensures shop.Abs() == s
    {
      LocksReleased(s, t, tx, tx);
      shop.locks := Unlock(shop.locks, t);
      shop.txs := shop.txs - {t};
      assert shop.txs == s.txs;
    }

    /**
     The catch block, with the transaction still open: after a timeout or a coded error the connection goes back
     as it is; only then comes the rollback, and the test for a unique violation.
     */
    method CatchError(e: Error, t: TxId, dto: CreateOrder, ghost s: State, ghost tx: Tx) returns (outcome: Outcome)
      requires FreshTx(s, t) && shop.Abs() == During(s, t, tx) && (forall p :: p in tx.read ==> p !in s.locks)
      modifies shop
      ensures forall existing :: outcome == Catch(e, existing)
      ensures shop.Abs() == if e.Uncoded? then s else old(shop.Abs())
    {
      if e.TimeoutError? {
        return PaymentTimeout;
      }
      if CodeOf(e) != None {
        return PaymentUnavailable;
      }
      Rollback(t, s, tx);
      if CodeOf(e) == Some(UNIQUE_VIOLATION) {
        var existing := FindExisting(dto);
        return FoundOr(existing, ThrownOn(e));
      }
      return ThrownOn(e);
    }

    method RefuseLocked(refusal: Refusal, t: TxId, dto: CreateOrder, ghost s: State) returns (outcome: Outcome)
      requires FreshTx(s, t) && Undisturbed(s, dto)
      requires shop.Abs() == During(s, t, LockingTx(s, dto, |dto.items|))
      modifies shop
      ensures outcome == refusal && shop.Abs() == s
    {
      RowsAre(s.products, dto.items, |dto.items|);
      outcome := CatchError(Uncoded(refusal), t, dto, s, LockingTx(s, dto, |dto.items|));
      assert outcome == Catch(Uncoded(refusal), None);
    }

    /** SELECT ... FOR NO KEY UPDATE: the rows that exist are locked and read, one after the other. */
    method LockProducts(t: TxId, dto: CreateOrder, ghost s: State)
      returns (read: map<ProductId, Product>, found: nat)
      requires shop.Abs() == During(s, t, LockingTx(s, dto, 0))
      modifies shop
      ensures read == Rows(s.products, dto.items, |dto.items|)
      ensures shop.Abs() == During(s, t, LockingTx(s, dto, |dto.items|))
      ensures found <= |dto.items| && (found == |dto.items| <==> AllFound(s.products, dto.items))
    {
      read, found := map[], 0;
      for n := 0 to |dto.items|
        invariant read == Rows(s.products, dto.items, n)
        invariant shop.Abs() == During(s, t, LockingTx(s, dto, n))
        invariant found <= n
        invariant found == n <==> forall i :: 0 <= i < n ==> dto.items[i].product in s.products
      {
        var p := dto.items[n].product;
        if p in shop.products {
          Locked(s, t, LockingTx(s, dto, n), p, s.products[p]);
          read, found := read[p := shop.products[p]], found + 1;
          shop.locks := shop.locks[p := t];
          shop.txs := shop.txs[t := Tx(dto, Locking, read, map[])];
        }
      }
    }

    /** The check loop: the first item with too little stock, if there is one. */
    method CheckStock(ghost products: map<ProductId, Product>, items: seq<Item>, read: map<ProductId, Product>)
      returns (short: Option<nat>)
      requires read == Rows(products, items, |items|) && AllFound(products, items)
      ensures short.Some? ==> FirstShort(products, items, short.value)
      ensures short.None? <==> AllEnough(products, items)
    {
      RowsAre(products, items, |items|);
      assert forall i :: 0 <= i < |items| ==> items[i].product in read;
      for n := 0 to |items|
        invariant forall i :: 0 <= i < n ==> Enough(read, items[i])
      {
        if read[items[n].product].stock < items[n].quantity {
          return Some(n);
        }
      }
      return None;
    }

    method AddOrder(t: TxId, dto: CreateOrder, ghost s: State) returns (o: OrderId)
      requires t !in s.txs && AllFound(s.products, dto.items)
      requires shop.Abs() == During(s, t, LockingTx(s, dto, |dto.items|))
      modifies shop
      ensures FreshOrder(s, o) && shop.Abs() == During(s, t, SellingTx(s, dto, o, 0))
    {
      FreshNat(shop.orders.Keys + InsertedIds(shop.txs));
      o :| o !in shop.orders && o !in InsertedIds(shop.txs);
      StillFresh(s, t, LockingTx(s, dto, |dto.items|), o);
      Moved(s, t, LockingTx(s, dto, |dto.items|), SellingTx(s, dto, o, 0));
      shop.txs := shop.txs[t := shop.txs[t].(pc := Decrementing(o, 0))];
    }

    /**
     The stock update loop: `SET stock = stock - $1 WHERE id = $2 AND stock >= $1` for each item. No item's
     row has been updated before its turn, so the row it sees is the table's.
     */
    method DecrementAll(t: TxId, dto: CreateOrder, o: OrderId, ghost s: State) returns (missed: bool)
      requires WellFormed(dto) && AllFound(s.products, dto.items) && AllEnough(s.products, dto.items)
      requires shop.Abs() == During(s, t, SellingTx(s, dto, o, 0))
      modifies shop
      ensures !missed && shop.Abs() == During(s, t, SellingTx(s, dto, o, |dto.items|))
    {
      for n := 0 to |dto.items|
        invariant shop.Abs() == During(s, t, SellingTx(s, dto, o, n))
      {
        var item := dto.items[n];
        var tx := shop.txs[t];
        assert tx == SellingTx(s, dto, o, n);
        NotYetSold(s.products, dto, n);
        var row := shop.products[item.product];
        assert Enough(s.products, item);
        if row.stock < item.quantity {
          return true;
        }
        Moved(s, t, tx, SellingTx(s, dto, o, n + 1));
        shop.txs := shop.txs[t := tx.(pc := Decrementing(o, n + 1),
                                      writes := tx.writes[item.product := Sold(row, item.quantity)])];
      }
      return false;
    }

    /** Totals, outbox rows, commit, and the authorize call. */
    method Finish(t: TxId, o: OrderId) returns (r: RequestId)
      requires t in shop.txs && AllFound(shop.txs[t].read, shop.txs[t].dto.items)
      modifies shop
      ensures r !in old(shop.requests) && shop.Abs() == Settled(old(shop.Abs()), t, o, r)
    {
      FreshNat(shop.requests.Keys);
      r :| r !in shop.requests;
      var tx := shop.txs[t];
      var items := Priced(tx.dto.items, tx.read);
      shop.products := shop.products + tx.writes;
      shop.locks := Unlock(shop.locks, t);
      shop.orders := shop.orders[o := Order(tx.dto.user, tx.dto.key, items, Subtotal(items))];
      shop.outbox := shop.outbox + multiset{OutboxRow(o, ProcessRequested), OutboxRow(o, OrderPlaced)};
      shop.txs := shop.txs - {t};
      shop.requests := shop.requests[r := Request(o, tx.dto.key, Subtotal(items), Sent)];
    }

    /** From the locked rows to the authorize call. */
    method Accept(t: TxId, dto: CreateOrder, reply: Reply, ghost s: State) returns (outcome: Outcome)
      requires Ready(s, t, dto) && !HasOrder(s, dto)
      requires AllFound(s.products, dto.items) && AllEnough(s.products, dto.items)
      requires shop.Abs() == During(s, t, LockingTx(s, dto, |dto.items|))
      modifies shop
      ensures Accepted(outcome) && Answer(outcome, reply) && Placed(s, dto, outcome, shop.Abs())
    {
      var o := AddOrder(t, dto, s);
      var missed := DecrementAll(t, dto, o, s);
      BeginReached(s, t, dto);
      RowsSold(s, t, dto, o);
      var r := Finish(t, o);
      CommitLeaves(s, t, SellingTx(s, dto, o, |dto.items|), o, r);
      outcome := match reply
        case Answered => Created(o)
        case TimedOut => Catch(TimeoutError, None)
        case Failed(code) => Catch(Coded(code), None);
    }

    /** From the existing-order check on: lock, check, and either roll back or accept. */
    method Place(t: TxId, dto: CreateOrder, reply: Reply, ghost s: State) returns (outcome: Outcome)
      requires Ready(s, t, dto) && !HasOrder(s, dto)
      requires shop.Abs() == During(s, t, LockingTx(s, dto, 0))
      modifies shop
      ensures !outcome.Existing? && !outcome.Unexpected?
      ensures outcome.BadRequest? <==> !AllFound(s.products, dto.items)
      ensures outcome.Conflict? <==> AllFound(s.products, dto.items) && !AllEnough(s.products, dto.items)
      ensures outcome.Conflict? ==>
        exists i: nat :: FirstShort(s.products, dto.items, i) && outcome.product == dto.items[i].product
      ensures outcome.BadRequest? || outcome.Conflict? ==> shop.Abs() == s
      ensures Accepted(outcome) ==> Answer(outcome, reply) && Placed(s, dto, outcome, shop.Abs())
    {
      var read, found := LockProducts(t, dto, s);
      if found != |dto.items| {
        outcome := RefuseLocked(BadRequest, t, dto, s);
        return;
      }
      var short := CheckStock(s.products, dto.items, read);
      if short.Some? {
        outcome := RefuseLocked(Conflict(dto.items[short.value].product), t, dto, s);
        return;
      }
      outcome := Accept(t, dto, reply, s);
    }

    /**
     create: what it answers and leaves behind is settled by the request and the tables alone. Every
     refusal leaves them as they were; a payment timeout does not undo the order.
     */
    method Create(dto: CreateOrder, userExists: bool, reply: Reply) returns (outcome: Outcome)
      requires Undisturbed(shop.Abs(), dto)
      modifies shop
      ensures var s := old(shop.Abs());
        && (outcome.BadRequest? <==>
              !WellFormed(dto) || !userExists || (!HasOrder(s, dto) && !AllFound(s.products, dto.items)))
        && (outcome.Existing? <==> WellFormed(dto) && userExists && HasOrder(s, dto))
        && (outcome.Existing? ==> OrderFor(s, dto, outcome.order))
        && (outcome.Conflict? <==>
              && WellFormed(dto) && userExists && !HasOrder(s, dto)
              && AllFound(s.products, dto.items) && !AllEnough(s.products, dto.items))
        && (outcome.Conflict? ==>
              exists i: nat :: FirstShort(s.products, dto.items, i) && outcome.product == dto.items[i].product)
        && !outcome.Unexpected? && (!Accepted(outcome) ==> shop.Abs() == s)
        && (Accepted(outcome) ==> Answer(outcome, reply) && Placed(s, dto, outcome, shop.Abs()))
        && (Accepted(outcome) ==> Ordered(s, dto, outcome, shop.orders, shop.requests))
    {
      ghost var s := shop.Abs();
      var distinct := NoDuplicates(dto.items);
      if dto.items == [] || !distinct {
        return BadRequest;
      }
      var t := BeginTx(dto);
      if !userExists {
        outcome := CatchError(Uncoded(BadRequest), t, dto, s, Tx(dto, Begun, map[], map[]));
        assert outcome == Catch(Uncoded(BadRequest), None);
        return;
      }
      SameOrders(s, t, Tx(dto, Begun, map[], map[]));
      var existing := FindExisting(dto);
      if existing.Some? {
        Rollback(t, s, Tx(dto, Begun, map[], map[]));
        return Existing(existing.value);
      }
      Moved(s, t, Tx(dto, Begun, map[], map[]), Tx(dto, Locking, map[], map[]));
      shop.txs := shop.txs[t := Tx(dto, Locking, map[], map[])];
      outcome := Place(t, dto, reply, s);
      if Accepted(outcome) {
        PlacedInFull(s, dto, outcome, shop.Abs());
      }
    }
  }

  lemma {:induction false} RowsAre(products: map<ProductId, Product>, items: seq<Item>, n: nat)
    requires n <= |items|
    ensures forall p :: p in Rows(products, items, n) <==>
                        p in products && exists i :: 0 <= i < n && items[i].product == p
    ensures forall p :: p in Rows(products, items, n) ==> Rows(products, items, n)[p] == products[p]
  {
    if n > 0 {
      RowsAre(products, items, n - 1);
    }
  }

  lemma {:induction false} SoldRowsAre(products: map<ProductId, Product>, items: seq<Item>, n: nat)
    requires n <= |items| && AllFound(products, items)
    ensures forall p :: p in SoldRowsUpTo(products, items, n) ==> exists i :: 0 <= i < n && items[i].product == p
  {
    if n > 0 {
      SoldRowsAre(products, items, n - 1);
    }
  }

  lemma NotYetSold(products: map<ProductId, Product>, dto: CreateOrder, n: nat)
    requires WellFormed(dto) && AllFound(products, dto.items) && n < |dto.items|
    ensures dto.items[n].product !in SoldRowsUpTo(products, dto.items, n)
  {
    SoldRowsAre(products, dto.items, n);
  }

  /** An accepted request's whole effect is a run of the transition system. */
  lemma PlacedReached(s: State, dto: CreateOrder, outcome: Outcome, after: State)
    requires Undisturbed(s, dto) && WellFormed(dto) && !HasOrder(s, dto) && Placed(s, dto, outcome, after)
    requires AllEnough(s.products, dto.items)
    ensures Reaches(s, after)
  {
    FreshNat(s.txs.Keys + s.locks.Values);
    var t: nat :| t !in s.txs.Keys + s.locks.Values;
    assert FreshTx(s, t);
    var o, r :| FreshOrder(s, o) && r !in s.requests && after == AfterCreate(s, dto, o, r);
    BeginReached(s, t, dto);
    AcceptedReached(s, t, dto, o, r);
  }

  lemma OrderAdded(s: State, dto: CreateOrder, o: OrderId, r: RequestId)
    requires AllFound(s.products, dto.items)
    ensures AfterCreate(s, dto, o, r).orders == s.orders[o := NewOrder(s.products, dto)]
  {}

  /** A second request with the same key finds the order, whatever the first caller was told. */
  lemma RepeatFindsOrder(s: State, dto: CreateOrder, again: CreateOrder, outcome: Outcome, after: State)
    requires Placed(s, dto, outcome, after) && again.user == dto.user && again.key == dto.key
    ensures HasOrder(after, again)
    ensures forall o :: OrderFor(after, again, o) && !HasOrder(s, dto) ==> o !in s.orders
  {
    var o, r :| FreshOrder(s, o) && r !in s.requests && after == AfterCreate(s, dto, o, r);
    OrderAdded(s, dto, o, r);
    assert OrderFor(after, again, o);
    forall p | OrderFor(after, again, p) && !HasOrder(s, dto) ensures p !in s.orders {
      if p in s.orders {
        assert OrderFor(s, dto, p);
      }
    }
  }
}
