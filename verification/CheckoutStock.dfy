/** Stock is conserved under any interleaving of creates, and the guarded update never misses. */
module CheckoutStock {
  import opened Wrappers
  import opened MapTotals
  import opened CheckoutModel

  // ---- what an open transaction knows ---------------------------------------------------------

  function Sold(p: Product, quantity: nat): Product {
    p.(stock := p.stock - quantity)
  }

  /** The first `n` items, and no others, have been taken off the rows as they were read. */
  ghost predicate WritesUpTo(tx: Tx, n: nat) {
    && n <= |tx.dto.items|
    && (forall j :: 0 <= j < n ==>
          && tx.dto.items[j].product in tx.writes && tx.dto.items[j].product in tx.read
          && tx.writes[tx.dto.items[j].product]
             == Sold(tx.read[tx.dto.items[j].product], tx.dto.items[j].quantity))
    && (forall j :: n <= j < |tx.dto.items| ==> tx.dto.items[j].product !in tx.writes)
    && (forall p :: p in tx.writes ==> p in tx.read && exists j :: 0 <= j < n && tx.dto.items[j].product == p)
  }

  ghost predicate PcSound(tx: Tx) {
    match tx.pc
    case Begun => tx.read == map[] && tx.writes == map[]
    case Locking => tx.writes == map[]
    case Checked => tx.writes == map[] && Sufficient(tx)
    case Decrementing(_, next) => Sufficient(tx) && WritesUpTo(tx, next)
    case Totalled(_, total) =>
      Sufficient(tx) && WritesUpTo(tx, |tx.dto.items|) && total == Subtotal(Priced(tx.dto.items, tx.read))
    case Committed(_, _) => tx.read == map[] && tx.writes == map[]
    case Aborted => true
  }

  ghost predicate ReadsCurrent(products: map<ProductId, Product>, tx: Tx) {
    forall p :: p in tx.read ==> p in products && products[p] == tx.read[p]
  }

  ghost predicate LocksSound(locks: map<ProductId, TxId>, txs: map<TxId, Tx>) {
    && (forall t, p :: t in txs && p in txs[t].read ==> p in locks && locks[p] == t)
    && (forall p :: p in locks ==> locks[p] in txs && p in txs[locks[p]].read)
  }

  ghost predicate TxSound(products: map<ProductId, Product>, tx: Tx) {
    WellFormed(tx.dto) && PcSound(tx) && ReadsCurrent(products, tx)
  }

  ghost predicate Sound(s: State) {
    && LocksSound(s.locks, s.txs)
    && (forall t :: t in s.txs ==> TxSound(s.products, s.txs[t]))
    && Stocked(s.products)
    && (forall o :: o in s.orders ==> s.orders[o].items != [])
  }

  // ---- one transaction's own steps ------------------------------------------------------------

  lemma DecrementedSound(tx: Tx, after: Tx, i: nat)
    requires WellFormed(tx.dto) && Sufficient(tx) && WritesUpTo(tx, i) && i < |tx.dto.items|
    requires after.dto == tx.dto && after.read == tx.read
    requires after.writes == tx.writes[tx.dto.items[i].product :=
               Sold(tx.read[tx.dto.items[i].product], tx.dto.items[i].quantity)]
    ensures WritesUpTo(after, i + 1)
  {
    var p := tx.dto.items[i].product;
    assert after.dto.items[i].product == p;
    forall q | q in after.writes
      ensures q in after.read && exists j :: 0 <= j < i + 1 && after.dto.items[j].product == q
    {
      if q != p {
        var j :| 0 <= j < i && tx.dto.items[j].product == q;
        assert after.dto.items[j].product == q;
      }
    }
  }

  /** At its turn an item's row is still the one that was read and checked, so the guard holds. */
  lemma GuardAlwaysHolds(s: State, t: TxId)
    requires AtDecrement(s, t) && TxSound(s.products, s.txs[t])
    ensures GuardHolds(s, t)
    ensures Visible(s, s.txs[t], CurrentItem(s, t).product) == s.txs[t].read[CurrentItem(s, t).product]
  {}

  lemma OwnStepKeepsRead(s: State, l: Label)
    requires Enabled(s, l) && CreateLabel(l) && l.tx in Next(s, l).txs
    requires !l.Commit? && !l.Begin? && !l.LockProduct?
    ensures l.tx in s.txs && Next(s, l).txs[l.tx].dto == s.txs[l.tx].dto
    ensures Next(s, l).txs[l.tx].read == s.txs[l.tx].read
  {}

  lemma OwnStepSound(s: State, l: Label)
    requires Enabled(s, l) && CreateLabel(l) && l.tx in Next(s, l).txs
    requires !l.Commit? && !l.Begin? && !l.LockProduct?
    requires l.tx in s.txs && TxSound(s.products, s.txs[l.tx])
    ensures TxSound(s.products, Next(s, l).txs[l.tx])
  {
    OwnStepKeepsRead(s, l);
    if l.Decrement? {
      GuardAlwaysHolds(s, l.tx);
      DecrementedSound(s.txs[l.tx], Next(s, l).txs[l.tx], s.txs[l.tx].pc.next);
    }
  }

  // ---- locks ----------------------------------------------------------------------------------

  lemma LocksAfterUnlock(locks: map<ProductId, TxId>, txs: map<TxId, Tx>, t: TxId)
    requires LocksSound(locks, txs) && t in txs
    ensures LocksSound(Unlock(locks, t), txs - {t})
    ensures forall tx: Tx :: tx.read == map[] ==> LocksSound(Unlock(locks, t), txs[t := tx])
  {
    forall tx: Tx | tx.read == map[] ensures LocksSound(Unlock(locks, t), txs[t := tx]) {
      assert forall u :: u in txs && u != t ==> txs[t := tx][u] == txs[u];
    }
  }

  lemma LocksAfterDrop(locks: map<ProductId, TxId>, txs: map<TxId, Tx>, t: TxId)
    requires LocksSound(locks, txs) && t in txs && txs[t].read == map[]
    ensures LocksSound(locks, txs - {t})
  {}

  lemma LocksAfterLock(locks: map<ProductId, TxId>, txs: map<TxId, Tx>, t: TxId, p: ProductId, tx: Tx)
    requires LocksSound(locks, txs) && t in txs && p !in locks && tx.read.Keys == txs[t].read.Keys + {p}
    ensures LocksSound(locks[p := t], txs[t := tx])
  {}

  lemma LocksAfterStep(locks: map<ProductId, TxId>, txs: map<TxId, Tx>, t: TxId, tx: Tx)
    requires LocksSound(locks, txs)
    requires if t in txs then tx.read.Keys == txs[t].read.Keys else tx.read == map[]
    ensures LocksSound(locks, txs[t := tx])
  {}

  // ---- every step -----------------------------------------------------------------------------

  /** Payment steps leave the shop alone, except that an empty order could be deleted. */
  lemma PaymentStepsKeepShop(s: State, l: Label)
    requires Enabled(s, l) && !CreateLabel(l)
    ensures Next(s, l).products == s.products && Next(s, l).locks == s.locks && Next(s, l).txs == s.txs
    ensures Next(s, l).outbox == s.outbox
    ensures !l.DeleteOrder? ==> Next(s, l).orders == s.orders
  {}

  lemma TxStepEffect(s: State, l: Label)
    requires Enabled(s, l) && CreateLabel(l) && !l.Commit?
    ensures Next(s, l).products == s.products && Next(s, l).orders == s.orders
    ensures Next(s, l).outbox == s.outbox
    ensures l.ReturnExisting? || l.Close? || l.SendAuthorize? ==> Next(s, l).txs == s.txs - {l.tx}
    ensures !(l.ReturnExisting? || l.Close? || l.SendAuthorize?) ==>
      l.tx in Next(s, l).txs && Next(s, l).txs == s.txs[l.tx := Next(s, l).txs[l.tx]]
    ensures Next(s, l).locks == if l.Close? then Unlock(s.locks, l.tx)
                                else if l.LockProduct? then s.locks[l.product := l.tx] else s.locks
  {}

  lemma LocksStaySound(s: State, l: Label)
    requires LocksSound(s.locks, s.txs) && Enabled(s, l) && CreateLabel(l) && !l.Commit?
    requires l.tx in s.txs ==> TxSound(s.products, s.txs[l.tx])
    ensures LocksSound(Next(s, l).locks, Next(s, l).txs)
  {
    TxStepEffect(s, l);
    if l.Close? {
      LocksAfterUnlock(s.locks, s.txs, l.tx);
    } else if l.ReturnExisting? || l.SendAuthorize? {
      LocksAfterDrop(s.locks, s.txs, l.tx);
    } else if l.LockProduct? {
      LocksAfterLock(s.locks, s.txs, l.tx, l.product, Next(s, l).txs[l.tx]);
    } else {
      if !l.Begin? {
        OwnStepKeepsRead(s, l);
      }
      LocksAfterStep(s.locks, s.txs, l.tx, Next(s, l).txs[l.tx]);
    }
  }

  lemma TxStaysSound(s: State, l: Label)
    requires Enabled(s, l) && CreateLabel(l) && !l.Commit? && l.tx in Next(s, l).txs
    requires l.tx in s.txs ==> TxSound(s.products, s.txs[l.tx])
    ensures TxSound(s.products, Next(s, l).txs[l.tx])
  {
    if !l.Begin? && !l.LockProduct? {
      OwnStepKeepsRead(s, l);
      OwnStepSound(s, l);
    }
  }

  lemma CreateStepStaysSound(s: State, l: Label)
    requires Sound(s) && Enabled(s, l) && CreateLabel(l) && !l.Commit?
    ensures Sound(Next(s, l))
  {
    var s' := Next(s, l);
    TxStepEffect(s, l);
    LocksStaySound(s, l);
    forall t | t in s'.txs ensures TxSound(s'.products, s'.txs[t]) {
      if t == l.tx {
        TxStaysSound(s, l);
      }
    }
  }

  // ---- commit ---------------------------------------------------------------------------------

  /** A commit writes only rows its own transaction locked, so nobody else's reads go stale. */
  lemma CommitKeepsReads(s: State, t: TxId, u: TxId)
    requires LocksSound(s.locks, s.txs) && t in s.txs && u in s.txs && t != u
    requires TxSound(s.products, s.txs[u]) && (forall p :: p in s.txs[t].writes ==> p in s.txs[t].read)
    ensures TxSound(s.products + s.txs[t].writes, s.txs[u])
  {
    forall p | p in s.txs[u].read ensures p !in s.txs[t].writes {
      assert s.locks[p] == u;
    }
  }

  lemma CommitStaysStocked(s: State, t: TxId)
    requires t in s.txs && s.txs[t].pc.Totalled? && TxSound(s.products, s.txs[t]) && Stocked(s.products)
    ensures Stocked(s.products + s.txs[t].writes)
  {
    var tx := s.txs[t];
    forall p | p in tx.writes ensures tx.writes[p].stock >= 0 {
      var j :| 0 <= j < |tx.dto.items| && tx.dto.items[j].product == p;
    }
  }

  lemma CommitStaysSound(s: State, t: TxId)
    requires Sound(s) && Enabled(s, Commit(t))
    ensures Sound(Next(s, Commit(t)))
  {
    var s' := Next(s, Commit(t));
    CommitMoves(s, t);
    LocksAfterUnlock(s.locks, s.txs, t);
    CommitStaysStocked(s, t);
    forall u | u in s'.txs ensures TxSound(s'.products, s'.txs[u]) {
      if u != t {
        CommitKeepsReads(s, t, u);
      }
    }
    CommittedOrderHasItems(s, t);
  }

  lemma CommitMoves(s: State, t: TxId)
    requires Enabled(s, Commit(t)) && TxSound(s.products, s.txs[t])
    ensures var s' := Next(s, Commit(t));
      && s'.products == s.products + s.txs[t].writes && s'.locks == Unlock(s.locks, t)
      && t in s'.txs && s'.txs == s.txs[t := s'.txs[t]] && s'.txs[t].read == map[]
      && TxSound(s'.products, s'.txs[t])
    ensures s.txs[t].pc.Totalled? && forall p :: p in s.txs[t].writes ==> p in s.txs[t].read
  {}

  lemma CommittedOrderHasItems(s: State, t: TxId)
    requires Enabled(s, Commit(t)) && WellFormed(s.txs[t].dto)
    requires forall o :: o in s.orders ==> s.orders[o].items != []
    ensures forall o :: o in Next(s, Commit(t)).orders ==> Next(s, Commit(t)).orders[o].items != []
  {
    assert Priced(s.txs[t].dto.items, s.txs[t].read) != [];
  }

  lemma StaysSound(s: State, l: Label)
    requires Sound(s) && Enabled(s, l)
    ensures Sound(Next(s, l))
  {
    if l.Commit? {
      CommitStaysSound(s, l.tx);
    } else if CreateLabel(l) {
      CreateStepStaysSound(s, l);
    } else {
      PaymentStepsKeepShop(s, l);
    }
  }

  lemma {:induction false} RunsAreSound(products: map<ProductId, Product>, ls: seq<Label>)
    requires Stocked(products) && ExecFrom(Initially(products), ls).Some?
    ensures Sound(ExecFrom(Initially(products), ls).value)
  {
    if ls != [] {
      RunsAreSound(products, ls[..|ls| - 1]);
      StaysSound(ExecFrom(Initially(products), ls[..|ls| - 1]).value, ls[|ls| - 1]);
    }
  }

  // ---- the theorems ---------------------------------------------------------------------------

  /** Once the check loop has passed under the row locks, no guarded decrement of the transaction misses. */
  lemma DecrementNeverMisses(products: map<ProductId, Product>, ls: seq<Label>, t: TxId)
    requires Stocked(products) && ExecFrom(Initially(products), ls).Some?
    ensures !Enabled(ExecFrom(Initially(products), ls).value, DecrementMisses(t))
  {
    var s := ExecFrom(Initially(products), ls).value;
    RunsAreSound(products, ls);
    if AtDecrement(s, t) {
      assert TxSound(s.products, s.txs[t]);
      GuardAlwaysHolds(s, t);
    }
  }

  /** How much of a product an order took. */
  function Taken(items: seq<OrderItem>, p: ProductId): nat {
    if items == [] then 0 else
    var last := items[|items| - 1];
    Taken(items[..|items| - 1], p) + if last.product == p then last.quantity else 0
  }

  ghost function SoldTotal(orders: map<OrderId, Order>, p: ProductId): nat {
    Total(TakenBy(orders, p))
  }

  ghost function TakenBy(orders: map<OrderId, Order>, p: ProductId): map<OrderId, nat> {
    map o | o in orders :: Taken(orders[o].items, p)
  }

  /** Of each product, what is left and what committed orders took is what there was. */
  ghost predicate Conserved(initial: map<ProductId, Product>, products: map<ProductId, Product>,
                            orders: map<OrderId, Order>)
  {
    && products.Keys == initial.Keys
    && forall p :: p in initial ==>
         products[p].price == initial[p].price
         && products[p].stock + SoldTotal(orders, p) == initial[p].stock
  }

  lemma {:induction false} TakenNothing(items: seq<Item>, read: map<ProductId, Product>, p: ProductId)
    requires forall i :: 0 <= i < |items| ==> items[i].product in read && items[i].product != p
    ensures Taken(Priced(items, read), p) == 0
  {
    if items != [] {
      TakenNothing(items[..|items| - 1], read, p);
      assert Priced(items, read)[..|items| - 1] == Priced(items[..|items| - 1], read);
    }
  }

  lemma {:induction false} TakenOnce(items: seq<Item>, read: map<ProductId, Product>, j: nat)
    requires forall i :: 0 <= i < |items| ==> items[i].product in read
    requires forall i, k :: 0 <= i < k < |items| ==> items[i].product != items[k].product
    requires j < |items|
    ensures Taken(Priced(items, read), items[j].product) == items[j].quantity
  {
    var front := items[..|items| - 1];
    assert Priced(items, read)[..|items| - 1] == Priced(front, read);
    if j < |front| {
      TakenOnce(front, read, j);
    } else {
      TakenNothing(front, read, items[j].product);
    }
  }

  /** A commit takes from each row exactly what its order's items say. */
  lemma CommitTakes(s: State, t: TxId, p: ProductId)
    requires t in s.txs && s.txs[t].pc.Totalled? && TxSound(s.products, s.txs[t]) && p in s.products
    ensures (s.products + s.txs[t].writes)[p].price == s.products[p].price
    ensures (s.products + s.txs[t].writes)[p].stock + Taken(Priced(s.txs[t].dto.items, s.txs[t].read), p)
         == s.products[p].stock
  {
    var tx := s.txs[t];
    if p in tx.writes {
      var j :| 0 <= j < |tx.dto.items| && tx.dto.items[j].product == p;
      TakenOnce(tx.dto.items, tx.read, j);
    } else {
      TakenNothing(tx.dto.items, tx.read, p);
    }
  }

  lemma SoldTotalGrows(orders: map<OrderId, Order>, o: OrderId, order: Order, p: ProductId)
    requires o !in orders
    ensures SoldTotal(orders[o := order], p) == SoldTotal(orders, p) + Taken(order.items, p)
  {
    assert TakenBy(orders[o := order], p) == TakenBy(orders, p)[o := Taken(order.items, p)];
    TotalUpdate(TakenBy(orders, p), o, Taken(order.items, p));
  }

  lemma ConservedAfterSale(initial: map<ProductId, Product>, products: map<ProductId, Product>,
                           orders: map<OrderId, Order>, sold: map<ProductId, Product>,
                           o: OrderId, order: Order)
    requires Conserved(initial, products, orders) && o !in orders && sold.Keys == products.Keys
    requires forall p :: p in products ==>
               sold[p].price == products[p].price
               && sold[p].stock + Taken(order.items, p) == products[p].stock
    ensures Conserved(initial, sold, orders[o := order])
  {
    forall p | p in initial
      ensures sold[p].price == initial[p].price
      ensures sold[p].stock + SoldTotal(orders[o := order], p) == initial[p].stock
    {
      SoldTotalGrows(orders, o, order, p);
    }
  }

  lemma CommitConserves(initial: map<ProductId, Product>, s: State, t: TxId)
    requires Conserved(initial, s.products, s.orders)
    requires Enabled(s, Commit(t)) && s.txs[t].pc.order !in s.orders && TxSound(s.products, s.txs[t])
    ensures Conserved(initial, Next(s, Commit(t)).products, Next(s, Commit(t)).orders)
  {
    var s', tx := Next(s, Commit(t)), s.txs[t];
    assert s'.products.Keys == s.products.Keys by {
      assert forall p :: p in tx.writes ==> p in tx.read;
    }
    forall p | p in s.products
      ensures s'.products[p].price == s.products[p].price
      ensures s'.products[p].stock + Taken(s'.orders[tx.pc.order].items, p) == s.products[p].stock
    {
      CommitTakes(s, t, p);
    }
    ConservedAfterSale(initial, s.products, s.orders, s'.products, tx.pc.order, s'.orders[tx.pc.order]);
  }
}
