/** One order per user and key, with the total and the outbox rows it was created with. */
module CheckoutUnique {
  import opened Wrappers
  import opened CheckoutModel
  import opened CheckoutStock

  /** Of the transactions that have inserted an order, no two share its id or its (user, key). */
  ghost predicate InsertsDistinct(txs: map<TxId, Tx>) {
    forall t, u :: t in txs && u in txs && t != u && Inserted(txs[t]) && Inserted(txs[u]) ==>
      && txs[t].pc.order != txs[u].pc.order
      && (txs[t].dto.user != txs[u].dto.user || txs[t].dto.key != txs[u].dto.key)
  }

  predicate SameKey(dto: CreateOrder, order: Order) {
    order.user == dto.user && order.key == dto.key
  }

  /** Nor does any of them share those with a committed order. */
  ghost predicate InsertsNew(orders: map<OrderId, Order>, txs: map<TxId, Tx>) {
    forall t, o :: t in txs && Inserted(txs[t]) && o in orders ==>
      txs[t].pc.order != o && !SameKey(txs[t].dto, orders[o])
  }

  ghost predicate OrdersUnique(orders: map<OrderId, Order>) {
    forall o, p :: (o in orders && p in orders && orders[o].user == orders[p].user
                    && orders[o].key == orders[p].key) ==> o == p
  }

  /** Exactly one event of each kind for every order, and none for anything else. */
  ghost predicate OutboxSound(orders: map<OrderId, Order>, outbox: multiset<OutboxRow>) {
    forall row: OutboxRow :: outbox[row] == if row.order in orders then 1 else 0
  }

  ghost predicate TotalsSound(orders: map<OrderId, Order>) {
    forall o :: o in orders ==> orders[o].total == Subtotal(orders[o].items)
  }

  ghost predicate UniqueSound(s: State) {
    && InsertsDistinct(s.txs) && InsertsNew(s.orders, s.txs)
    && OrdersUnique(s.orders) && OutboxSound(s.orders, s.outbox) && TotalsSound(s.orders)
  }

  // ---- uncommitted orders ---------------------------------------------------------------------

  lemma InsertsAfterDrop(orders: map<OrderId, Order>, txs: map<TxId, Tx>, t: TxId)
    requires InsertsDistinct(txs) && InsertsNew(orders, txs)
    ensures InsertsDistinct(txs - {t}) && InsertsNew(orders, txs - {t})
  {}

  lemma InsertsAfterStep(orders: map<OrderId, Order>, txs: map<TxId, Tx>, t: TxId, tx: Tx)
    requires InsertsDistinct(txs) && InsertsNew(orders, txs)
    requires Inserted(tx) ==>
               t in txs && Inserted(txs[t]) && tx.dto == txs[t].dto && tx.pc.order == txs[t].pc.order
    ensures InsertsDistinct(txs[t := tx]) && InsertsNew(orders, txs[t := tx])
  {}

  lemma InsertsAfterInsert(s: State, t: TxId, o: OrderId)
    requires InsertsDistinct(s.txs) && InsertsNew(s.orders, s.txs) && Enabled(s, InsertOrder(t, o))
    ensures InsertsDistinct(SetTx(s, t, Decrementing(o, 0)).txs)
    ensures InsertsNew(s.orders, SetTx(s, t, Decrementing(o, 0)).txs)
  {
    var txs' := SetTx(s, t, Decrementing(o, 0)).txs;
    forall u | u in s.txs && u != t && Inserted(s.txs[u])
      ensures s.txs[u].pc.order != o
      ensures s.txs[u].dto.user != s.txs[t].dto.user || s.txs[u].dto.key != s.txs[t].dto.key
    {}
    forall p | p in s.orders ensures p != o && !SameKey(txs'[t].dto, s.orders[p]) {
      assert !OrderFor(s, s.txs[t].dto, p);
    }
  }

  /** Past its insert a transaction keeps its order id and its request. */
  lemma InsertedStep(s: State, l: Label)
    requires Enabled(s, l) && CreateLabel(l) && !l.Commit? && !l.InsertOrder? && l.tx in Next(s, l).txs
    ensures Inserted(Next(s, l).txs[l.tx]) ==>
      && l.tx in s.txs && Inserted(s.txs[l.tx]) && Next(s, l).txs[l.tx].dto == s.txs[l.tx].dto
      && Next(s, l).txs[l.tx].pc.order == s.txs[l.tx].pc.order
  {}

  lemma InsertsStayDistinct(s: State, l: Label)
    requires InsertsDistinct(s.txs) && InsertsNew(s.orders, s.txs)
    requires Enabled(s, l) && CreateLabel(l) && !l.Commit?
    ensures InsertsDistinct(Next(s, l).txs) && InsertsNew(Next(s, l).orders, Next(s, l).txs)
  {
    TxStepEffect(s, l);
    if l.InsertOrder? {
      InsertsAfterInsert(s, l.tx, l.order);
    } else if l.ReturnExisting? || l.Close? || l.SendAuthorize? {
      InsertsAfterDrop(s.orders, s.txs, l.tx);
    } else {
      InsertedStep(s, l);
      InsertsAfterStep(s.orders, s.txs, l.tx, Next(s, l).txs[l.tx]);
    }
  }

  // ---- commit ---------------------------------------------------------------------------------

  lemma CommitEffect(s: State, t: TxId)
    requires Enabled(s, Commit(t))
    ensures var s', tx := Next(s, Commit(t)), s.txs[t];
            && s'.orders == s.orders[tx.pc.order :=
                 Order(tx.dto.user, tx.dto.key, Priced(tx.dto.items, tx.read), tx.pc.total)]
            && s'.outbox == s.outbox + multiset{OutboxRow(tx.pc.order, ProcessRequested),
                                                OutboxRow(tx.pc.order, OrderPlaced)}
            && t in s'.txs && s'.txs == s.txs[t := s'.txs[t]] && !Inserted(s'.txs[t])
  {}

  lemma OrdersAfterCommit(orders: map<OrderId, Order>, txs: map<TxId, Tx>, t: TxId, order: Order)
    requires InsertsDistinct(txs) && InsertsNew(orders, txs) && OrdersUnique(orders)
    requires t in txs && Inserted(txs[t]) && SameKey(txs[t].dto, order)
    ensures OrdersUnique(orders[txs[t].pc.order := order])
    ensures InsertsNew(orders[txs[t].pc.order := order], txs - {t})
  {
    forall o | o in orders ensures orders[o].user != order.user || orders[o].key != order.key {
      assert !SameKey(txs[t].dto, orders[o]);
    }
  }

  lemma OutboxAfterCommit(orders: map<OrderId, Order>, outbox: multiset<OutboxRow>, o: OrderId, order: Order)
    requires OutboxSound(orders, outbox) && o !in orders
    ensures OutboxSound(orders[o := order],
                        outbox + multiset{OutboxRow(o, ProcessRequested), OutboxRow(o, OrderPlaced)})
  {
    var after := outbox + multiset{OutboxRow(o, ProcessRequested), OutboxRow(o, OrderPlaced)};
    forall row: OutboxRow ensures after[row] == if row.order in orders[o := order] then 1 else 0 {
      assert row.kind == ProcessRequested || row.kind == OrderPlaced;
    }
  }

  lemma CommitStaysUnique(s: State, t: TxId)
    requires UniqueSound(s) && Enabled(s, Commit(t)) && TxSound(s.products, s.txs[t])
    ensures UniqueSound(Next(s, Commit(t)))
    ensures s.txs[t].pc.order !in s.orders
  {
    var s', tx := Next(s, Commit(t)), s.txs[t];
    CommitEffect(s, t);
    assert tx.pc.order !in s.orders;
    var order := s'.orders[tx.pc.order];
    OrdersAfterCommit(s.orders, s.txs, t, order);
    InsertsAfterStep(s'.orders, s.txs - {t}, t, s'.txs[t]);
    assert (s.txs - {t})[t := s'.txs[t]] == s'.txs;
    OutboxAfterCommit(s.orders, s.outbox, tx.pc.order, order);
    assert order.total == Subtotal(order.items);
  }

  // ---- every step and every run ---------------------------------------------------------------

  lemma StaysUnique(s: State, l: Label)
    requires UniqueSound(s) && Sound(s) && Enabled(s, l)
    ensures UniqueSound(Next(s, l))
  {
    if l.Commit? {
      CommitStaysUnique(s, l.tx);
    } else if CreateLabel(l) {
      TxStepEffect(s, l);
      InsertsStayDistinct(s, l);
    } else {
      PaymentStepsKeepShop(s, l);
    }
  }

  lemma {:induction false} RunsAreUnique(products: map<ProductId, Product>, ls: seq<Label>)
    requires Stocked(products) && ExecFrom(Initially(products), ls).Some?
    ensures UniqueSound(ExecFrom(Initially(products), ls).value)
  {
    if ls != [] {
      RunsAreUnique(products, ls[..|ls| - 1]);
      RunsAreSound(products, ls[..|ls| - 1]);
      StaysUnique(ExecFrom(Initially(products), ls[..|ls| - 1]).value, ls[|ls| - 1]);
    }
  }

  lemma ConservedStep(initial: map<ProductId, Product>, s: State, l: Label)
    requires UniqueSound(s) && Sound(s) && Enabled(s, l) && Conserved(initial, s.products, s.orders)
    ensures Conserved(initial, Next(s, l).products, Next(s, l).orders)
  {
    if l.Commit? {
      CommitStaysUnique(s, l.tx);
      CommitConserves(initial, s, l.tx);
    } else if CreateLabel(l) {
      TxStepEffect(s, l);
    } else {
      PaymentStepsKeepShop(s, l);
    }
  }

  // ---- the theorems ---------------------------------------------------------------------------

  /** In every reachable state a product's stock is what committed orders have left of it, and not negative. */
  lemma {:induction false} StockConserved(products: map<ProductId, Product>, ls: seq<Label>)
    requires Stocked(products) && ExecFrom(Initially(products), ls).Some?
    ensures var s := ExecFrom(Initially(products), ls).value;
            Conserved(products, s.products, s.orders) && Stocked(s.products)
  {
    RunsAreSound(products, ls);
    if ls == [] {
      NothingSold(products);
    } else {
      StockConserved(products, ls[..|ls| - 1]);
      RunsAreSound(products, ls[..|ls| - 1]);
      RunsAreUnique(products, ls[..|ls| - 1]);
      ConservedStep(products, ExecFrom(Initially(products), ls[..|ls| - 1]).value, ls[|ls| - 1]);
    }
  }

  lemma NothingSold(products: map<ProductId, Product>)
    ensures Conserved(products, products, map[])
  {
    assert forall p :: TakenBy(map[], p) == map[];
  }

  /** At most one order per user and key; each with its own total and exactly one event of each kind. */
  lemma OneOrderPerKey(products: map<ProductId, Product>, ls: seq<Label>, o: OrderId, p: OrderId)
    requires Stocked(products) && ExecFrom(Initially(products), ls).Some?
    ensures var s := ExecFrom(Initially(products), ls).value;
            && (o in s.orders ==>
                  && s.orders[o].total == Subtotal(s.orders[o].items)
                  && s.outbox[OutboxRow(o, ProcessRequested)] == 1
                  && s.outbox[OutboxRow(o, OrderPlaced)] == 1)
            && (o in s.orders && p in s.orders && o != p ==>
                  s.orders[o].user != s.orders[p].user || s.orders[o].key != s.orders[p].key)
  {
    RunsAreUnique(products, ls);
  }
}
