/** What an order costs, over the request and the product table, and that it is what is authorized. */
module CheckoutTotals {
  import opened Wrappers
  import opened CheckoutModel
  import opened CheckoutStock
  import opened CheckoutUnique
  import opened CheckoutPayments

  /** The running sum: nothing for no items, and for each item its product's price as often as it is ordered. */
  predicate Sums(items: seq<Item>, products: map<ProductId, Product>, sums: seq<nat>) {
    && |sums| == |items| + 1 && sums[0] == 0
    && forall i :: 0 <= i < |items| ==>
         items[i].product in products && sums[i + 1] == sums[i] + products[items[i].product].price * items[i].quantity
  }

  /** Item by item the request's own, at the table's prices. */
  predicate ItemsOf(items: seq<OrderItem>, request: seq<Item>, products: map<ProductId, Product>) {
    && |items| == |request|
    && forall i :: 0 <= i < |request| ==>
         && request[i].product in products
         && items[i] == OrderItem(request[i].product, request[i].quantity, products[request[i].product].price)
  }

  /** The order is what the request asked for, for the sum of its items. */
  ghost predicate BilledTo(order: Order, dto: CreateOrder, products: map<ProductId, Product>) {
    && order.user == dto.user && order.key == dto.key && ItemsOf(order.items, dto.items, products)
    && exists sums :: Sums(dto.items, products, sums) && order.total == sums[|dto.items|]
  }

  /** Two tables agree on the prices of these products. */
  predicate SamePrices(items: seq<Item>, read: map<ProductId, Product>, products: map<ProductId, Product>) {
    forall i :: 0 <= i < |items| ==>
      && items[i].product in read && items[i].product in products
      && read[items[i].product].price == products[items[i].product].price
  }

  lemma {:induction false} PricedInFull(items: seq<Item>, read: map<ProductId, Product>, products: map<ProductId, Product>)
    requires SamePrices(items, read, products)
    ensures ItemsOf(Priced(items, read), items, products)
  {
    if items != [] {
      PricedInFull(items[..|items| - 1], read, products);
    }
  }

  lemma SumsGrow(items: seq<Item>, products: map<ProductId, Product>, before: seq<nat>)
    returns (sums: seq<nat>)
    requires items != [] && Sums(items[..|items| - 1], products, before) && items[|items| - 1].product in products
    ensures Sums(items, products, sums)
    ensures var last := items[|items| - 1];
      sums[|items|] == before[|items| - 1] + products[last.product].price * last.quantity
  {
    var last := items[|items| - 1];
    sums := before + [before[|items| - 1] + products[last.product].price * last.quantity];
    assert forall i :: 0 <= i < |items| - 1 ==> items[i] == items[..|items| - 1][i];
  }

  lemma SubtotalGrows(items: seq<Item>, read: map<ProductId, Product>)
    requires items != [] && forall i :: 0 <= i < |items| ==> items[i].product in read
    ensures var last := items[|items| - 1];
      Subtotal(Priced(items, read))
      == Subtotal(Priced(items[..|items| - 1], read)) + read[last.product].price * last.quantity
  {
    var priced := Priced(items, read);
    assert priced[..|priced| - 1] == Priced(items[..|items| - 1], read);
  }

  lemma {:induction false} TotalInFull(items: seq<Item>, read: map<ProductId, Product>, products: map<ProductId, Product>)
    returns (sums: seq<nat>)
    requires SamePrices(items, read, products)
    ensures Sums(items, products, sums) && Subtotal(Priced(items, read)) == sums[|items|]
  {
    if items == [] {
      sums := [0];
    } else {
      var front, last := items[..|items| - 1], items[|items| - 1];
      var before := TotalInFull(front, read, products);
      sums := SumsGrow(items, products, before);
      SubtotalGrows(items, read);
      assert read[last.product].price == products[last.product].price;
    }
  }

  lemma PricedIsBilled(dto: CreateOrder, read: map<ProductId, Product>, products: map<ProductId, Product>)
    requires SamePrices(dto.items, read, products)
    ensures BilledTo(Order(dto.user, dto.key, Priced(dto.items, read), Subtotal(Priced(dto.items, read))), dto, products)
  {
    PricedInFull(dto.items, read, products);
    var sums := TotalInFull(dto.items, read, products);
  }

  /** In any run a commit adds one order: its request's items at the table's prices, for their sum. */
  lemma CommitBills(products: map<ProductId, Product>, ls: seq<Label>, t: TxId)
    requires Stocked(products) && ExecFrom(Initially(products), ls).Some?
    requires Enabled(ExecFrom(Initially(products), ls).value, Commit(t))
    ensures var s, s' := ExecFrom(Initially(products), ls).value, Next(ExecFrom(Initially(products), ls).value, Commit(t));
      var o := s.txs[t].pc.order;
      && o !in s.orders && o in s'.orders && s'.orders == s.orders[o := s'.orders[o]]
      && BilledTo(s'.orders[o], s.txs[t].dto, products)
  {
    var s := ExecFrom(Initially(products), ls).value;
    var tx := s.txs[t];
    StockConserved(products, ls);
    RunsAreSound(products, ls);
    RunsAreUnique(products, ls);
    CommitStaysUnique(s, t);
    CommitEffect(s, t);
    assert TxSound(s.products, tx);
    PricesRead(products, s.products, tx);
    PricedIsBilled(tx.dto, tx.read, products);
  }

  lemma PricesRead(initial: map<ProductId, Product>, products: map<ProductId, Product>, tx: Tx)
    requires ReadsCurrent(products, tx) && Sufficient(tx) && products.Keys == initial.Keys
    requires forall p :: p in initial ==> products[p].price == initial[p].price
    ensures SamePrices(tx.dto.items, tx.read, initial)
  {
    forall i | 0 <= i < |tx.dto.items|
      ensures tx.dto.items[i].product in tx.read && tx.dto.items[i].product in initial
      ensures tx.read[tx.dto.items[i].product].price == initial[tx.dto.items[i].product].price
    {
      assert tx.dto.items[i].product in tx.read;
    }
  }

  ghost predicate Billed(orders: map<OrderId, Order>, products: map<ProductId, Product>) {
    forall o :: o in orders ==> exists dto :: WellFormed(dto) && BilledTo(orders[o], dto, products)
  }

  /** In any run every order is some request's in that way, and every authorize request asks for its order's total. */
  lemma {:induction false} EveryOrderIsBilled(products: map<ProductId, Product>, ls: seq<Label>)
    requires Stocked(products) && ExecFrom(Initially(products), ls).Some?
    ensures var s := ExecFrom(Initially(products), ls).value;
      && Billed(s.orders, products)
      && forall r :: r in s.requests ==>
           && s.requests[r].order in s.orders && s.requests[r].amount == s.orders[s.requests[r].order].total
           && s.requests[r].key == s.orders[s.requests[r].order].key
  {
    if ls != [] {
      var front, l := ls[..|ls| - 1], ls[|ls| - 1];
      EveryOrderIsBilled(products, front);
      StepBills(products, front, l);
    }
    MoneyRuns(products, ls);
  }

  lemma StepBills(products: map<ProductId, Product>, ls: seq<Label>, l: Label)
    requires Stocked(products) && ExecFrom(Initially(products), ls).Some?
    requires Enabled(ExecFrom(Initially(products), ls).value, l)
    requires Billed(ExecFrom(Initially(products), ls).value.orders, products)
    ensures Billed(Next(ExecFrom(Initially(products), ls).value, l).orders, products)
  {
    var s := ExecFrom(Initially(products), ls).value;
    if l.Commit? {
      CommitBills(products, ls, l.tx);
      RunsAreSound(products, ls);
      assert TxSound(s.products, s.txs[l.tx]) && WellFormed(s.txs[l.tx].dto);
    } else if CreateLabel(l) {
      TxStepEffect(s, l);
    } else {
      PaymentStepsKeepShop(s, l);
    }
  }
}
