/** What `create` tells its callers in any run, and what becomes of the loser of a race for a key. */
module CheckoutAnswers {
  import opened Wrappers
  import opened CheckoutModel
  import opened CheckoutStock
  import opened CheckoutUnique
  import opened CheckoutPayments
  import opened OrderCreation

  // ---- the catch block ------------------------------------------------------------------------

  /** The branch for a unique violation is never taken: such an error has a code and leaves before it. */
  lemma NeverAtUniqueViolation(e: Error, existing: Option<OrderId>)
    ensures BranchOf(e) != AtUniqueViolation
    ensures Catch(e, existing) == match e
      case TimeoutError => PaymentTimeout
      case Coded(_) => PaymentUnavailable
      case Uncoded(refusal) => refusal
  {}

  /** Some error ends in this answer. */
  ghost predicate Caught(a: Outcome) {
    exists e, existing :: a == Catch(e, existing)
  }

  // ---- answers --------------------------------------------------------------------------------

  /** The step ends the request of `t`, and this is a possible answer. */
  ghost predicate MayAnswer(s: State, l: Label, t: TxId, a: Outcome) {
    && Enabled(s, l) && CreateLabel(l) && l.tx == t && t in s.txs
    && var tx := s.txs[t];
      match l
      case ReturnExisting(_, o) => a == Existing(o)
      case KeyConflict(_) => exists existing :: a == Catch(Coded(UNIQUE_VIOLATION), existing)
      case DecrementMisses(_) => a.Conflict?
      case Abort(_) => !tx.pc.Aborted? && Caught(a)
      case SendAuthorize(_, _) => a == Created(tx.pc.order) || Caught(a)
      case Close(_) => tx.pc.Committed? && Caught(a)
      case _ => false
  }

  /** Only an existing order's id or a new one's is an order; neither comes out of the catch block. */
  lemma CaughtIsNoOrder(a: Outcome)
    requires Caught(a)
    ensures !a.Existing? && !a.Created?
  {
    var e, existing :| a == Catch(e, existing);
    NeverAtUniqueViolation(e, existing);
  }

  lemma ExistingOnlyAtFind(s: State, l: Label, t: TxId, a: Outcome)
    requires MayAnswer(s, l, t, a)
    ensures a.Existing? <==> l.ReturnExisting?
    ensures a.Existing? ==> s.txs[t].pc.Begun? && a.order in s.orders && OrderFor(s, s.txs[t].dto, a.order)
    ensures a.Created? ==> l.SendAuthorize?
  {
    if l.KeyConflict? {
      NeverAtUniqueViolation(Coded(UNIQUE_VIOLATION), None);
    } else if Caught(a) {
      CaughtIsNoOrder(a);
    }
  }

  // ---- runs and their prefixes ----------------------------------------------------------------

  ghost predicate Runs(start: State, ls: seq<Label>) {
    ExecFrom(start, ls).Some?
  }

  ghost function At(start: State, ls: seq<Label>, n: nat): State
    requires Runs(start, ls) && n <= |ls|
  {
    PrefixRuns(start, ls, n);
    ExecFrom(start, ls[..n]).value
  }

  lemma {:induction false} PrefixRuns(start: State, ls: seq<Label>, n: nat)
    requires Runs(start, ls) && n <= |ls|
    ensures Runs(start, ls[..n])
    decreases |ls|
  {
    if n == |ls| {
      assert ls[..n] == ls;
    } else {
      var front := ls[..|ls| - 1];
      PrefixRuns(start, front, n);
      assert front[..n] == ls[..n];
    }
  }

  lemma StepOf(start: State, ls: seq<Label>, n: nat)
    requires Runs(start, ls) && n < |ls|
    ensures Enabled(At(start, ls, n), ls[n]) && At(start, ls, n + 1) == Next(At(start, ls, n), ls[n])
  {
    PrefixRuns(start, ls, n + 1);
    var upTo := ls[..n + 1];
    assert upTo[..|upTo| - 1] == ls[..n] && upTo[|upTo| - 1] == ls[n];
  }

  /** Between these two points no new transaction is given this number. */
  predicate SameTx(ls: seq<Label>, j: nat, k: nat, t: TxId)
    requires k <= |ls|
  {
    forall i :: j <= i < k ==> !(ls[i].Begin? && ls[i].tx == t)
  }

  // ---- the existing order is the answer exactly when findOne sees it --------------------------

  /** The transaction is over, or past its findOne. */
  predicate PastFind(s: State, t: TxId) {
    t in s.txs ==> !s.txs[t].pc.Begun?
  }

  lemma TxChange(s: State, l: Label, t: TxId)
    requires Enabled(s, l) && !(l.Begin? && l.tx == t) && t in Next(s, l).txs
    ensures t in s.txs && Next(s, l).txs[t].dto == s.txs[t].dto
    ensures Next(s, l).txs[t].pc.Begun? ==> s.txs[t].pc.Begun?
  {
    if !CreateLabel(l) {
      PaymentStepsKeepShop(s, l);
    } else if l.Commit? {
      CommitEffect(s, l.tx);
    } else if l.tx != t {
      TxStepEffect(s, l);
    }
  }

  lemma {:induction false} StaysPastFind(start: State, ls: seq<Label>, j: nat, k: nat, t: TxId)
    requires Runs(start, ls) && j <= k <= |ls| && SameTx(ls, j, k, t) && PastFind(At(start, ls, j), t)
    ensures PastFind(At(start, ls, k), t)
    ensures t !in At(start, ls, j).txs ==> t !in At(start, ls, k).txs
    decreases k
  {
    if j < k {
      StaysPastFind(start, ls, j, k - 1, t);
      StepOf(start, ls, k - 1);
      if t in At(start, ls, k).txs {
        TxChange(At(start, ls, k - 1), ls[k - 1], t);
      }
    }
  }

  lemma AfterFind(s: State, l: Label)
    requires Enabled(s, l) && (l.ReturnExisting? || l.Proceed?)
    ensures l.tx in s.txs && PastFind(Next(s, l), l.tx)
    ensures l.ReturnExisting? <==> l.tx !in Next(s, l).txs
    ensures l.ReturnExisting? <==> HasOrder(s, s.txs[l.tx].dto)
  {}

  /**
     In any run, let step `j` be the findOne of a request and step `k` the one that answers it. The answer is the
     existing order if and only if an order of that user and key was committed when findOne ran.
   */
  lemma ExistingIffFound(start: State, ls: seq<Label>, j: nat, k: nat, t: TxId, a: Outcome)
    requires Runs(start, ls) && j <= k < |ls| && SameTx(ls, j, k, t)
    requires (ls[j].ReturnExisting? || ls[j].Proceed?) && ls[j].tx == t
    requires MayAnswer(At(start, ls, k), ls[k], t, a)
    ensures var s := At(start, ls, j);
      && t in s.txs && (a.Existing? <==> HasOrder(s, s.txs[t].dto))
      && (a.Existing? ==> OrderFor(s, s.txs[t].dto, a.order))
  {
    StepOf(start, ls, j);
    AfterFind(At(start, ls, j), ls[j]);
    ExistingOnlyAtFind(At(start, ls, k), ls[k], t, a);
    if j < k {
      StaysPastFind(start, ls, j + 1, k, t);
    }
  }

  // ---- the loser ------------------------------------------------------------------------------

  /** The transaction has found no order, but by now somebody else's with the same user and key is committed. */
  ghost predicate Losing(s: State, t: TxId) {
    && t in s.txs && (s.txs[t].pc.Locking? || s.txs[t].pc.Checked? || s.txs[t].pc.Aborted?)
    && HasOrder(s, s.txs[t].dto)
  }

  lemma LosingStep(s: State, l: Label)
    requires Enabled(s, l) && CreateLabel(l) && Losing(s, l.tx) && l.tx in Next(s, l).txs
    ensures var pc := Next(s, l).txs[l.tx].pc; pc.Locking? || pc.Checked? || pc.Aborted?
    ensures Next(s, l).txs[l.tx].dto == s.txs[l.tx].dto
  {}

  lemma OthersKeepTx(s: State, l: Label, t: TxId)
    requires Enabled(s, l) && t in s.txs && !(CreateLabel(l) && l.tx == t)
    ensures t in Next(s, l).txs && Next(s, l).txs[t] == s.txs[t]
  {
    if !CreateLabel(l) {
      PaymentStepsKeepShop(s, l);
    } else if l.Commit? {
      CommitEffect(s, l.tx);
    } else {
      TxStepEffect(s, l);
    }
  }

  lemma LosingStays(s: State, l: Label, t: TxId)
    requires UniqueSound(s) && Sound(s) && Enabled(s, l) && Losing(s, t)
    ensures t in Next(s, l).txs ==> Losing(Next(s, l), t)
  {
    var s' := Next(s, l);
    OrdersStay(s, l);
    var o :| o in s.orders && OrderFor(s, s.txs[t].dto, o);
    if CreateLabel(l) && l.tx == t {
      if t in s'.txs {
        LosingStep(s, l);
        assert OrderFor(s', s'.txs[t].dto, o);
      }
    } else {
      OthersKeepTx(s, l, t);
      assert OrderFor(s', s'.txs[t].dto, o);
    }
  }

  ghost predicate LosingOrGone(s: State, t: TxId) {
    t in s.txs ==> Losing(s, t)
  }

  lemma LosingGoesOn(s: State, l: Label, t: TxId)
    requires UniqueSound(s) && Sound(s) && Enabled(s, l) && !(l.Begin? && l.tx == t) && LosingOrGone(s, t)
    ensures LosingOrGone(Next(s, l), t)
  {
    if t in Next(s, l).txs {
      TxChange(s, l, t);
      LosingStays(s, l, t);
    }
  }

  lemma StateIsSound(products: map<ProductId, Product>, ls: seq<Label>, k: nat)
    requires Stocked(products) && Runs(Initially(products), ls) && k <= |ls|
    ensures Sound(At(Initially(products), ls, k)) && UniqueSound(At(Initially(products), ls, k))
  {
    PrefixRuns(Initially(products), ls, k);
    RunsAreSound(products, ls[..k]);
    RunsAreUnique(products, ls[..k]);
  }

  lemma LosingGoesOnAt(products: map<ProductId, Product>, ls: seq<Label>, k: nat, t: TxId)
    requires Stocked(products) && Runs(Initially(products), ls) && k < |ls| && SameTx(ls, k, k + 1, t)
    requires LosingOrGone(At(Initially(products), ls, k), t)
    ensures LosingOrGone(At(Initially(products), ls, k + 1), t)
  {
    var s := At(Initially(products), ls, k);
    StepOf(Initially(products), ls, k);
    assert LosingOrGone(Next(s, ls[k]), t) by {
      StateIsSound(products, ls, k);
      LosingGoesOn(s, ls[k], t);
    }
  }

  lemma {:induction false} StillLosing(products: map<ProductId, Product>, ls: seq<Label>, j: nat, k: nat, t: TxId)
    requires Stocked(products) && Runs(Initially(products), ls) && j <= k <= |ls| && SameTx(ls, j, k, t)
    requires LosingOrGone(At(Initially(products), ls, j), t)
    ensures LosingOrGone(At(Initially(products), ls, k), t)
    decreases k
  {
    if j < k {
      StillLosing(products, ls, j, k - 1, t);
      LosingGoesOnAt(products, ls, k - 1, t);
    }
  }

  /**
     In any run, a request that has lost the race is answered with no order, neither the one that won nor one of its
     own: its insert stays impossible, and meeting the key makes the payment service unavailable to it.
   */
  lemma LoserGetsNoOrder(products: map<ProductId, Product>, ls: seq<Label>, j: nat, k: nat, t: TxId, a: Outcome)
    requires Stocked(products) && Runs(Initially(products), ls) && j <= k < |ls| && SameTx(ls, j, k, t)
    requires Losing(At(Initially(products), ls, j), t)
    requires MayAnswer(At(Initially(products), ls, k), ls[k], t, a)
    ensures !a.Existing? && !a.Created?
    ensures forall o :: !Enabled(At(Initially(products), ls, k), InsertOrder(t, o))
    ensures ls[k].KeyConflict? ==> a == PaymentUnavailable
  {
    var s := At(Initially(products), ls, k);
    StillLosing(products, ls, j, k, t);
    ExistingOnlyAtFind(s, ls[k], t, a);
    var p :| p in s.orders && OrderFor(s, s.txs[t].dto, p);
    assert !KeyUnused(s, s.txs[t].dto);
    if ls[k].KeyConflict? {
      NeverAtUniqueViolation(Coded(UNIQUE_VIOLATION), None);
    }
  }

  // ---- it happens -----------------------------------------------------------------------------

  lemma {:induction false} ExecJoin(s: State, a: seq<Label>, b: seq<Label>)
    requires ExecFrom(s, a).Some?
    ensures ExecFrom(s, a + b) == ExecFrom(ExecFrom(s, a).value, b)
  {
    if b == [] {
      assert a + b == a;
    } else {
      ExecJoin(s, a, b[..|b| - 1]);
      assert (a + b)[..|a + b| - 1] == a + b[..|b| - 1];
    }
  }

  lemma ReachesThrough(a: State, b: State, c: State)
    requires Reaches(a, b) && Reaches(b, c)
    ensures Reaches(a, c)
  {
    var ls :| ExecFrom(a, ls) == Some(b);
    var ms :| ExecFrom(b, ms) == Some(c);
    ExecJoin(a, ls, ms);
  }

  /** The request past its findOne, with nothing locked yet. */
  function Waiting(s: State, u: TxId, dto: CreateOrder): State {
    During(s, u, Tx(dto, Locking, map[], map[]))
  }

  /** Such a request is in nobody's way. */
  lemma ReadyBeside(s: State, t: TxId, u: TxId, first: CreateOrder, second: CreateOrder, o: OrderId)
    requires Ready(s, t, first) && FreshTx(s, u) && t != u && !HasOrder(s, first) && FreshOrder(s, o)
    ensures Ready(Waiting(s, u, second), t, first)
    ensures !HasOrder(Waiting(s, u, second), first) && FreshOrder(Waiting(s, u, second), o)
  {
    var w := Waiting(s, u, second);
    assert w.locks == s.locks;
    assert forall p :: OrderFor(w, first, p) <==> OrderFor(s, first, p);
  }

  /** What the winner leaves is the same with the loser beside it. */
  lemma WinnerBeside(s: State, u: TxId, first: CreateOrder, second: CreateOrder, o: OrderId, r: RequestId)
    requires AllFound(s.products, first.items)
    ensures AfterCreate(Waiting(s, u, second), first, o, r) == Waiting(AfterCreate(s, first, o, r), u, second)
  {}

  /** A request from its begin, through findOne, to before its locks, and another one's whole run from there. */
  lemma WinnerReached(s: State, t: TxId, u: TxId, first: CreateOrder, second: CreateOrder, o: OrderId, r: RequestId)
    requires Ready(s, t, first) && Ready(s, u, second) && t != u && first.user == second.user && first.key == second.key
    requires !HasOrder(s, first) && FreshOrder(s, o) && r !in s.requests
    requires AllFound(s.products, first.items) && AllEnough(s.products, first.items)
    ensures Reaches(s, Waiting(AfterCreate(s, first, o, r), u, second))
  {
    var w := Waiting(s, u, second);
    assert !HasOrder(s, second) by {
      assert forall p :: OrderFor(s, second, p) <==> OrderFor(s, first, p);
    }
    BeginReached(s, u, second);
    ReadyBeside(s, t, u, first, second, o);
    BeginReached(w, t, first);
    AcceptedReached(w, t, first, o, r);
    WinnerBeside(s, u, first, second, o, r);
    ReachesThrough(s, w, AfterCreate(w, first, o, r));
  }

  lemma ReadyAfter(s: State, u: TxId, first: CreateOrder, second: CreateOrder, o: OrderId, r: RequestId)
    requires Ready(s, u, second) && AllFound(s.products, first.items)
    requires first.user == second.user && first.key == second.key
    ensures var after := AfterCreate(s, first, o, r);
      && Ready(after, u, second) && o in after.orders && OrderFor(after, second, o)
      && after.products == AfterSale(s.products, first.items)
  {}

  lemma ConflictAnswered(s: State, u: TxId, tx: Tx, o: OrderId)
    requires tx.pc.Checked? && o in s.orders && OrderFor(s, tx.dto, o)
    ensures MayAnswer(During(s, u, tx), KeyConflict(u), u, PaymentUnavailable)
  {
    var d := During(s, u, tx);
    assert OrderFor(d, d.txs[u].dto, o);
    NeverAtUniqueViolation(Coded(UNIQUE_VIOLATION), None);
    assert PaymentUnavailable == Catch(Coded(UNIQUE_VIOLATION), None);
  }

  /**
     From any state where two requests of one user and key find what they need: both look for an order and find none,
     the first is accepted, and the second, at its insert, may be told that the payment service is unavailable, with
     the first one's order committed under its own user and key.
   */
  lemma LoserIsToldUnavailable(s: State, t: TxId, u: TxId, first: CreateOrder, second: CreateOrder, o: OrderId, r: RequestId)
    requires Ready(s, t, first) && Ready(s, u, second) && t != u && first.user == second.user && first.key == second.key
    requires !HasOrder(s, first) && FreshOrder(s, o) && r !in s.requests
    requires AllFound(s.products, first.items) && AllEnough(s.products, first.items)
    requires AllEnough(AfterSale(s.products, first.items), second.items)
    ensures exists mid ::
      && Reaches(s, mid) && MayAnswer(mid, KeyConflict(u), u, PaymentUnavailable)
      && mid.txs[u].dto == second && o in mid.orders && mid.orders[o] == NewOrder(s.products, first)
  {
    var after := AfterCreate(s, first, o, r);
    WinnerReached(s, t, u, first, second, o, r);
    ReadyAfter(s, u, first, second, o, r);
    CheckedReached(s, after, u, second);
    var mid := During(after, u, CheckedTx(after, second));
    ConflictAnswered(after, u, CheckedTx(after, second), o);
    OrderAdded(s, first, o, r);
    assert mid.orders == after.orders && mid.txs[u].dto == second;
  }

  const OneItem := CreateOrder(0, 0, [Item(0, 1)])

  /** For example, the same request sent twice, for one of two pieces in stock. */
  lemma DoubleSubmitLoses()
    ensures exists mid ::
      && Reaches(Initially(map[0 := Product(2, 100)]), mid) && MayAnswer(mid, KeyConflict(1), 1, PaymentUnavailable)
      && 0 in mid.orders && OrderFor(mid, mid.txs[1].dto, 0)
  {
    var products := map[0 := Product(2, 100)];
    var s := Initially(products);
    SaleOfOne(products);
    LoserIsToldUnavailable(s, 0, 1, OneItem, OneItem, 0, 0);
  }

  lemma SaleOfOne(products: map<ProductId, Product>)
    requires 0 in products && products[0].stock == 2
    ensures AllFound(products, OneItem.items) && AllEnough(products, OneItem.items)
    ensures AllEnough(AfterSale(products, OneItem.items), OneItem.items)
  {
    TakenOnce(OneItem.items, products, 0);
  }

  // ---- orders that have items are not deleted -------------------------------------------------

  /** The foreign key of the items never has anything to let go: no reachable order is without items. */
  lemma NoOrderIsDeleted(products: map<ProductId, Product>, ls: seq<Label>, o: OrderId)
    requires Stocked(products) && ExecFrom(Initially(products), ls).Some?
    ensures !Enabled(ExecFrom(Initially(products), ls).value, DeleteOrder(o))
  {
    RunsAreSound(products, ls);
  }
}
