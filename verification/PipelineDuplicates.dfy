/** One lost delivery is enough for a message to be parked as dead and processed as well. */
module PipelineDuplicates {
  import opened Wrappers
  import opened FreshIds
  import opened PipelineModel
  import opened PipelineIdentity
  import opened PipelineDelivery
  import opened PipelineTokens
  import opened PipelinePlatform

  // ---- from any state -------------------------------------------------------------------------

  /** The message is not processed, and no open worker transaction holds its key or its order's row. */
  ghost predicate Unclaimed(s: State, m: Message) {
    && m.messageId !in s.processed && m.orderId in s.orders
    && (forall g :: g in s.handlers && HoldsKey(s.handlers[g]) ==> s.handlers[g].message.messageId != m.messageId)
    && RowFree(s, m.orderId)
  }

  predicate CopyIs(s: State, c: CopyId, m: Message, place: Place) {
    c in s.copies && s.copies[c] == Copy(m, place)
  }

  predicate HandlerIs(s: State, h: HandlerId, m: Message, pc: HandlerPc) {
    HandlerAt(s, h, pc) && s.handlers[h].message == m
  }

  /** The broker gives up on a delivery while its worker is in the catch block. */
  lemma AfterRequeue(cfg: Config, s: State, h: HandlerId, c: CopyId, m: Message)
    requires HandlerIs(s, h, m, Caught) && CopyIs(s, c, m, Unacked(h)) && Unclaimed(s, m)
    ensures Enabled(cfg, s, Requeue(c))
    ensures var t := Next(cfg, s, Requeue(c));
      HandlerIs(t, h, m, Caught) && CopyIs(t, c, m, Ready) && Unclaimed(t, m)
  {}

  /** The worker, on its last attempt, goes on to park the message. */
  lemma AfterPark(cfg: Config, s: State, h: HandlerId, c: CopyId, d: CopyId, m: Message)
    requires HandlerIs(s, h, m, Caught) && CopyIs(s, c, m, Ready) && Unclaimed(s, m)
    requires m.attempt >= cfg.maxAttempts && d !in s.copies
    ensures Enabled(cfg, s, PublishDlq(h, d))
    ensures var t := Next(cfg, s, PublishDlq(h, d));
      CopyIs(t, c, m, Ready) && CopyIs(t, d, m, InDlq) && Unclaimed(t, m)
  {}

  /** The requeued copy goes to another worker. */
  lemma AfterDeliver(cfg: Config, s: State, c: CopyId, d: CopyId, g: HandlerId, m: Message)
    requires CopyIs(s, c, m, Ready) && CopyIs(s, d, m, InDlq) && Unclaimed(s, m) && FreshHandler(s, g)
    ensures Enabled(cfg, s, Deliver(c, g))
    ensures var t := Next(cfg, s, Deliver(c, g));
      HandlerIs(t, g, m, Start) && CopyIs(t, d, m, InDlq) && Unclaimed(t, m)
  {}

  lemma AfterInsert(cfg: Config, s: State, d: CopyId, g: HandlerId, m: Message)
    requires HandlerIs(s, g, m, Start) && CopyIs(s, d, m, InDlq) && Unclaimed(s, m)
    ensures Enabled(cfg, s, Insert(g))
    ensures var t := Next(cfg, s, Insert(g));
      HandlerIs(t, g, m, Inserted) && CopyIs(t, d, m, InDlq) && m.orderId in t.orders && RowFree(t, m.orderId)
  {}

  lemma AfterUpdate(cfg: Config, s: State, d: CopyId, g: HandlerId, now: int, m: Message)
    requires HandlerIs(s, g, m, Inserted) && CopyIs(s, d, m, InDlq) && m.orderId in s.orders && RowFree(s, m.orderId)
    requires !m.alwaysFail
    ensures Enabled(cfg, s, Update(g, now))
    ensures var t := Next(cfg, s, Update(g, now));
      CopyIs(t, d, m, InDlq) && g in t.handlers && t.handlers[g].pc.Updated? && t.handlers[g].message == m
  {}

  lemma AfterCommit(cfg: Config, s: State, d: CopyId, g: HandlerId, m: Message)
    requires CopyIs(s, d, m, InDlq) && g in s.handlers && s.handlers[g].pc.Updated? && s.handlers[g].message == m
    ensures Enabled(cfg, s, Commit(g))
    ensures var t := Next(cfg, s, Commit(g)); CopyIs(t, d, m, InDlq) && m.messageId in t.processed
  {}

  ghost predicate DeadAndDone(s: State, m: MessageId) {
    DeadLettered(s, m) && m in s.processed
  }

  lemma WorkerFinishes(cfg: Config, s: State, d: CopyId, g: HandlerId, now: int, m: Message) returns (after: State)
    requires HandlerIs(s, g, m, Inserted) && CopyIs(s, d, m, InDlq) && m.orderId in s.orders && RowFree(s, m.orderId)
    requires !m.alwaysFail
    ensures Runs(cfg, s, [Update(g, now)] + [Commit(g)], after) && DeadAndDone(after, m.messageId)
  {
    AfterUpdate(cfg, s, d, g, now, m);
    var t := Next(cfg, s, Update(g, now));
    RunsOn(cfg, s, [], s, Update(g, now));
    AfterCommit(cfg, t, d, g, m);
    after := Next(cfg, t, Commit(g));
    RunsOn(cfg, s, [Update(g, now)], t, Commit(g));
  }

  /** Second delivery, insert, update, commit. */
  lemma SecondWorkerProcesses(cfg: Config, s: State, c: CopyId, d: CopyId, m: Message, now: int)
    returns (more: seq<Label>, after: State)
    requires CopyIs(s, c, m, Ready) && CopyIs(s, d, m, InDlq) && Unclaimed(s, m) && !m.alwaysFail
    ensures Runs(cfg, s, more, after) && FaultFree(more)
    ensures DeadAndDone(after, m.messageId)
  {
    var g := FreshDelivery(s);
    AfterDeliver(cfg, s, c, d, g, m);
    var s1 := Next(cfg, s, Deliver(c, g));
    RunsOn(cfg, s, [], s, Deliver(c, g));
    AfterInsert(cfg, s1, d, g, m);
    var s2 := Next(cfg, s1, Insert(g));
    RunsOn(cfg, s, [Deliver(c, g)], s1, Insert(g));
    after := WorkerFinishes(cfg, s2, d, g, now, m);
    RunsJoin(cfg, s, [Deliver(c, g)] + [Insert(g)], s2, [Update(g, now)] + [Commit(g)], after);
    more := [Deliver(c, g)] + [Insert(g)] + ([Update(g, now)] + [Commit(g)]);
  }

  /** The loss of the delivery, the parking, and all that follows. */
  lemma FirstWorkerParks(cfg: Config, s: State, h: HandlerId, c: CopyId, m: Message, now: int)
    returns (more: seq<Label>, after: State)
    requires HandlerIs(s, h, m, Caught) && CopyIs(s, c, m, Unacked(h)) && Unclaimed(s, m)
    requires m.attempt >= cfg.maxAttempts && !m.alwaysFail
    ensures Runs(cfg, s, [Requeue(c)] + more, after) && FaultFree(more)
    ensures DeadAndDone(after, m.messageId)
  {
    AfterRequeue(cfg, s, h, c, m);
    var s1 := Next(cfg, s, Requeue(c));
    RunsOn(cfg, s, [], s, Requeue(c));
    FreshNat(s1.copies.Keys);
    var d: CopyId :| d !in s1.copies;
    AfterPark(cfg, s1, h, c, d, m);
    var s2 := Next(cfg, s1, PublishDlq(h, d));
    RunsOn(cfg, s1, [], s1, PublishDlq(h, d));
    var rest;
    rest, after := SecondWorkerProcesses(cfg, s2, c, d, m, now);
    more := [PublishDlq(h, d)] + rest;
    RunsJoin(cfg, s1, [PublishDlq(h, d)], s2, rest, after);
    RunsJoin(cfg, s, [Requeue(c)], s1, more, after);
  }

  /** The worker has failed its last attempt at a message nobody else is processing. */
  ghost predicate AboutToPark(cfg: Config, s: State, h: HandlerId) {
    && HandlerAt(s, h, Caught) && OwnsDelivery(s, h)
    && var m := s.handlers[h].message;
      && m.attempt >= cfg.maxAttempts && !m.alwaysFail && m.messageId !in s.processed
      && (forall g :: g in s.handlers && HoldsKey(s.handlers[g]) ==> s.handlers[g].message.messageId != m.messageId)
      && RowFree(s, m.orderId)
  }

  lemma ParksItsCopy(cfg: Config, ls: seq<Label>, h: HandlerId)
    requires Exec(cfg, ls).Some? && AboutToPark(cfg, Exec(cfg, ls).value, h)
    ensures var s := Exec(cfg, ls).value; var own := s.handlers[h];
      CopyIs(s, own.copy, own.message, Unacked(h)) && Unclaimed(s, own.message)
  {
    RunsAreIdentitySound(cfg, ls);
    RunsAreCovered(cfg, ls);
    OrderExists(Exec(cfg, ls).value, h);
  }

  /**
     From any reachable state with such a worker: if the broker now loses that one delivery, the run can go on
     without another fault to a state where the message is dead-lettered and processed.
   */
  lemma LostDeliveryDuplicates(cfg: Config, ls: seq<Label>, h: HandlerId, now: int)
    returns (more: seq<Label>)
    requires Exec(cfg, ls).Some? && AboutToPark(cfg, Exec(cfg, ls).value, h)
    ensures var own := Exec(cfg, ls).value.handlers[h]; var run := ls + ([Requeue(own.copy)] + more);
      && FaultFree(more) && Exec(cfg, run).Some? && DeadAndDone(Exec(cfg, run).value, own.message.messageId)
  {
    var s := Exec(cfg, ls).value;
    var own, after := s.handlers[h], s;
    ParksItsCopy(cfg, ls, h);
    more, after := FirstWorkerParks(cfg, s, h, own.copy, own.message, now);
    RunsJoin(cfg, Initial, ls, s, [Requeue(own.copy)] + more, after);
  }

  // ---- such a state is reached ----------------------------------------------------------------

  const OneAttempt := Config(1, 1, 1000)

  const TheMessage := Message(0, 0, 1, false)

  const TheEvent := NewEvent(ProcessRequested(TheMessage), 0)

  const Created := Initial.(
    orders := map[0 := Order(Pending, 0, None)],
    outbox := map[0 := TheEvent, 1 := NewEvent(OrderPlaced(0), 0)])

  const Claimed := Created.(ticks := map[0 := Tick([0], 0, AtPublish, map[])], locks := map[0 := 0])

  const Published := Claimed.(
    ticks := map[0 := Tick([0], 0, AtMark(true), map[])],
    copies := map[0 := Copy(TheMessage, Ready)])

  function With(copies: map<CopyId, Copy>, handlers: map<HandlerId, Handler>): State {
    Published.(copies := copies, handlers := handlers)
  }

  function By(h: HandlerId, pc: HandlerPc): Handler {
    Handler(0, TheMessage, pc)
  }

  const Delivered := With(map[0 := Copy(TheMessage, Unacked(0))], map[0 := By(0, Start)])

  const Failed := With(map[0 := Copy(TheMessage, Unacked(0))], map[0 := By(0, Caught)])

  /** In `s` the step is possible and leads to `after`. */
  ghost predicate Leads(s: State, l: Label, after: State) {
    Enabled(OneAttempt, s, l) && Next(OneAttempt, s, l) == after
  }

  lemma ReachedNext(s: State, l: Label, after: State)
    requires Reachable(OneAttempt, s) && Leads(s, l, after)
    ensures Reachable(OneAttempt, after)
  {
    var ls :| Exec(OneAttempt, ls) == Some(s);
    RunsOn(OneAttempt, Initial, ls, s, l);
    assert Exec(OneAttempt, ls + [l]) == Some(after);
  }

  lemma CreateLeads()
    ensures Leads(Initial, Create(0, 0, 1, 0, false, 0), Created)
  {
    assert Next(OneAttempt, Initial, Create(0, 0, 1, 0, false, 0)).outbox == Created.outbox;
  }

  lemma ClaimLeads()
    ensures Leads(Created, Claim(0, [0], 0), Claimed)
  {
    assert Next(OneAttempt, Created, Claim(0, [0], 0)).locks == Claimed.locks;
  }

  lemma PublishLeads()
    ensures Leads(Claimed, PublishEvent(0, 0), Published)
  {
    assert TickAt(Claimed, 0, false) && CurrentEvent(Claimed, 0) == 0;
    assert Next(OneAttempt, Claimed, PublishEvent(0, 0)).ticks == Published.ticks;
  }

  lemma DeliverLeads()
    ensures Leads(Published, Deliver(0, 0), Delivered)
  {
    assert Next(OneAttempt, Published, Deliver(0, 0)).copies == Delivered.copies;
    assert Next(OneAttempt, Published, Deliver(0, 0)).handlers == Delivered.handlers;
  }

  lemma ThrowLeads()
    ensures Leads(Delivered, Throw(0), Failed)
  {
    assert Next(OneAttempt, Delivered, Throw(0)).handlers == Failed.handlers;
  }

  lemma FailedReachable()
    ensures Reachable(OneAttempt, Failed)
  {
    assert Exec(OneAttempt, []) == Some(Initial);
    CreateLeads();
    ReachedNext(Initial, Create(0, 0, 1, 0, false, 0), Created);
    ClaimLeads();
    ReachedNext(Created, Claim(0, [0], 0), Claimed);
    PublishLeads();
    ReachedNext(Claimed, PublishEvent(0, 0), Published);
    DeliverLeads();
    ReachedNext(Published, Deliver(0, 0), Delivered);
    ThrowLeads();
    ReachedNext(Delivered, Throw(0), Failed);
  }

  /** One order, one attempt allowed, one fault: its message is both dead and processed. */
  lemma DeadAndProcessed()
    ensures exists s :: Reachable(OneAttempt, s) && DeadAndDone(s, TheMessage.messageId)
  {
    FailedReachable();
    var ls :| Exec(OneAttempt, ls) == Some(Failed);
    assert AboutToPark(OneAttempt, Failed, 0);
    var more := LostDeliveryDuplicates(OneAttempt, ls, 0, 0);
    var run := ls + ([Requeue(0)] + more);
    assert Reachable(OneAttempt, Exec(OneAttempt, run).value);
  }
}
