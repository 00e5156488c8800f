/** One process event, one message id and one order always go together. */
module PipelineIdentity {
  import opened Wrappers
  import opened PipelineModel
  import opened PipelineRelay

  ghost predicate ProcessEventOf(outbox: map<EventId, Event>, e: EventId, m: MessageId, o: OrderId) {
    && e in outbox && outbox[e].payload.ProcessRequested?
    && outbox[e].payload.message.messageId == m && outbox[e].payload.message.orderId == o
  }

  ghost predicate Known(outbox: map<EventId, Event>, m: MessageId, o: OrderId) {
    exists e :: ProcessEventOf(outbox, e, m, o)
  }

  ghost predicate OrderHasEvent(outbox: map<EventId, Event>, o: OrderId) {
    exists e, m :: ProcessEventOf(outbox, e, m, o)
  }

  /** No two process events share a message id or an order. */
  ghost predicate EventsUnique(outbox: map<EventId, Event>) {
    forall e, f, m, n, o, p ::
      (ProcessEventOf(outbox, e, m, o) && ProcessEventOf(outbox, f, n, p) && (m == n || o == p)) ==> e == f
  }

  ghost predicate OrdersMatchEvents(s: State) {
    && (forall o :: o in s.orders ==> OrderHasEvent(s.outbox, o))
    && (forall e, m, o :: ProcessEventOf(s.outbox, e, m, o) ==> o in s.orders)
  }

  ghost predicate MessagesKnown(s: State) {
    && (forall c :: c in s.copies ==>
          Known(s.outbox, s.copies[c].message.messageId, s.copies[c].message.orderId))
    && (forall h :: h in s.handlers ==>
          Known(s.outbox, s.handlers[h].message.messageId, s.handlers[h].message.orderId))
    && (forall m :: m in s.processed ==> Known(s.outbox, m, s.processed[m]))
  }

  ghost predicate IdentitySound(s: State) {
    EventsUnique(s.outbox) && OrdersMatchEvents(s) && MessagesKnown(s)
  }

  /** A step other than a create leaves the process events exactly as they were. */
  lemma EventsStay(cfg: Config, s: State, l: Label, e: EventId, m: MessageId, o: OrderId)
    requires RelaySound(cfg, s) && Enabled(cfg, s, l) && !l.Create?
    ensures ProcessEventOf(Next(cfg, s, l).outbox, e, m, o) <==> ProcessEventOf(s.outbox, e, m, o)
  {
    PayloadsStay(cfg, s, l);
    if l.CommitTick? {
      assert TickSound(cfg, s.outbox, s.ticks[l.tick]);
    } else if !RelayLabel(l) {
      OtherStepsKeepOutbox(cfg, s, l);
    }
  }

  lemma CreateAddsEvent(cfg: Config, s: State, l: Label, e: EventId, m: MessageId, o: OrderId)
    requires Enabled(cfg, s, l) && l.Create?
    ensures ProcessEventOf(Next(cfg, s, l).outbox, e, m, o)
       <==> ProcessEventOf(s.outbox, e, m, o) || (e == l.processEvent && m == l.messageId && o == l.order)
    ensures m == l.messageId ==> !ProcessEventOf(s.outbox, e, m, o)
  {}

  lemma KnownStays(cfg: Config, s: State, l: Label, m: MessageId, o: OrderId)
    requires RelaySound(cfg, s) && Enabled(cfg, s, l) && Known(s.outbox, m, o)
    ensures Known(Next(cfg, s, l).outbox, m, o)
  {
    var e :| ProcessEventOf(s.outbox, e, m, o);
    if l.Create? {
      CreateAddsEvent(cfg, s, l, e, m, o);
    } else {
      EventsStay(cfg, s, l, e, m, o);
    }
    assert ProcessEventOf(Next(cfg, s, l).outbox, e, m, o);
  }

  lemma EventsStayUnique(cfg: Config, s: State, l: Label)
    requires RelaySound(cfg, s) && Enabled(cfg, s, l) && EventsUnique(s.outbox) && OrdersMatchEvents(s)
    ensures EventsUnique(Next(cfg, s, l).outbox)
  {
    var after := Next(cfg, s, l).outbox;
    forall e, f, m, n, o, p | ProcessEventOf(after, e, m, o) && ProcessEventOf(after, f, n, p)
      && (m == n || o == p)
      ensures e == f
    {
      if l.Create? {
        CreateAddsEvent(cfg, s, l, e, m, o);
        CreateAddsEvent(cfg, s, l, f, n, p);
      } else {
        EventsStay(cfg, s, l, e, m, o);
        EventsStay(cfg, s, l, f, n, p);
      }
    }
  }

  /** Orders come only from creates: a worker's commit writes an order that is already there. */
  lemma OrderKeysStay(cfg: Config, s: State, l: Label)
    requires IdentitySound(s) && Enabled(cfg, s, l)
    ensures Next(cfg, s, l).orders.Keys == if l.Create? then s.orders.Keys + {l.order} else s.orders.Keys
  {
    OrdersAfter(cfg, s, l);
    if l.Commit? {
      var m := s.handlers[l.handler].message;
      assert Known(s.outbox, m.messageId, m.orderId);
    }
  }

  lemma OrdersStayMatched(cfg: Config, s: State, l: Label)
    requires IdentitySound(s) && RelaySound(cfg, s) && Enabled(cfg, s, l)
    ensures OrdersMatchEvents(Next(cfg, s, l))
  {
    var s' := Next(cfg, s, l);
    OrderKeysStay(cfg, s, l);
    forall o | o in s'.orders ensures OrderHasEvent(s'.outbox, o) {
      if o in s.orders {
        var e, m :| ProcessEventOf(s.outbox, e, m, o);
        KnownStays(cfg, s, l, m, o);
      } else {
        assert ProcessEventOf(s'.outbox, l.processEvent, l.messageId, o);
      }
    }
    forall e, m, o | ProcessEventOf(s'.outbox, e, m, o) ensures o in s'.orders {
      if l.Create? {
        CreateAddsEvent(cfg, s, l, e, m, o);
      } else {
        EventsStay(cfg, s, l, e, m, o);
      }
    }
  }

  lemma CopyStaysKnown(cfg: Config, s: State, l: Label, c: CopyId)
    requires MessagesKnown(s) && RelaySound(cfg, s) && Enabled(cfg, s, l) && c in Next(cfg, s, l).copies
    ensures Known(Next(cfg, s, l).outbox, Next(cfg, s, l).copies[c].message.messageId,
                  Next(cfg, s, l).copies[c].message.orderId)
  {
    var m := Next(cfg, s, l).copies[c].message;
    if l.PublishEvent? && l.copy == c && c !in s.copies {
      assert ProcessEventOf(s.outbox, CurrentEvent(s, l.tick), m.messageId, m.orderId);
    } else {
      assert Known(s.outbox, m.messageId, m.orderId);
    }
    KnownStays(cfg, s, l, m.messageId, m.orderId);
  }

  lemma HandlerStaysKnown(cfg: Config, s: State, l: Label, h: HandlerId)
    requires MessagesKnown(s) && RelaySound(cfg, s) && Enabled(cfg, s, l) && h in Next(cfg, s, l).handlers
    ensures Known(Next(cfg, s, l).outbox, Next(cfg, s, l).handlers[h].message.messageId,
                  Next(cfg, s, l).handlers[h].message.orderId)
  {
    var m := Next(cfg, s, l).handlers[h].message;
    assert Known(s.outbox, m.messageId, m.orderId);
    KnownStays(cfg, s, l, m.messageId, m.orderId);
  }

  lemma ProcessedStaysKnown(cfg: Config, s: State, l: Label, m: MessageId)
    requires MessagesKnown(s) && RelaySound(cfg, s) && Enabled(cfg, s, l) && m in Next(cfg, s, l).processed
    ensures Known(Next(cfg, s, l).outbox, m, Next(cfg, s, l).processed[m])
  {
    assert Known(s.outbox, m, Next(cfg, s, l).processed[m]);
    KnownStays(cfg, s, l, m, Next(cfg, s, l).processed[m]);
  }

  lemma IdentityStaysSound(cfg: Config, s: State, l: Label)
    requires IdentitySound(s) && RelaySound(cfg, s) && Enabled(cfg, s, l)
    ensures IdentitySound(Next(cfg, s, l))
  {
    var s' := Next(cfg, s, l);
    EventsStayUnique(cfg, s, l);
    OrdersStayMatched(cfg, s, l);
    forall c | c in s'.copies
      ensures Known(s'.outbox, s'.copies[c].message.messageId, s'.copies[c].message.orderId)
    {
      CopyStaysKnown(cfg, s, l, c);
    }
    forall h | h in s'.handlers
      ensures Known(s'.outbox, s'.handlers[h].message.messageId, s'.handlers[h].message.orderId)
    {
      HandlerStaysKnown(cfg, s, l, h);
    }
    forall m | m in s'.processed ensures Known(s'.outbox, m, s'.processed[m]) {
      ProcessedStaysKnown(cfg, s, l, m);
    }
  }

  lemma {:induction false} RunsAreIdentitySound(cfg: Config, ls: seq<Label>)
    requires Exec(cfg, ls).Some?
    ensures IdentitySound(Exec(cfg, ls).value)
  {
    if ls != [] {
      RunsAreIdentitySound(cfg, ls[..|ls| - 1]);
      RunsAreRelaySound(cfg, ls[..|ls| - 1]);
      IdentityStaysSound(cfg, Exec(cfg, ls[..|ls| - 1]).value, ls[|ls| - 1]);
    }
  }
}
