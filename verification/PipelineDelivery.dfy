/** No committed order is lost, whatever crashes, redeliveries and repeated publishes come between. */
module PipelineDelivery {
  import opened Wrappers
  import opened PipelineModel
  import opened PipelineRelay
  import opened PipelineIdentity

  /**
   The message is settled beyond attempt `a`: processed, parked in the dead-letter queue, or still
   travelling as a copy with a later attempt. Attempts only grow along a chain of retries, so a copy
   may be acked on this ground without two acks ever justifying each other in a circle.
   */
  ghost predicate Justified(s: State, m: MessageId, a: nat) {
    m in s.processed || exists c :: CopyBeyond(s, c, m, a)
  }

  ghost predicate CopyBeyond(s: State, c: CopyId, m: MessageId, a: nat) {
    && c in s.copies && s.copies[c].message.messageId == m
    && (s.copies[c].place.InDlq? || s.copies[c].message.attempt > a)
  }

  /** A row marked SENT may be forgotten by the relay only if its message is somewhere. */
  ghost predicate RowCovered(s: State, e: Event) {
    e.payload.ProcessRequested? && e.status == EventSent ==>
      Justified(s, e.payload.message.messageId, 0)
  }

  ghost predicate TickCovered(s: State, t: TickId)
    requires t in s.ticks
  {
    && (forall e :: e in s.ticks[t].writes ==> RowCovered(s, s.ticks[t].writes[e]))
    && PendingMarkCovered(s, t)
  }

  ghost predicate HandlerCovered(s: State, h: Handler) {
    && (h.pc.Done? ==> h.message.messageId in s.processed)
    && (h.pc.Republished? ==> Justified(s, h.message.messageId, h.message.attempt))
  }

  ghost predicate DeliveriesMatch(s: State) {
    forall c :: c in s.copies && s.copies[c].place.Unacked? && s.copies[c].place.holder in s.handlers ==>
      && s.handlers[s.copies[c].place.holder].copy == c
      && s.handlers[s.copies[c].place.holder].message == s.copies[c].message
  }

  ghost predicate HandlersCovered(s: State) {
    DeliveriesMatch(s) && forall h :: h in s.handlers ==> HandlerCovered(s, s.handlers[h])
  }

  ghost predicate Covered(s: State) {
    && HandlersCovered(s)
    && (forall e :: e in s.outbox ==> RowCovered(s, s.outbox[e]))
    && (forall t :: t in s.ticks ==> TickCovered(s, t))
  }

  /** An ack that counts is the only step that removes a copy; no step rewrites or revives one. */
  lemma CopyStays(cfg: Config, s: State, l: Label, c: CopyId)
    requires Enabled(cfg, s, l) && c in s.copies
    requires !(l.Ack? && OwnsDelivery(s, l.handler) && s.handlers[l.handler].copy == c)
    ensures c in Next(cfg, s, l).copies
    ensures Next(cfg, s, l).copies[c].message == s.copies[c].message
    ensures s.copies[c].place.InDlq? ==> Next(cfg, s, l).copies[c].place.InDlq?
  {}

  lemma ProcessedStays(cfg: Config, s: State, l: Label, m: MessageId)
    requires Enabled(cfg, s, l) && m in s.processed
    ensures m in Next(cfg, s, l).processed
  {}

  /** What justified an ack also justifies everything the acked copy used to justify. */
  lemma JustifiedStable(cfg: Config, s: State, l: Label, m: MessageId, a: nat)
    requires HandlersCovered(s) && Enabled(cfg, s, l) && Justified(s, m, a)
    ensures Justified(Next(cfg, s, l), m, a)
  {
    var s' := Next(cfg, s, l);
    if m !in s.processed {
      var c :| CopyBeyond(s, c, m, a);
      if l.Ack? && OwnsDelivery(s, l.handler) && s.handlers[l.handler].copy == c {
        var b := s.handlers[l.handler].message.attempt;
        assert HandlerCovered(s, s.handlers[l.handler]);
        var d :| CopyBeyond(s, d, m, b);
        CopyStays(cfg, s, l, d);
        assert CopyBeyond(s', d, m, a);
      } else {
        CopyStays(cfg, s, l, c);
        assert CopyBeyond(s', c, m, a);
      }
    } else {
      ProcessedStays(cfg, s, l, m);
    }
  }

  lemma RowStaysCovered(cfg: Config, s: State, l: Label, e: Event)
    requires HandlersCovered(s) && Enabled(cfg, s, l) && RowCovered(s, e)
    ensures RowCovered(Next(cfg, s, l), e)
  {
    if e.payload.ProcessRequested? && e.status == EventSent {
      JustifiedStable(cfg, s, l, e.payload.message.messageId, 0);
    }
  }

  /** The tick's published-but-unmarked event, if any, as markSent will leave it. */
  ghost predicate PendingMarkCovered(s: State, t: TickId) {
    TickAt(s, t, true) && s.ticks[t].pc.published ==> RowCovered(s, Sent(s.outbox[CurrentEvent(s, t)]))
  }

  lemma PublishCovers(cfg: Config, s: State, l: Label)
    requires Enabled(cfg, s, l) && l.PublishEvent?
    ensures PendingMarkCovered(Next(cfg, s, l), l.tick)
  {
    var payload := s.outbox[CurrentEvent(s, l.tick)].payload;
    if payload.ProcessRequested? {
      assert CopyBeyond(Next(cfg, s, l), l.copy, payload.message.messageId, 0);
    }
  }

  /** No step but the tick's own changes an open tick. */
  lemma TickUnchanged(cfg: Config, s: State, l: Label, t: TickId)
    requires Enabled(cfg, s, l) && t in Next(cfg, s, l).ticks && !(RelayLabel(l) && l.tick == t)
    ensures t in s.ticks && s.ticks[t] == Next(cfg, s, l).ticks[t]
  {}

  lemma PendingMarkStaysCovered(cfg: Config, s: State, l: Label, t: TickId)
    requires HandlersCovered(s) && RelaySound(cfg, s) && Enabled(cfg, s, l) && t in Next(cfg, s, l).ticks
    requires t in s.ticks ==> PendingMarkCovered(s, t)
    ensures PendingMarkCovered(Next(cfg, s, l), t)
  {
    if l.PublishEvent? && l.tick == t {
      PublishCovers(cfg, s, l);
    } else if !(RelayLabel(l) && l.tick == t) {
      UnchangedTickStaysCovered(cfg, s, l, t);
    }
  }

  lemma UnchangedTickStaysCovered(cfg: Config, s: State, l: Label, t: TickId)
    requires HandlersCovered(s) && RelaySound(cfg, s) && Enabled(cfg, s, l) && t in Next(cfg, s, l).ticks
    requires !(RelayLabel(l) && l.tick == t)
    requires t in s.ticks ==> PendingMarkCovered(s, t)
    ensures PendingMarkCovered(Next(cfg, s, l), t)
  {
    TickUnchanged(cfg, s, l, t);
    PayloadsStay(cfg, s, l);
    if TickAt(s, t, true) && s.ticks[t].pc.published {
      RowStaysCovered(cfg, s, l, Sent(s.outbox[CurrentEvent(s, t)]));
    } else if TickAt(Next(cfg, s, l), t, true) {
      assert TickSound(cfg, s.outbox, s.ticks[t]);
    }
  }

  lemma WritesStayCovered(cfg: Config, s: State, l: Label, t: TickId, e: EventId)
    requires HandlersCovered(s) && Enabled(cfg, s, l) && t in Next(cfg, s, l).ticks
    requires t in s.ticks ==> TickCovered(s, t)
    requires e in Next(cfg, s, l).ticks[t].writes
    ensures RowCovered(Next(cfg, s, l), Next(cfg, s, l).ticks[t].writes[e])
  {
    var w := Next(cfg, s, l).ticks[t].writes[e];
    if RelayLabel(l) && l.tick == t {
      if l.Mark? && e == CurrentEvent(s, t) {
        if s.ticks[t].pc.published {
          RowStaysCovered(cfg, s, l, w);
        }
      } else if !l.Claim? {
        assert w == s.ticks[t].writes[e];
        RowStaysCovered(cfg, s, l, w);
      }
    } else {
      TickUnchanged(cfg, s, l, t);
      RowStaysCovered(cfg, s, l, w);
    }
  }

  lemma TickStaysCovered(cfg: Config, s: State, l: Label, t: TickId)
    requires HandlersCovered(s) && RelaySound(cfg, s) && Enabled(cfg, s, l) && t in Next(cfg, s, l).ticks
    requires t in s.ticks ==> TickCovered(s, t)
    ensures TickCovered(Next(cfg, s, l), t)
  {
    PendingMarkStaysCovered(cfg, s, l, t);
    forall e | e in Next(cfg, s, l).ticks[t].writes
      ensures RowCovered(Next(cfg, s, l), Next(cfg, s, l).ticks[t].writes[e])
    {
      WritesStayCovered(cfg, s, l, t, e);
    }
  }

  lemma OutboxStaysCovered(cfg: Config, s: State, l: Label, e: EventId)
    requires Covered(s) && Enabled(cfg, s, l) && e in Next(cfg, s, l).outbox
    ensures RowCovered(Next(cfg, s, l), Next(cfg, s, l).outbox[e])
  {
    if l.CommitTick? && e in s.ticks[l.tick].writes {
      assert TickCovered(s, l.tick);
      RowStaysCovered(cfg, s, l, s.ticks[l.tick].writes[e]);
    } else if e in s.outbox {
      RowStaysCovered(cfg, s, l, s.outbox[e]);
      if !RelayLabel(l) {
        OtherStepsKeepOutbox(cfg, s, l);
      }
    }
  }

  lemma HandlerStaysCovered(cfg: Config, s: State, l: Label, h: HandlerId)
    requires HandlersCovered(s) && Enabled(cfg, s, l) && h in Next(cfg, s, l).handlers
    ensures HandlerCovered(Next(cfg, s, l), Next(cfg, s, l).handlers[h])
  {
    var s' := Next(cfg, s, l);
    var m := s'.handlers[h].message;
    if s'.handlers[h].pc.Republished? {
      if (l.PublishRetry? || l.PublishDlq?) && l.handler == h {
        assert CopyBeyond(s', l.copy, m.messageId, m.attempt);
      } else {
        JustifiedStable(cfg, s, l, m.messageId, m.attempt);
      }
    }
  }

  lemma DeliveriesStayMatched(cfg: Config, s: State, l: Label)
    requires DeliveriesMatch(s) && Enabled(cfg, s, l)
    ensures DeliveriesMatch(Next(cfg, s, l))
  {
    forall c | UnackedIn(Next(cfg, s, l), c) ensures MatchIn(Next(cfg, s, l), c) {
      DeliveryStaysMatched(cfg, s, l, c);
    }
  }

  lemma DeliveryStaysMatched(cfg: Config, s: State, l: Label, c: CopyId)
    requires DeliveriesMatch(s) && Enabled(cfg, s, l) && UnackedIn(Next(cfg, s, l), c)
    ensures MatchIn(Next(cfg, s, l), c)
  {
    if l.Deliver? && l.copy == c {
      DeliveredMatches(cfg, s, l);
    } else {
      UnackedBefore(cfg, s, l, c);
      HandlerKeepsMessage(cfg, s, l, s.copies[c].place.holder);
      assert UnackedIn(s, c) && MatchIn(s, c);
    }
  }

  lemma DeliveredMatches(cfg: Config, s: State, l: Label)
    requires Enabled(cfg, s, l) && l.Deliver?
    ensures UnackedIn(Next(cfg, s, l), l.copy) && MatchIn(Next(cfg, s, l), l.copy)
  {}

  predicate UnackedIn(s: State, c: CopyId) {
    c in s.copies && s.copies[c].place.Unacked? && s.copies[c].place.holder in s.handlers
  }

  predicate MatchIn(s: State, c: CopyId)
    requires UnackedIn(s, c)
  {
    && s.handlers[s.copies[c].place.holder].copy == c
    && s.handlers[s.copies[c].place.holder].message == s.copies[c].message
  }

  /** A copy in somebody's hands was there before, in the same hands, unless it has just been delivered. */
  lemma UnackedBefore(cfg: Config, s: State, l: Label, c: CopyId)
    requires Enabled(cfg, s, l) && UnackedIn(Next(cfg, s, l), c) && !(l.Deliver? && l.copy == c)
    ensures c in s.copies && s.copies[c] == Next(cfg, s, l).copies[c]
    ensures !(l.Deliver? && l.handler == s.copies[c].place.holder)
  {}

  lemma HandlerKeepsMessage(cfg: Config, s: State, l: Label, h: HandlerId)
    requires Enabled(cfg, s, l) && h in Next(cfg, s, l).handlers && !(l.Deliver? && l.handler == h)
    ensures h in s.handlers
    ensures Next(cfg, s, l).handlers[h].copy == s.handlers[h].copy
    ensures Next(cfg, s, l).handlers[h].message == s.handlers[h].message
  {}

  lemma StaysCovered(cfg: Config, s: State, l: Label)
    requires Covered(s) && RelaySound(cfg, s) && Enabled(cfg, s, l)
    ensures Covered(Next(cfg, s, l))
  {
    var s' := Next(cfg, s, l);
    DeliveriesStayMatched(cfg, s, l);
    forall e | e in s'.outbox ensures RowCovered(s', s'.outbox[e]) {
      OutboxStaysCovered(cfg, s, l, e);
    }
    forall t | t in s'.ticks ensures TickCovered(s', t) {
      TickStaysCovered(cfg, s, l, t);
    }
    forall h | h in s'.handlers ensures HandlerCovered(s', s'.handlers[h]) {
      HandlerStaysCovered(cfg, s, l, h);
    }
  }

  lemma {:induction false} RunsAreCovered(cfg: Config, ls: seq<Label>)
    requires Exec(cfg, ls).Some?
    ensures Covered(Exec(cfg, ls).value)
  {
    if ls != [] {
      RunsAreCovered(cfg, ls[..|ls| - 1]);
      RunsAreRelaySound(cfg, ls[..|ls| - 1]);
      StaysCovered(cfg, Exec(cfg, ls[..|ls| - 1]).value, ls[|ls| - 1]);
    }
  }

  // ---- the theorems ---------------------------------------------------------------------------

  /** Its row is not yet SENT, or a copy of its message is with the broker, or it has been processed. */
  ghost predicate Accounted(s: State, e: EventId, m: MessageId) {
    || (e in s.outbox && s.outbox[e].status != EventSent)
    || m in s.processed
    || (exists c :: c in s.copies && s.copies[c].message.messageId == m)
  }

  /** In every reachable state every committed order's process event is accounted for. */
  lemma NoOrderLost(cfg: Config, ls: seq<Label>, o: OrderId)
    requires Exec(cfg, ls).Some? && o in Exec(cfg, ls).value.orders
    ensures exists e, m ::
      ProcessEventOf(Exec(cfg, ls).value.outbox, e, m, o) && Accounted(Exec(cfg, ls).value, e, m)
  {
    var s := Exec(cfg, ls).value;
    RunsAreIdentitySound(cfg, ls);
    RunsAreCovered(cfg, ls);
    assert OrderHasEvent(s.outbox, o);
    var e, m :| ProcessEventOf(s.outbox, e, m, o);
    if s.outbox[e].status == EventSent && m !in s.processed {
      assert RowCovered(s, s.outbox[e]);
      var c :| CopyBeyond(s, c, m, 0);
    }
    assert Accounted(s, e, m);
  }

  /**
   An ack takes the copy away only once its message is processed, dead-lettered, or on its way again
   as a later attempt, and that is still so after the ack.
   */
  lemma EveryAckIsJustified(cfg: Config, ls: seq<Label>, h: HandlerId)
    requires Exec(cfg, ls).Some? && Enabled(cfg, Exec(cfg, ls).value, Ack(h))
    ensures Justified(Next(cfg, Exec(cfg, ls).value, Ack(h)),
                      Exec(cfg, ls).value.handlers[h].message.messageId,
                      Exec(cfg, ls).value.handlers[h].message.attempt)
  {
    var s := Exec(cfg, ls).value;
    RunsAreCovered(cfg, ls);
    assert HandlerCovered(s, s.handlers[h]);
    JustifiedStable(cfg, s, Ack(h), s.handlers[h].message.messageId, s.handlers[h].message.attempt);
  }
}
