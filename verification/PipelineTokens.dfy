/** A process event no fault strikes is in exactly one place, and it ends where its failures say. */
module PipelineTokens {
  import opened Wrappers
  import opened FreshIds
  import opened PipelineModel
  import opened PipelineRelay
  import opened PipelineIdentity
  import opened PipelineDelivery
  import opened PipelineOnce

  /** Where the one duty to process a message lies. */
  datatype Token = AtRow | AtCopy(copy: CopyId) | AtProcessed

  /** A copy whose handler has finished with it: only its ack is outstanding. */
  predicate Spent(s: State, c: CopyId)
    requires c in s.copies
  {
    && s.copies[c].place.Unacked? && s.copies[c].place.holder in s.handlers
    && var pc := s.handlers[s.copies[c].place.holder].pc; pc.Done? || pc.Republished?
  }

  predicate LiveCopy(s: State, c: CopyId, m: MessageId) {
    c in s.copies && s.copies[c].message.messageId == m && !Spent(s, c)
  }

  ghost predicate Holds(s: State, e: EventId, m: MessageId, t: Token) {
    match t
    case AtRow => e in s.outbox && s.outbox[e].status != EventSent && !InFlight(s, e)
    case AtCopy(c) => LiveCopy(s, c, m)
    case AtProcessed => m in s.processed
  }

  ghost predicate OnlyToken(s: State, e: EventId, m: MessageId, t: Token) {
    Holds(s, e, m, t) && forall u :: Holds(s, e, m, u) ==> u == t
  }

  /** The handler works on this message. */
  predicate WorksOn(s: State, h: HandlerId, m: MessageId) {
    h in s.handlers && s.handlers[h].message.messageId == m
  }

  /**
     The step is a fault that strikes this very message: a tick that has published its row rolls back, a delivery
     of it is requeued, or a worker on it dies or cannot publish or ack. All other faults pass it by.
   */
  ghost predicate Strikes(s: State, l: Label, e: EventId, m: MessageId) {
    || Hit(s, l, PublishLost(e))
    || ((l.PublishThrows? || l.AckThrows? || l.Die?) && WorksOn(s, l.handler, m))
    || (l.Requeue? && l.copy in s.copies && s.copies[l.copy].message.messageId == m)
  }

  /** Every handler of the message works on the one delivery that is still its own, and none is requeueing. */
  ghost predicate Owned(s: State, m: MessageId) {
    && (forall h :: WorksOn(s, h, m) ==> OwnsDelivery(s, h) && !s.handlers[h].pc.Nacking?)
    && (forall c :: c in s.copies && s.copies[c].message.messageId == m && s.copies[c].place.Unacked? ==>
          s.copies[c].place.holder in s.handlers && s.handlers[s.copies[c].place.holder].copy == c)
  }

  /** What holds in every run, faults or not. */
  ghost predicate Sound(cfg: Config, s: State) {
    RelaySound(cfg, s) && IdentitySound(s) && DeliveriesMatch(s) && OnceSound(s)
  }

  /** The steps by which a handler goes. */
  predicate Leaves(l: Label) {
    l.Ack? || l.Nack? || l.Die?
  }

  lemma LeavesEffect(cfg: Config, s: State, l: Label)
    requires Enabled(cfg, s, l) && Leaves(l)
    ensures Next(cfg, s, l).handlers == s.handlers - {l.handler}
    ensures Next(cfg, s, l).copies
         == if l.Die? || !OwnsDelivery(s, l.handler) then s.copies
            else var c := s.handlers[l.handler].copy;
              if l.Ack? then s.copies - {c} else s.copies[c := s.copies[c].(place := Ready)]
  {}

  /** A copy leaves a handler's hands only by its own handler or by a requeue. */
  lemma StaysInHand(cfg: Config, s: State, l: Label, c: CopyId)
    requires Enabled(cfg, s, l) && c in s.copies && s.copies[c].place.Unacked?
    requires !(l.Requeue? && l.copy == c)
    requires Leaves(l) ==> l.handler != s.copies[c].place.holder
    requires DeliveriesMatch(s)
    ensures c in Next(cfg, s, l).copies && Next(cfg, s, l).copies[c].place == s.copies[c].place
  {}

  lemma HandlerStaysOwned(cfg: Config, s: State, l: Label, e: EventId, m: MessageId, h: HandlerId)
    requires Owned(s, m) && DeliveriesMatch(s) && Enabled(cfg, s, l) && !Strikes(s, l, e, m)
    requires WorksOn(Next(cfg, s, l), h, m)
    ensures OwnsDelivery(Next(cfg, s, l), h) && !Next(cfg, s, l).handlers[h].pc.Nacking?
  {
    if !(l.Deliver? && l.handler == h) {
      HandlerKeepsMessage(cfg, s, l, h);
      assert WorksOn(s, h, m) && OwnsDelivery(s, h);
      if Leaves(l) {
        LeavesEffect(cfg, s, l);
      }
      StaysInHand(cfg, s, l, s.handlers[h].copy);
    }
  }

  lemma CopyStaysHeld(cfg: Config, s: State, l: Label, e: EventId, m: MessageId, c: CopyId)
    requires Owned(s, m) && DeliveriesMatch(s) && Enabled(cfg, s, l) && !Strikes(s, l, e, m)
    requires c in Next(cfg, s, l).copies && Next(cfg, s, l).copies[c].message.messageId == m
    requires Next(cfg, s, l).copies[c].place.Unacked?
    ensures var h := Next(cfg, s, l).copies[c].place.holder;
      h in Next(cfg, s, l).handlers && Next(cfg, s, l).handlers[h].copy == c
  {
    var s' := Next(cfg, s, l);
    if !(l.Deliver? && l.copy == c) {
      UnackedAsBefore(cfg, s, l, c);
      assert WorksOn(s, s.copies[c].place.holder, m);
    }
  }

  lemma UnackedAsBefore(cfg: Config, s: State, l: Label, c: CopyId)
    requires Enabled(cfg, s, l) && c in Next(cfg, s, l).copies && Next(cfg, s, l).copies[c].place.Unacked?
    requires !(l.Deliver? && l.copy == c)
    ensures c in s.copies && s.copies[c] == Next(cfg, s, l).copies[c]
    ensures !(l.Deliver? && l.handler == s.copies[c].place.holder)
  {}

  lemma StaysOwned(cfg: Config, s: State, l: Label, e: EventId, m: MessageId)
    requires Owned(s, m) && DeliveriesMatch(s) && Enabled(cfg, s, l) && !Strikes(s, l, e, m)
    ensures Owned(Next(cfg, s, l), m)
  {
    var s' := Next(cfg, s, l);
    forall h | WorksOn(s', h, m) ensures OwnsDelivery(s', h) && !s'.handlers[h].pc.Nacking? {
      HandlerStaysOwned(cfg, s, l, e, m, h);
    }
    forall c | c in s'.copies && s'.copies[c].message.messageId == m && s'.copies[c].place.Unacked?
      ensures s'.copies[c].place.holder in s'.handlers && s'.handlers[s'.copies[c].place.holder].copy == c
    {
      CopyStaysHeld(cfg, s, l, e, m, c);
    }
  }

  // ---- the row --------------------------------------------------------------------------------

  /** Only its own publish takes the duty from the row, and only a create puts one there. */
  lemma RowToken(cfg: Config, s: State, l: Label, e: EventId, m: MessageId)
    requires RelaySound(cfg, s) && Enabled(cfg, s, l) && !Hit(s, l, PublishLost(e)) && e in s.outbox
    ensures Holds(Next(cfg, s, l), e, m, AtRow) <==> Holds(s, e, m, AtRow) && !Hit(s, l, EventPublished(e))
  {
    var s' := Next(cfg, s, l);
    StepAnswers(cfg, s, l, e);
    PayloadsStay(cfg, s, l);
    assert Answered(s', e) == Answered(s, e) + One(Hit(s, l, EventPublished(e)));
    assert Holds(s, e, m, AtRow) <==> Answered(s, e) == 0;
    assert Holds(s', e, m, AtRow) <==> Answered(s', e) == 0;
    AnsweredOnce(cfg, s, e);
  }

  lemma AnsweredOnce(cfg: Config, s: State, e: EventId)
    requires RelaySound(cfg, s)
    ensures Answered(s, e) <= 1
  {
    if InFlight(s, e) {
      NotLockedNotPublished(cfg, s, s.locks[e], e);
    }
  }

  // ---- the copies -----------------------------------------------------------------------------

  /** The steps by which a handler finishes with its copy. */
  ghost predicate Finishes(s: State, l: Label) {
    || l.PublishRetry? || l.PublishDlq? || l.Commit?
    || (l.Insert? && l.handler in s.handlers && s.handlers[l.handler].message.messageId in s.processed)
  }

  lemma FinishedCopy(cfg: Config, s: State, l: Label, c: CopyId, m: MessageId)
    requires Owned(s, m) && DeliveriesMatch(s) && Enabled(cfg, s, l) && Finishes(s, l)
    ensures LiveCopy(Next(cfg, s, l), c, m)
       <==> if (l.PublishRetry? || l.PublishDlq?) && c == l.copy then WorksOn(s, l.handler, m)
            else LiveCopy(s, c, m) && !(WorksOn(s, l.handler, m) && c == s.handlers[l.handler].copy)
    ensures WorksOn(s, l.handler, m) ==> LiveCopy(s, s.handlers[l.handler].copy, m)
  {}

  lemma PublishedCopy(cfg: Config, s: State, l: Label, c: CopyId, m: MessageId)
    requires Enabled(cfg, s, l) && l.PublishEvent?
    ensures LiveCopy(Next(cfg, s, l), c, m)
       <==> LiveCopy(s, c, m)
            || (c == l.copy && s.outbox[CurrentEvent(s, l.tick)].payload.ProcessRequested?
                && s.outbox[CurrentEvent(s, l.tick)].payload.message.messageId == m)
  {}

  lemma BrokerCopy(cfg: Config, s: State, l: Label, e: EventId, c: CopyId, m: MessageId)
    requires Enabled(cfg, s, l) && !Strikes(s, l, e, m) && !WorkerLabel(l) && !l.PublishEvent?
    ensures LiveCopy(Next(cfg, s, l), c, m) <==> LiveCopy(s, c, m)
  {}

  lemma LeavingCopy(cfg: Config, s: State, l: Label, e: EventId, c: CopyId, m: MessageId)
    requires Owned(s, m) && DeliveriesMatch(s) && Enabled(cfg, s, l) && !Strikes(s, l, e, m) && Leaves(l)
    ensures LiveCopy(Next(cfg, s, l), c, m) <==> LiveCopy(s, c, m)
  {
    LeavesEffect(cfg, s, l);
    if WorksOn(s, l.handler, m) {
      assert l.Ack? && OwnsDelivery(s, l.handler);
    } else {
      assert OwnsDelivery(s, l.handler) ==> s.copies[s.handlers[l.handler].copy].message.messageId != m;
    }
  }

  lemma WorkingCopy(cfg: Config, s: State, l: Label, e: EventId, c: CopyId, m: MessageId)
    requires DeliveriesMatch(s) && Enabled(cfg, s, l) && !Strikes(s, l, e, m)
    requires WorkerLabel(l) && !Finishes(s, l) && !Leaves(l)
    ensures LiveCopy(Next(cfg, s, l), c, m) <==> LiveCopy(s, c, m)
  {}

  lemma OtherCopy(cfg: Config, s: State, l: Label, e: EventId, c: CopyId, m: MessageId)
    requires Owned(s, m) && DeliveriesMatch(s) && Enabled(cfg, s, l) && !Strikes(s, l, e, m)
    requires !Finishes(s, l) && !l.PublishEvent?
    ensures LiveCopy(Next(cfg, s, l), c, m) <==> LiveCopy(s, c, m)
  {
    if Leaves(l) {
      LeavingCopy(cfg, s, l, e, c, m);
    } else if WorkerLabel(l) {
      WorkingCopy(cfg, s, l, e, c, m);
    } else {
      BrokerCopy(cfg, s, l, e, c, m);
    }
  }

  // ---- where the token goes -------------------------------------------------------------------

  /** The token is the copy that the step's handler has in hand. */
  ghost predicate InHand(s: State, l: Label, m: MessageId, t: Token) {
    WorkerLabel(l) && WorksOn(s, l.handler, m) && t == AtCopy(s.handlers[l.handler].copy)
  }

  ghost function NextToken(s: State, l: Label, e: EventId, m: MessageId, t: Token): Token {
    if Hit(s, l, EventPublished(e)) then AtCopy(l.copy)
    else if (l.PublishRetry? || l.PublishDlq?) && InHand(s, l, m, t) then AtCopy(l.copy)
    else if l.Commit? && InHand(s, l, m, t) then AtProcessed
    else t
  }

  lemma FinishedToken(cfg: Config, s: State, l: Label, e: EventId, m: MessageId, t: Token, u: Token)
    requires Owned(s, m) && DeliveriesMatch(s) && KeysExclusive(s)
    requires Enabled(cfg, s, l) && Finishes(s, l)
    requires Holds(s, e, m, t) && (Holds(s, e, m, u) ==> u == t)
    requires WorksOn(s, l.handler, m) ==> t == AtCopy(s.handlers[l.handler].copy)
    requires l.Insert? ==> !WorksOn(s, l.handler, m)
    requires u == AtRow ==> (Holds(Next(cfg, s, l), e, m, u) <==> Holds(s, e, m, u))
    ensures Holds(Next(cfg, s, l), e, m, u) <==> u == NextToken(s, l, e, m, t)
  {
    match u
    case AtRow =>
    case AtProcessed => StepProcesses(cfg, s, l, m);
    case AtCopy(c) => FinishedCopy(cfg, s, l, c, m);
  }

  lemma FinishMovesToken(cfg: Config, s: State, l: Label, e: EventId, m: MessageId, t: Token)
    requires RelaySound(cfg, s) && Owned(s, m) && DeliveriesMatch(s) && KeysExclusive(s)
    requires Enabled(cfg, s, l) && Finishes(s, l) && e in s.outbox && OnlyToken(s, e, m, t)
    ensures OnlyToken(Next(cfg, s, l), e, m, NextToken(s, l, e, m, t))
  {
    RowToken(cfg, s, l, e, m);
    var own := s.handlers[l.handler].copy;
    FinishedCopy(cfg, s, l, own, m);
    assert WorksOn(s, l.handler, m) ==> Holds(s, e, m, AtCopy(own));
    assert m in s.processed ==> Holds(s, e, m, AtProcessed);
    forall u ensures Holds(Next(cfg, s, l), e, m, u) <==> u == NextToken(s, l, e, m, t) {
      assert Holds(s, e, m, u) ==> u == t;
      FinishedToken(cfg, s, l, e, m, t, u);
    }
  }

  /** No two process events have the same message, so a publish gives its copy to one event only. */
  lemma PublishedEventIs(s: State, l: Label, e: EventId, m: MessageId, o: OrderId)
    requires EventsUnique(s.outbox) && l.PublishEvent? && TickAt(s, l.tick, false)
    requires ProcessEventOf(s.outbox, e, m, o)
    ensures (s.outbox[CurrentEvent(s, l.tick)].payload.ProcessRequested?
             && s.outbox[CurrentEvent(s, l.tick)].payload.message.messageId == m) <==> CurrentEvent(s, l.tick) == e
  {
    var f := CurrentEvent(s, l.tick);
    if s.outbox[f].payload.ProcessRequested? && s.outbox[f].payload.message.messageId == m {
      assert ProcessEventOf(s.outbox, f, m, s.outbox[f].payload.message.orderId);
    }
  }

  lemma PublishedToken(cfg: Config, s: State, l: Label, e: EventId, m: MessageId, t: Token, u: Token)
    requires KeysExclusive(s) && Enabled(cfg, s, l) && l.PublishEvent?
    requires Holds(s, e, m, t) && (Holds(s, e, m, u) ==> u == t)
    requires (s.outbox[CurrentEvent(s, l.tick)].payload.ProcessRequested?
              && s.outbox[CurrentEvent(s, l.tick)].payload.message.messageId == m) <==> CurrentEvent(s, l.tick) == e
    requires CurrentEvent(s, l.tick) == e ==> t == AtRow
    requires u == AtRow ==>
      (Holds(Next(cfg, s, l), e, m, u) <==> Holds(s, e, m, u) && !Hit(s, l, EventPublished(e)))
    ensures Holds(Next(cfg, s, l), e, m, u) <==> u == NextToken(s, l, e, m, t)
  {
    match u
    case AtRow =>
    case AtProcessed => StepProcesses(cfg, s, l, m);
    case AtCopy(c) => PublishedCopy(cfg, s, l, c, m);
  }

  lemma PublishMovesToken(cfg: Config, s: State, l: Label, e: EventId, m: MessageId, o: OrderId, t: Token)
    requires RelaySound(cfg, s) && KeysExclusive(s) && EventsUnique(s.outbox)
    requires Enabled(cfg, s, l) && l.PublishEvent? && ProcessEventOf(s.outbox, e, m, o) && OnlyToken(s, e, m, t)
    ensures OnlyToken(Next(cfg, s, l), e, m, NextToken(s, l, e, m, t))
  {
    RowToken(cfg, s, l, e, m);
    PublishedEventIs(s, l, e, m, o);
    if CurrentEvent(s, l.tick) == e {
      StepAnswers(cfg, s, l, e);
      AnsweredOnce(cfg, Next(cfg, s, l), e) by {
        RelayStaysSound(cfg, s, l);
      }
      assert Answered(s, e) == 0 && Holds(s, e, m, AtRow);
    }
    forall u ensures Holds(Next(cfg, s, l), e, m, u) <==> u == NextToken(s, l, e, m, t) {
      assert Holds(s, e, m, u) ==> u == t;
      PublishedToken(cfg, s, l, e, m, t, u);
    }
  }

  lemma OtherToken(cfg: Config, s: State, l: Label, e: EventId, m: MessageId, u: Token)
    requires RelaySound(cfg, s) && Owned(s, m) && DeliveriesMatch(s) && KeysExclusive(s) && e in s.outbox
    requires Enabled(cfg, s, l) && !Strikes(s, l, e, m) && !Finishes(s, l) && !l.PublishEvent?
    ensures Holds(Next(cfg, s, l), e, m, u) <==> Holds(s, e, m, u)
  {
    match u
    case AtRow => RowToken(cfg, s, l, e, m);
    case AtProcessed => StepProcesses(cfg, s, l, m);
    case AtCopy(c) => OtherCopy(cfg, s, l, e, c, m);
  }

  lemma OtherStepKeepsToken(cfg: Config, s: State, l: Label, e: EventId, m: MessageId, t: Token)
    requires RelaySound(cfg, s) && Owned(s, m) && DeliveriesMatch(s) && KeysExclusive(s) && e in s.outbox
    requires Enabled(cfg, s, l) && !Strikes(s, l, e, m) && !Finishes(s, l) && !l.PublishEvent?
    requires OnlyToken(s, e, m, t)
    ensures NextToken(s, l, e, m, t) == t && OnlyToken(Next(cfg, s, l), e, m, t)
  {
    forall u ensures Holds(Next(cfg, s, l), e, m, u) <==> u == t {
      assert Holds(s, e, m, u) ==> u == t;
      OtherToken(cfg, s, l, e, m, u);
    }
  }

  lemma StepMovesToken(cfg: Config, s: State, l: Label, e: EventId, m: MessageId, o: OrderId, t: Token)
    requires Sound(cfg, s) && Owned(s, m) && Enabled(cfg, s, l) && !Strikes(s, l, e, m)
    requires ProcessEventOf(s.outbox, e, m, o) && OnlyToken(s, e, m, t)
    ensures OnlyToken(Next(cfg, s, l), e, m, NextToken(s, l, e, m, t))
  {
    if l.PublishEvent? {
      PublishMovesToken(cfg, s, l, e, m, o, t);
    } else if Finishes(s, l) {
      FinishMovesToken(cfg, s, l, e, m, t);
    } else {
      OtherStepKeepsToken(cfg, s, l, e, m, t);
    }
  }

  lemma CreatedToken(cfg: Config, s: State, l: Label)
    requires Sound(cfg, s) && Enabled(cfg, s, l) && l.Create?
    ensures OnlyToken(Next(cfg, s, l), l.processEvent, l.messageId, AtRow)
  {
    var s' := Next(cfg, s, l);
    assert forall t :: t in s.ticks ==> TickSound(cfg, s.outbox, s.ticks[t]);
    assert !InFlight(s', l.processEvent);
    forall c ensures !LiveCopy(s', c, l.messageId) {
      if c in s.copies {
        assert Known(s.outbox, s.copies[c].message.messageId, s.copies[c].message.orderId);
      }
    }
    forall m | m in s.processed ensures m != l.messageId {
      assert Known(s.outbox, m, s.processed[m]);
    }
  }

  // ---- the ledger of failures -----------------------------------------------------------------

  /** A failure already counted for the copy's present attempt. */
  ghost function FailedNow(s: State, c: CopyId): nat
    requires c in s.copies
  {
    var place := s.copies[c].place;
    One(place.InDlq? || (place.Unacked? && HandlerAt(s, place.holder, Caught)))
  }

  /** `failures` handler runs have failed; the token's place says so too. */
  ghost predicate Ledger(cfg: Config, s: State, t: Token, failures: nat) {
    match t
    case AtRow => failures == 0
    case AtProcessed => failures < cfg.maxAttempts
    case AtCopy(c) =>
      && c in s.copies && s.copies[c].message.attempt + FailedNow(s, c) == failures + 1
      && s.copies[c].message.attempt <= cfg.maxAttempts
      && (s.copies[c].place.InDlq? ==> failures == cfg.maxAttempts)
  }

  ghost predicate FirstAttempts(s: State) {
    forall e :: e in s.outbox && s.outbox[e].payload.ProcessRequested? ==>
      s.outbox[e].payload.message.attempt == 1
  }

  lemma FirstAttemptsStay(cfg: Config, s: State, l: Label)
    requires FirstAttempts(s) && RelaySound(cfg, s) && Enabled(cfg, s, l)
    ensures FirstAttempts(Next(cfg, s, l))
  {
    PayloadsStay(cfg, s, l);
    if l.CommitTick? {
      assert TickSound(cfg, s.outbox, s.ticks[l.tick]);
    } else if !RelayLabel(l) {
      OtherStepsKeepOutbox(cfg, s, l);
    }
  }

  lemma PublishKeepsLedger(cfg: Config, s: State, l: Label, e: EventId, m: MessageId, t: Token, failures: nat)
    requires FirstAttempts(s) && cfg.maxAttempts >= 1
    requires Enabled(cfg, s, l) && l.PublishEvent? && e in s.outbox && s.outbox[e].payload.ProcessRequested?
    requires Ledger(cfg, s, t, failures) && (CurrentEvent(s, l.tick) == e ==> t == AtRow)
    ensures Ledger(cfg, Next(cfg, s, l), NextToken(s, l, e, m, t), failures + One(Hit(s, l, HandlerFailed(m))))
  {}

  lemma CaughtStays(cfg: Config, s: State, l: Label, h: HandlerId)
    requires Enabled(cfg, s, l) && h in s.handlers
    requires (l.Throw? || l.PublishRetry? || l.PublishDlq? || l.PublishThrows? || l.AckThrows? || Leaves(l)) ==>
      l.handler != h
    ensures HandlerAt(Next(cfg, s, l), h, Caught) <==> HandlerAt(s, h, Caught)
  {}

  lemma FreeCopyStays(cfg: Config, s: State, l: Label, c: CopyId)
    requires DeliveriesMatch(s) && Enabled(cfg, s, l) && c in s.copies && !s.copies[c].place.Unacked?
    ensures c in Next(cfg, s, l).copies
    ensures FailedNow(Next(cfg, s, l), c) == FailedNow(s, c)
  {
    CopyStays(cfg, s, l, c);
  }

  lemma DeadStaysDead(cfg: Config, s: State, l: Label, c: CopyId)
    requires Enabled(cfg, s, l) && c in s.copies && c in Next(cfg, s, l).copies
    ensures Next(cfg, s, l).copies[c].place.InDlq? <==> s.copies[c].place.InDlq?
  {}

  /** Only its own handler's failure, or its own handler's publish, changes what a copy's place counts. */
  lemma FailedNowStays(cfg: Config, s: State, l: Label, e: EventId, m: MessageId, c: CopyId)
    requires Owned(s, m) && DeliveriesMatch(s) && Enabled(cfg, s, l) && !Strikes(s, l, e, m) && LiveCopy(s, c, m)
    requires l.Throw? || l.PublishRetry? || l.PublishDlq? ==> !InHand(s, l, m, AtCopy(c))
    ensures c in Next(cfg, s, l).copies && Next(cfg, s, l).copies[c].message == s.copies[c].message
    ensures FailedNow(Next(cfg, s, l), c) == FailedNow(s, c)
    ensures Next(cfg, s, l).copies[c].place.InDlq? <==> s.copies[c].place.InDlq?
  {
    if s.copies[c].place.Unacked? {
      var h := s.copies[c].place.holder;
      assert WorksOn(s, h, m) && s.handlers[h].copy == c;
      CaughtStays(cfg, s, l, h);
      StaysInHand(cfg, s, l, c);
    } else {
      FreeCopyStays(cfg, s, l, c);
    }
    CopyStays(cfg, s, l, c);
    DeadStaysDead(cfg, s, l, c);
  }

  lemma OwnStepKeepsLedger(cfg: Config, s: State, l: Label, e: EventId, m: MessageId, t: Token, failures: nat)
    requires cfg.maxAttempts >= 1 && Owned(s, m) && DeliveriesMatch(s) && Enabled(cfg, s, l)
    requires l.Throw? || l.PublishRetry? || l.PublishDlq? || l.Commit?
    requires InHand(s, l, m, t) && Ledger(cfg, s, t, failures)
    ensures Ledger(cfg, Next(cfg, s, l), NextToken(s, l, e, m, t), failures + One(l.Throw?))
  {
    assert OwnsDelivery(s, l.handler);
  }

  /** A failed run is counted; finishing, and every other step, keeps the account straight. */
  lemma StepKeepsLedger(cfg: Config, s: State, l: Label, e: EventId, m: MessageId, t: Token, failures: nat)
    requires cfg.maxAttempts >= 1 && Owned(s, m) && DeliveriesMatch(s)
    requires Enabled(cfg, s, l) && !Strikes(s, l, e, m) && !l.PublishEvent? && Holds(s, e, m, t)
    requires Ledger(cfg, s, t, failures)
    requires Hit(s, l, HandlerFailed(m)) ==> InHand(s, l, m, t)
    ensures Ledger(cfg, Next(cfg, s, l), NextToken(s, l, e, m, t), failures + One(Hit(s, l, HandlerFailed(m))))
  {
    if (l.Throw? || l.PublishRetry? || l.PublishDlq? || l.Commit?) && InHand(s, l, m, t) {
      OwnStepKeepsLedger(cfg, s, l, e, m, t, failures);
    } else if t.AtCopy? {
      FailedNowStays(cfg, s, l, e, m, t.copy);
    }
  }

  lemma PublishKeepsAccount(cfg: Config, s: State, l: Label, e: EventId, m: MessageId, t: Token, failures: nat)
    requires RelaySound(cfg, s) && FirstAttempts(s)
    requires cfg.maxAttempts >= 1 && Enabled(cfg, s, l) && l.PublishEvent?
    requires e in s.outbox && s.outbox[e].payload.ProcessRequested?
    requires OnlyToken(s, e, m, t) && Ledger(cfg, s, t, failures)
    ensures Ledger(cfg, Next(cfg, s, l), NextToken(s, l, e, m, t), failures + One(Hit(s, l, HandlerFailed(m))))
  {
    if CurrentEvent(s, l.tick) == e {
      PublishedFromRow(cfg, s, l, e, m);
    }
    PublishKeepsLedger(cfg, s, l, e, m, t, failures);
  }

  lemma StepKeepsAccount(cfg: Config, s: State, l: Label, e: EventId, m: MessageId, t: Token, failures: nat)
    requires Owned(s, m) && DeliveriesMatch(s) && cfg.maxAttempts >= 1
    requires Enabled(cfg, s, l) && !Strikes(s, l, e, m) && !l.PublishEvent?
    requires OnlyToken(s, e, m, t) && Ledger(cfg, s, t, failures)
    ensures Ledger(cfg, Next(cfg, s, l), NextToken(s, l, e, m, t), failures + One(Hit(s, l, HandlerFailed(m))))
  {
    if Hit(s, l, HandlerFailed(m)) {
      assert WorksOn(s, l.handler, m);
      assert Holds(s, e, m, AtCopy(s.handlers[l.handler].copy));
    }
    StepKeepsLedger(cfg, s, l, e, m, t, failures);
  }

  lemma AccountStays(cfg: Config, s: State, l: Label, e: EventId, m: MessageId, t: Token, failures: nat)
    requires RelaySound(cfg, s) && Owned(s, m) && DeliveriesMatch(s) && FirstAttempts(s)
    requires cfg.maxAttempts >= 1 && Enabled(cfg, s, l) && !Strikes(s, l, e, m)
    requires e in s.outbox && s.outbox[e].payload.ProcessRequested?
    requires OnlyToken(s, e, m, t) && Ledger(cfg, s, t, failures)
    ensures Ledger(cfg, Next(cfg, s, l), NextToken(s, l, e, m, t), failures + One(Hit(s, l, HandlerFailed(m))))
  {
    if l.PublishEvent? {
      PublishKeepsAccount(cfg, s, l, e, m, t, failures);
    } else {
      StepKeepsAccount(cfg, s, l, e, m, t, failures);
    }
  }

  lemma PublishedFromRow(cfg: Config, s: State, l: Label, e: EventId, m: MessageId)
    requires RelaySound(cfg, s) && Enabled(cfg, s, l) && Hit(s, l, EventPublished(e))
    ensures Holds(s, e, m, AtRow)
  {
    StepAnswers(cfg, s, l, e);
    RelayStaysSound(cfg, s, l);
    AnsweredOnce(cfg, Next(cfg, s, l), e);
  }

  // ---- runs -----------------------------------------------------------------------------------

  /** No fault of the run strikes this message, whatever happens to others. */
  ghost predicate Unstruck(cfg: Config, ls: seq<Label>, e: EventId, m: MessageId)
    requires Exec(cfg, ls).Some?
  {
    ls == [] ||
    (Unstruck(cfg, ls[..|ls| - 1], e, m) && !Strikes(Exec(cfg, ls[..|ls| - 1]).value, ls[|ls| - 1], e, m))
  }

  lemma {:induction false} RunsAreSound(cfg: Config, ls: seq<Label>)
    requires Exec(cfg, ls).Some?
    ensures Sound(cfg, Exec(cfg, ls).value) && FirstAttempts(Exec(cfg, ls).value)
  {
    RunsAreRelaySound(cfg, ls);
    RunsAreIdentitySound(cfg, ls);
    RunsAreCovered(cfg, ls);
    RunsAreOnceSound(cfg, ls);
    if ls != [] {
      RunsAreSound(cfg, ls[..|ls| - 1]);
      FirstAttemptsStay(cfg, Exec(cfg, ls[..|ls| - 1]).value, ls[|ls| - 1]);
    }
  }

  lemma {:induction false} UnstruckIsOwned(cfg: Config, ls: seq<Label>, e: EventId, m: MessageId)
    requires Exec(cfg, ls).Some? && Unstruck(cfg, ls, e, m)
    ensures Owned(Exec(cfg, ls).value, m)
  {
    if ls != [] {
      var before := ls[..|ls| - 1];
      UnstruckIsOwned(cfg, before, e, m);
      RunsAreCovered(cfg, before);
      StaysOwned(cfg, Exec(cfg, before).value, ls[|ls| - 1], e, m);
    }
  }

  /** Handler runs for a message that does not exist yet have not failed. */
  lemma {:induction false} NoEarlyFailures(cfg: Config, ls: seq<Label>, m: MessageId)
    requires Exec(cfg, ls).Some? && FreshMessageId(Exec(cfg, ls).value, m)
    ensures Count(cfg, ls, HandlerFailed(m)) == 0
  {
    if ls != [] {
      var before, l := ls[..|ls| - 1], ls[|ls| - 1];
      var s := Exec(cfg, before).value;
      RunsAreRelaySound(cfg, before);
      RunsAreIdentitySound(cfg, before);
      PayloadsStay(cfg, s, l);
      NoEarlyFailures(cfg, before, m);
      forall h | h in s.handlers ensures s.handlers[h].message.messageId != m {
        assert Known(s.outbox, s.handlers[h].message.messageId, s.handlers[h].message.orderId);
      }
    }
  }

  /**
   Whatever fails elsewhere, a process event no fault strikes is in exactly one place: its outbox row, one live
   copy or the dead-letter queue, or the processed table. A live copy's attempt is one more than the failed
   runs before it, never above the maximum; a dead-lettered message has failed the maximum.
   */
  lemma {:induction false} ExactlyOnePlace(cfg: Config, ls: seq<Label>, e: EventId, m: MessageId, o: OrderId)
    returns (t: Token)
    requires cfg.maxAttempts >= 1 && Exec(cfg, ls).Some? && Unstruck(cfg, ls, e, m)
    requires ProcessEventOf(Exec(cfg, ls).value.outbox, e, m, o)
    ensures OnlyToken(Exec(cfg, ls).value, e, m, t)
    ensures Ledger(cfg, Exec(cfg, ls).value, t, Count(cfg, ls, HandlerFailed(m)))
  {
    var before, l := ls[..|ls| - 1], ls[|ls| - 1];
    var s := Exec(cfg, before).value;
    RunsAreSound(cfg, before);
    if l.Create? && l.processEvent == e {
      CreateAddsEvent(cfg, s, l, e, m, o);
      CreatedToken(cfg, s, l);
      NoEarlyFailures(cfg, before, m);
      t := AtRow;
    } else {
      if l.Create? {
        CreateAddsEvent(cfg, s, l, e, m, o);
      } else {
        EventsStay(cfg, s, l, e, m, o);
      }
      var u := ExactlyOnePlace(cfg, before, e, m, o);
      UnstruckIsOwned(cfg, before, e, m);
      StepMovesToken(cfg, s, l, e, m, o, u);
      AccountStays(cfg, s, l, e, m, u, Count(cfg, before, HandlerFailed(m)));
      t := NextToken(s, l, e, m, u);
    }
  }

  ghost predicate DeadLettered(s: State, m: MessageId) {
    exists c :: c in s.copies && s.copies[c].message.messageId == m && s.copies[c].place.InDlq?
  }

  /** So no message is both dead-lettered and processed unless a fault has struck it. */
  lemma NeverDeadAndProcessed(cfg: Config, ls: seq<Label>, e: EventId, m: MessageId, o: OrderId)
    requires cfg.maxAttempts >= 1 && Exec(cfg, ls).Some? && Unstruck(cfg, ls, e, m)
    requires ProcessEventOf(Exec(cfg, ls).value.outbox, e, m, o)
    ensures !(DeadLettered(Exec(cfg, ls).value, m) && m in Exec(cfg, ls).value.processed)
  {
    var s := Exec(cfg, ls).value;
    var t := ExactlyOnePlace(cfg, ls, e, m, o);
    if DeadLettered(s, m) && m in s.processed {
      var c :| c in s.copies && s.copies[c].message.messageId == m && s.copies[c].place.InDlq?;
      assert Holds(s, e, m, AtCopy(c)) && Holds(s, e, m, AtProcessed);
    }
  }

  ghost predicate FaultFree(ls: seq<Label>) {
    forall i :: 0 <= i < |ls| ==> !Fault(ls[i])
  }

  lemma {:induction false} FaultFreeIsUnstruck(cfg: Config, ls: seq<Label>, e: EventId, m: MessageId)
    requires Exec(cfg, ls).Some? && FaultFree(ls)
    ensures Unstruck(cfg, ls, e, m)
  {
    if ls != [] {
      FaultFreeIsUnstruck(cfg, ls[..|ls| - 1], e, m);
    }
  }

  // ---- coming to rest -------------------------------------------------------------------------

  /** A throw the code does not ask for: a database error rather than the simulated one. */
  predicate DatabaseError(s: State, l: Label) {
    l.Throw? && !(l.handler in s.handlers && s.handlers[l.handler].pc.Inserted?
                  && s.handlers[l.handler].message.alwaysFail)
  }

  /** Nothing is left to do, short of waiting for a database error or a new request. */
  ghost predicate AtRest(cfg: Config, s: State) {
    forall l :: Productive(l) && Enabled(cfg, s, l) ==> DatabaseError(s, l)
  }

  lemma TickMoves(cfg: Config, s: State, t: TickId) returns (l: Label)
    requires t in s.ticks && TickSound(cfg, s.outbox, s.ticks[t])
    ensures Productive(l) && Enabled(cfg, s, l) && !l.Throw?
  {
    if s.ticks[t].next == |s.ticks[t].batch| {
      l := CommitTick(t);
    } else {
      assert s.ticks[t].batch[s.ticks[t].next] in s.ticks[t].batch;
      l := if s.ticks[t].pc.AtMark? then Mark(t, 0) else PublishEventThrows(t);
    }
  }

  /** An unsent row with attempts left can be claimed, or its tick can go on. */
  lemma RowMoves(cfg: Config, s: State, e: EventId, m: MessageId) returns (l: Label)
    requires RelaySound(cfg, s) && cfg.batchSize >= 1 && Holds(s, e, m, AtRow)
    requires s.outbox[e].attempts < cfg.maxAttempts
    ensures Productive(l) && Enabled(cfg, s, l) && !l.Throw?
  {
    if e in s.locks {
      assert TickSound(cfg, s.outbox, s.ticks[s.locks[e]]);
      l := TickMoves(cfg, s, s.locks[e]);
    } else {
      FreshNat(s.ticks.Keys);
      var t: TickId :| t !in s.ticks;
      l := Claim(t, [e], if s.outbox[e].nextRetryAt == None then 0 else s.outbox[e].nextRetryAt.value);
    }
  }

  /** No other open transaction holds the key of a live copy's message. */
  lemma KeyIsFree(s: State, e: EventId, m: MessageId, c: CopyId)
    requires Owned(s, m) && DeliveriesMatch(s) && OnlyToken(s, e, m, AtCopy(c))
    requires s.copies[c].place.Unacked?
    ensures KeyFree(s, s.copies[c].place.holder) && m !in s.processed
  {
    var h := s.copies[c].place.holder;
    forall g | g in s.handlers && g != h && HoldsKey(s.handlers[g])
      ensures s.handlers[g].message.messageId != s.handlers[h].message.messageId
    {
      if WorksOn(s, g, m) {
        assert OwnsDelivery(s, g) && LiveCopy(s, s.handlers[g].copy, m);
        assert Holds(s, e, m, AtCopy(s.handlers[g].copy));
      }
    }
    assert m in s.processed ==> Holds(s, e, m, AtProcessed);
  }

  lemma RowIsFree(s: State, h: HandlerId)
    requires KeysExclusive(s) && IdentitySound(s) && h in s.handlers && s.handlers[h].pc.Inserted?
    ensures RowFree(s, s.handlers[h].message.orderId)
  {
    forall g | g in s.handlers && s.handlers[g].pc.Updated?
      ensures s.handlers[g].message.orderId != s.handlers[h].message.orderId
    {
      UpdatesDisjoint(s, h, g);
    }
  }

  lemma OrderExists(s: State, h: HandlerId)
    requires IdentitySound(s) && h in s.handlers
    ensures s.handlers[h].message.orderId in s.orders
  {
    assert Known(s.outbox, s.handlers[h].message.messageId, s.handlers[h].message.orderId);
  }

  lemma TransactionMoves(cfg: Config, s: State, h: HandlerId) returns (l: Label)
    requires KeysExclusive(s) && IdentitySound(s) && h in s.handlers && InTransaction(s.handlers[h])
    requires s.handlers[h].pc.Start? ==> KeyFree(s, h)
    ensures Productive(l) && Enabled(cfg, s, l) && !DatabaseError(s, l)
  {
    OrderExists(s, h);
    if s.handlers[h].pc.Start? {
      l := Insert(h);
    } else if s.handlers[h].pc.Inserted? {
      RowIsFree(s, h);
      l := if s.handlers[h].message.alwaysFail then Throw(h) else Update(h, 0);
    } else {
      l := Commit(h);
    }
  }

  /** A handler with a live copy never waits: its next statement is enabled. */
  lemma HandlerMoves(cfg: Config, s: State, e: EventId, m: MessageId, c: CopyId) returns (l: Label)
    requires KeysExclusive(s) && IdentitySound(s) && Owned(s, m) && DeliveriesMatch(s)
    requires OnlyToken(s, e, m, AtCopy(c)) && s.copies[c].place.Unacked?
    ensures Productive(l) && Enabled(cfg, s, l) && !DatabaseError(s, l)
  {
    var h := s.copies[c].place.holder;
    if InTransaction(s.handlers[h]) {
      KeyIsFree(s, e, m, c);
      l := TransactionMoves(cfg, s, h);
    } else if s.handlers[h].pc.Caught? {
      FreshNat(s.copies.Keys);
      var d: CopyId :| d !in s.copies;
      l := if s.handlers[h].message.attempt < cfg.maxAttempts then PublishRetry(h, d) else PublishDlq(h, d);
    } else {
      l := Ack(h);
    }
  }

  /** There is always a delivery tag nothing still stands for. */
  lemma FreshDelivery(s: State) returns (h: HandlerId)
    ensures FreshHandler(s, h)
  {
    var holders := set c | c in s.copies && s.copies[c].place.Unacked? :: s.copies[c].place.holder;
    FreshNat(s.handlers.Keys + holders);
    h :| h !in s.handlers.Keys + holders;
    assert forall c :: c in s.copies && s.copies[c].place.Unacked? ==> s.copies[c].place.holder in holders;
  }

  lemma CopyMoves(cfg: Config, s: State, e: EventId, m: MessageId, c: CopyId) returns (l: Label)
    requires Sound(cfg, s) && Owned(s, m) && OnlyToken(s, e, m, AtCopy(c)) && !s.copies[c].place.InDlq?
    ensures Productive(l) && Enabled(cfg, s, l) && !DatabaseError(s, l)
  {
    match s.copies[c].place
    case InRetry(_) => l := Expire(c);
    case Unacked(_) => l := HandlerMoves(cfg, s, e, m, c);
    case Ready =>
      var h := FreshDelivery(s);
      l := Deliver(c, h);
  }

  /**
   Where a run comes to rest, every event no fault has struck has ended in exactly one of three ways: its
   message was processed, it failed the maximum and lies in the dead-letter queue, or its row has used
   up the relay's attempts.
   */
  lemma RestsSettled(cfg: Config, ls: seq<Label>, e: EventId, m: MessageId, o: OrderId) returns (t: Token)
    requires cfg.maxAttempts >= 1 && cfg.batchSize >= 1 && Exec(cfg, ls).Some? && Unstruck(cfg, ls, e, m)
    requires ProcessEventOf(Exec(cfg, ls).value.outbox, e, m, o) && AtRest(cfg, Exec(cfg, ls).value)
    ensures OnlyToken(Exec(cfg, ls).value, e, m, t)
    ensures match t
      case AtProcessed => Count(cfg, ls, HandlerFailed(m)) < cfg.maxAttempts
      case AtCopy(c) => Exec(cfg, ls).value.copies[c].place.InDlq?
                        && Count(cfg, ls, HandlerFailed(m)) == cfg.maxAttempts
      case AtRow => Count(cfg, ls, FailureCommitted(e)) == cfg.maxAttempts
  {
    var s := Exec(cfg, ls).value;
    RunsAreSound(cfg, ls);
    UnstruckIsOwned(cfg, ls, e, m);
    AttemptsCountFailures(cfg, ls, e);
    t := ExactlyOnePlace(cfg, ls, e, m, o);
    if t == AtRow && s.outbox[e].attempts < cfg.maxAttempts {
      var l := RowMoves(cfg, s, e, m);
      assert false;
    } else if t.AtCopy? && !s.copies[t.copy].place.InDlq? {
      var l := CopyMoves(cfg, s, e, m, t.copy);
      assert false;
    }
  }
}
