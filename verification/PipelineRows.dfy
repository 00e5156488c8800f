/** What the steps write, field by field, and how long a failed event is left alone. */
module PipelineRows {
  import opened Wrappers
  import opened PipelineModel
  import opened PipelineRelay
  import BackOff

  // ---- single steps in full -------------------------------------------------------------------

  /** A create inserts a PENDING order and two PENDING events that are due at once, the message on its first attempt. */
  lemma CreateInFull(cfg: Config, s: State, l: Label)
    requires Enabled(cfg, s, l) && l.Create?
    ensures Next(cfg, s, l)
         == s.(orders := s.orders[l.order := Order(Pending, 0, None)],
               outbox := s.outbox[l.processEvent := Event(ProcessRequested(Message(l.messageId, l.order, 1, l.alwaysFail)),
                                                          EventPending, 0, Some(l.at), l.at)]
                                 [l.placedEvent := Event(OrderPlaced(l.order), EventPending, 0, Some(l.at), l.at)])
  {}

  /** A status update counts the version up by one and leaves processed_at. */
  lemma StatusUpdateInFull(cfg: Config, s: State, l: Label)
    requires Enabled(cfg, s, l) && l.UpdateStatus?
    ensures l.order in s.orders
    ensures var row := s.orders[l.order];
      Next(cfg, s, l) == s.(orders := s.orders[l.order := Order(l.status, row.statusVersion + 1, row.processedAt)])
  {}

  /** After a failed attempt: the next one, to wait for the delay of the one that failed; after the last, a dead letter. */
  lemma RepublishInFull(cfg: Config, s: State, l: Label)
    requires Enabled(cfg, s, l) && (l.PublishRetry? || l.PublishDlq?)
    ensures var m := s.handlers[l.handler].message; var copies := Next(cfg, s, l).copies;
      && l.copy !in s.copies && l.copy in copies && copies == s.copies[l.copy := copies[l.copy]]
      && (l.PublishRetry? <==> m.attempt < cfg.maxAttempts)
      && copies[l.copy] == if m.attempt < cfg.maxAttempts
                           then Copy(Message(m.messageId, m.orderId, m.attempt + 1, m.alwaysFail),
                                     InRetry(BackOff.Delay(m.attempt, cfg.retryDelayMs)))
                           else Copy(m, InDlq)
  {}

  /** One event's row as the tick marks it. */
  predicate MarkedRow(cfg: Config, before: Event, published: bool, clock: int, after: Event) {
    if published then after == Event(before.payload, EventSent, before.attempts, before.nextRetryAt, before.createdAt)
    else after == Event(before.payload, EventFailed, before.attempts + 1,
                        Some(clock + BackOff.Delay(before.attempts + 1, cfg.retryDelayMs)), before.createdAt)
  }

  lemma MarkInFull(cfg: Config, s: State, l: Label)
    requires Enabled(cfg, s, l) && l.Mark?
    ensures var e, tick := CurrentEvent(s, l.tick), s.ticks[l.tick];
      && Next(cfg, s, l).ticks.Keys == s.ticks.Keys && tick.pc.AtMark?
      && var tick' := Next(cfg, s, l).ticks[l.tick];
        && Next(cfg, s, l) == s.(ticks := s.ticks[l.tick := tick'])
        && e in tick'.writes && tick'.writes == tick.writes[e := tick'.writes[e]]
        && MarkedRow(cfg, s.outbox[e], tick.pc.published, l.clock, tick'.writes[e])
  {}

  // ---- in any run a FAILED row's next time comes from the mark that failed it -----------------

  /** Step `i` of the run marks `e` as failed, with the clock at `clock`. */
  ghost predicate MarksFailed(cfg: Config, ls: seq<Label>, i: nat, e: EventId, clock: int) {
    && i < |ls| && ls[i].Mark? && ls[i].clock == clock && Exec(cfg, ls[..i]).Some?
    && var s := Exec(cfg, ls[..i]).value;
      TickAt(s, ls[i].tick, true) && CurrentEvent(s, ls[i].tick) == e && !s.ticks[ls[i].tick].pc.published
  }

  /** If the row is FAILED, its next time is the delay of its attempts after such a step. */
  ghost predicate Explained(cfg: Config, ls: seq<Label>, e: EventId, row: Event) {
    row.status == EventFailed ==>
      exists i: nat, clock ::
        && MarksFailed(cfg, ls, i, e, clock) && row.attempts >= 1
        && row.nextRetryAt == Some(clock + BackOff.Delay(row.attempts, cfg.retryDelayMs))
  }

  ghost predicate AllExplained(cfg: Config, ls: seq<Label>, rows: map<EventId, Event>) {
    forall e :: e in rows ==> Explained(cfg, ls, e, rows[e])
  }

  ghost predicate TicksExplained(cfg: Config, ls: seq<Label>, ticks: map<TickId, Tick>) {
    forall t :: t in ticks ==> AllExplained(cfg, ls, ticks[t].writes)
  }

  lemma StillExplained(cfg: Config, ls: seq<Label>, e: EventId, row: Event)
    requires ls != [] && Explained(cfg, ls[..|ls| - 1], e, row)
    ensures Explained(cfg, ls, e, row)
  {
    if row.status == EventFailed {
      var front := ls[..|ls| - 1];
      var i: nat, clock :| MarksFailed(cfg, front, i, e, clock) && row.attempts >= 1
        && row.nextRetryAt == Some(clock + BackOff.Delay(row.attempts, cfg.retryDelayMs));
      assert front[..i] == ls[..i];
      assert MarksFailed(cfg, ls, i, e, clock);
    }
  }

  lemma MarkExplains(cfg: Config, ls: seq<Label>, t: TickId, clock: int)
    requires ls != [] && ls[|ls| - 1] == Mark(t, clock) && Exec(cfg, ls).Some?
    ensures var s := Exec(cfg, ls[..|ls| - 1]).value; var e := CurrentEvent(s, t);
      && t in Exec(cfg, ls).value.ticks && e in Exec(cfg, ls).value.ticks[t].writes
      && Explained(cfg, ls, e, Exec(cfg, ls).value.ticks[t].writes[e])
  {
    var s := Exec(cfg, ls[..|ls| - 1]).value;
    MarkInFull(cfg, s, ls[|ls| - 1]);
    if !s.ticks[t].pc.published {
      assert MarksFailed(cfg, ls, |ls| - 1, CurrentEvent(s, t), clock);
    }
  }

  /** Which rows a step brings: a tick's own new write, a create's, or the writes of the tick it commits. */
  lemma WritesComeFrom(cfg: Config, s: State, l: Label, t: TickId, e: EventId)
    requires Enabled(cfg, s, l) && t in Next(cfg, s, l).ticks && e in Next(cfg, s, l).ticks[t].writes
    ensures (t in s.ticks && e in s.ticks[t].writes && s.ticks[t].writes[e] == Next(cfg, s, l).ticks[t].writes[e])
            || (l.Mark? && l.tick == t && TickAt(s, t, true) && CurrentEvent(s, t) == e)
  {
    if !RelayLabel(l) {
      OtherStepsKeepOutbox(cfg, s, l);
    }
  }

  lemma RowsComeFrom(cfg: Config, s: State, l: Label, e: EventId)
    requires Enabled(cfg, s, l) && e in Next(cfg, s, l).outbox
    ensures var row := Next(cfg, s, l).outbox[e];
      || (e in s.outbox && row == s.outbox[e])
      || (l.Create? && row.status == EventPending)
      || (l.CommitTick? && l.tick in s.ticks && e in s.ticks[l.tick].writes && row == s.ticks[l.tick].writes[e])
  {
    if l.PublishEvent? || l.PublishEventThrows? || l.Mark? {
      StepInTickEffect(cfg, s, l);
    } else if !RelayLabel(l) {
      OtherStepsKeepOutbox(cfg, s, l);
    }
  }

  lemma {:induction false} RowsExplained(cfg: Config, ls: seq<Label>)
    requires Exec(cfg, ls).Some?
    ensures var s := Exec(cfg, ls).value;
      AllExplained(cfg, ls, s.outbox) && TicksExplained(cfg, ls, s.ticks)
  {
    if ls != [] {
      var front, l := ls[..|ls| - 1], ls[|ls| - 1];
      var s, s' := Exec(cfg, front).value, Exec(cfg, ls).value;
      RowsExplained(cfg, front);
      forall e | e in s'.outbox ensures Explained(cfg, ls, e, s'.outbox[e]) {
        RowsComeFrom(cfg, s, l, e);
        if s'.outbox[e].status == EventFailed {
          StillExplained(cfg, ls, e, s'.outbox[e]);
        }
      }
      forall t | t in s'.ticks ensures AllExplained(cfg, ls, s'.ticks[t].writes) {
        forall e | e in s'.ticks[t].writes ensures Explained(cfg, ls, e, s'.ticks[t].writes[e]) {
          WriteStaysExplained(cfg, ls, t, e);
        }
      }
    }
  }

  lemma WriteStaysExplained(cfg: Config, ls: seq<Label>, t: TickId, e: EventId)
    requires ls != [] && Exec(cfg, ls).Some?
    requires t in Exec(cfg, ls).value.ticks && e in Exec(cfg, ls).value.ticks[t].writes
    requires TicksExplained(cfg, ls[..|ls| - 1], Exec(cfg, ls[..|ls| - 1]).value.ticks)
    ensures Explained(cfg, ls, e, Exec(cfg, ls).value.ticks[t].writes[e])
  {
    var s, l := Exec(cfg, ls[..|ls| - 1]).value, ls[|ls| - 1];
    WritesComeFrom(cfg, s, l, t, e);
    if l.Mark? && l.tick == t && TickAt(s, t, true) && CurrentEvent(s, t) == e {
      MarkExplains(cfg, ls, t, l.clock);
    } else {
      StillExplained(cfg, ls, e, s.ticks[t].writes[e]);
    }
  }

  /**
     In any run a FAILED row was failed by some mark of its event, and its next time is that mark's clock and the delay
     of its number of attempts.
   */
  lemma FailedRowsWait(cfg: Config, ls: seq<Label>, e: EventId)
    requires Exec(cfg, ls).Some? && e in Exec(cfg, ls).value.outbox
    requires Exec(cfg, ls).value.outbox[e].status == EventFailed
    ensures var row := Exec(cfg, ls).value.outbox[e];
      && row.attempts >= 1
      && exists i: nat, clock ::
           MarksFailed(cfg, ls, i, e, clock)
           && row.nextRetryAt == Some(clock + BackOff.Delay(row.attempts, cfg.retryDelayMs))
  {
    RowsExplained(cfg, ls);
    assert Explained(cfg, ls, e, Exec(cfg, ls).value.outbox[e]);
  }

  // ---- a failed event is left alone until its time --------------------------------------------

  /** No claim of the run looks at the clock at or after `due`. */
  predicate AllEarlier(more: seq<Label>, due: int) {
    forall i :: 0 <= i < |more| && more[i].Claim? ==> more[i].now < due
  }

  lemma ClaimNeedsDue(cfg: Config, s: State, l: Label, e: EventId)
    requires Enabled(cfg, s, l) && l.Claim? && e in l.batch
    ensures e in s.outbox && (s.outbox[e].nextRetryAt.Some? ==> s.outbox[e].nextRetryAt.value <= l.now)
  {}

  lemma UnlockedRowStays(cfg: Config, s: State, l: Label, e: EventId)
    requires RelaySound(cfg, s) && Enabled(cfg, s, l) && e in s.outbox && e !in s.locks
    requires l.Claim? ==> e !in l.batch
    ensures e in Next(cfg, s, l).outbox && Next(cfg, s, l).outbox[e] == s.outbox[e] && e !in Next(cfg, s, l).locks
  {
    if l.CommitTick? || l.RollbackTick? {
      assert TickSound(cfg, s.outbox, s.ticks[l.tick]);
      EndTickEffect(cfg, s, l, e);
    } else if l.PublishEvent? || l.PublishEventThrows? || l.Mark? {
      StepInTickEffect(cfg, s, l);
    } else if !RelayLabel(l) {
      OtherStepsKeepOutbox(cfg, s, l);
    }
  }

  /**
     From any reachable state: as long as no claim's clock has reached an unlocked row's next time, whatever else the
     run does, its event is not claimed again and its row stays as it is.
   */
  lemma {:induction false} LeftAloneUntilDue(cfg: Config, ls: seq<Label>, more: seq<Label>, e: EventId, due: int)
    requires Exec(cfg, ls).Some? && Exec(cfg, ls + more).Some? && AllEarlier(more, due)
    requires var s := Exec(cfg, ls).value; e in s.outbox && e !in s.locks && s.outbox[e].nextRetryAt == Some(due)
    ensures var s, after := Exec(cfg, ls).value, Exec(cfg, ls + more).value;
      e in after.outbox && after.outbox[e] == s.outbox[e] && e !in after.locks
    ensures forall i :: 0 <= i < |more| && more[i].Claim? ==> e !in more[i].batch
    decreases |more|
  {
    if more == [] {
      assert ls + more == ls;
    } else {
      var front, l := more[..|more| - 1], more[|more| - 1];
      assert (ls + more)[..|ls + more| - 1] == ls + front;
      LeftAloneUntilDue(cfg, ls, front, e, due);
      var s := Exec(cfg, ls + front).value;
      RunsAreRelaySound(cfg, ls + front);
      if l.Claim? && e in l.batch {
        ClaimNeedsDue(cfg, s, l, e);
      }
      UnlockedRowStays(cfg, s, l, e);
    }
  }
}
