/** What the row locks give the relay: disjoint batches, terminal SENT, counted attempts and enqueues. */
module PipelineRelay {
  import opened Wrappers
  import opened PipelineModel

  /** `after` is `before` as markSent or markFailed leaves it. */
  ghost predicate Marked(before: Event, after: Event) {
    || after == Sent(before)
    || (after.status == EventFailed && after.attempts == before.attempts + 1
        && after.payload == before.payload && after.createdAt == before.createdAt)
  }

  ghost predicate TickSound(cfg: Config, outbox: map<EventId, Event>, tick: Tick) {
    && tick.next <= |tick.batch|
    && (tick.pc.AtMark? ==> tick.next < |tick.batch|)
    && (forall i, j :: 0 <= i < j < |tick.batch| ==> tick.batch[i] != tick.batch[j])
    && (forall e :: e in tick.batch ==>
          e in outbox && outbox[e].status != EventSent && outbox[e].attempts < cfg.maxAttempts)
    && (forall i :: 0 <= i < tick.next ==> tick.batch[i] in tick.writes)
    && (forall i :: tick.next <= i < |tick.batch| ==> tick.batch[i] !in tick.writes)
    && (forall e :: e in tick.writes ==> e in tick.batch && e in outbox && Marked(outbox[e], tick.writes[e]))
  }

  ghost predicate LocksSound(locks: map<EventId, TickId>, ticks: map<TickId, Tick>) {
    && (forall t, e :: t in ticks && e in ticks[t].batch ==> e in locks && locks[e] == t)
    && (forall e :: e in locks ==> locks[e] in ticks && e in ticks[locks[e]].batch)
  }

  ghost predicate AttemptsBounded(cfg: Config, outbox: map<EventId, Event>) {
    forall e :: e in outbox ==> outbox[e].attempts <= cfg.maxAttempts
  }

  ghost predicate RelaySound(cfg: Config, s: State) {
    && LocksSound(s.locks, s.ticks)
    && (forall t :: t in s.ticks ==> TickSound(cfg, s.outbox, s.ticks[t]))
    && AttemptsBounded(cfg, s.outbox)
  }

  predicate RelayLabel(l: Label) {
    l.Claim? || l.PublishEvent? || l.PublishEventThrows? || l.Mark? || l.CommitTick? || l.RollbackTick?
  }

  /** Workers and the broker never touch the outbox, its locks or an open tick. */
  lemma OtherStepsKeepOutbox(cfg: Config, s: State, l: Label)
    requires Enabled(cfg, s, l) && !RelayLabel(l)
    ensures Next(cfg, s, l).ticks == s.ticks && Next(cfg, s, l).locks == s.locks
    ensures !l.Create? ==> Next(cfg, s, l).outbox == s.outbox
  {}

  /** Rows are never deleted and their payloads never change. */
  lemma PayloadsStay(cfg: Config, s: State, l: Label)
    requires RelaySound(cfg, s) && Enabled(cfg, s, l)
    ensures forall e :: e in s.outbox ==>
      && e in Next(cfg, s, l).outbox
      && Next(cfg, s, l).outbox[e].payload == s.outbox[e].payload
      && Next(cfg, s, l).outbox[e].createdAt == s.outbox[e].createdAt
  {
    if l.CommitTick? {
      assert TickSound(cfg, s.outbox, s.ticks[l.tick]);
    } else if !RelayLabel(l) {
      OtherStepsKeepOutbox(cfg, s, l);
    }
  }

  lemma LocksAfterClaim(locks: map<EventId, TickId>, ticks: map<TickId, Tick>, t: TickId, tick: Tick)
    requires LocksSound(locks, ticks) && t !in ticks && forall e :: e in tick.batch ==> e !in locks
    ensures LocksSound(locks + (map e | e in tick.batch :: t), ticks[t := tick])
  {}

  lemma LocksAfterProgress(locks: map<EventId, TickId>, ticks: map<TickId, Tick>, t: TickId, tick: Tick)
    requires LocksSound(locks, ticks) && t in ticks && tick.batch == ticks[t].batch
    ensures LocksSound(locks, ticks[t := tick])
  {}

  lemma LocksAfterEnd(locks: map<EventId, TickId>, ticks: map<TickId, Tick>, t: TickId)
    requires LocksSound(locks, ticks) && t in ticks
    ensures LocksSound(locks - (set e | e in ticks[t].batch), ticks - {t})
    ensures forall u, e :: u in ticks && u != t && e in ticks[u].batch ==> e !in ticks[t].batch
  {
    forall u, e | u in ticks && u != t && e in ticks[u].batch ensures e !in ticks[t].batch {
      assert locks[e] == u;
    }
    var rest := locks - (set e | e in ticks[t].batch);
    forall e | e in rest ensures rest[e] in ticks - {t} && e in ticks[rest[e]].batch {
      assert rest[e] == locks[e];
    }
  }

  lemma MarkStaysSound(cfg: Config, outbox: map<EventId, Event>, tick: Tick, row: Event)
    requires TickSound(cfg, outbox, tick) && tick.next < |tick.batch|
    requires Marked(outbox[tick.batch[tick.next]], row)
    ensures TickSound(cfg, outbox, Tick(tick.batch, tick.next + 1, AtPublish,
                                        tick.writes[tick.batch[tick.next] := row]))
  {}

  lemma ClaimStaysSound(cfg: Config, s: State, l: Label)
    requires RelaySound(cfg, s) && Enabled(cfg, s, l) && l.Claim?
    ensures RelaySound(cfg, Next(cfg, s, l))
  {
    var tick := Tick(l.batch, 0, AtPublish, map[]);
    LocksAfterClaim(s.locks, s.ticks, l.tick, tick);
    assert TickSound(cfg, s.outbox, tick);
  }

  lemma StepInTickEffect(cfg: Config, s: State, l: Label)
    requires Enabled(cfg, s, l) && (l.PublishEvent? || l.PublishEventThrows? || l.Mark?)
    ensures Next(cfg, s, l).outbox == s.outbox && Next(cfg, s, l).locks == s.locks
    ensures l.tick in s.ticks && l.tick in Next(cfg, s, l).ticks
    ensures Next(cfg, s, l).ticks == s.ticks[l.tick := Next(cfg, s, l).ticks[l.tick]]
    ensures Next(cfg, s, l).ticks[l.tick].batch == s.ticks[l.tick].batch
  {}

  lemma StepInTickStaysSound(cfg: Config, s: State, l: Label)
    requires RelaySound(cfg, s) && Enabled(cfg, s, l)
    requires l.PublishEvent? || l.PublishEventThrows? || l.Mark?
    ensures RelaySound(cfg, Next(cfg, s, l))
  {
    StepInTickEffect(cfg, s, l);
    var tick, after := s.ticks[l.tick], Next(cfg, s, l).ticks[l.tick];
    if l.Mark? {
      MarkStaysSound(cfg, s.outbox, tick, after.writes[CurrentEvent(s, l.tick)]);
    }
    assert TickSound(cfg, s.outbox, after) by {
      assert TickSound(cfg, s.outbox, tick);
    }
    LocksAfterProgress(s.locks, s.ticks, l.tick, after);
  }

  lemma CommitKeepsOtherTick(cfg: Config, outbox: map<EventId, Event>, tick: Tick, other: Tick)
    requires TickSound(cfg, outbox, tick) && TickSound(cfg, outbox, other)
    requires forall e :: e in other.batch ==> e !in tick.batch
    ensures TickSound(cfg, outbox + tick.writes, other)
  {
    assert forall e :: e in other.batch ==> e !in tick.writes;
    assert forall e :: e in other.writes ==> e in other.batch;
  }

  lemma EndTickStaysSound(cfg: Config, s: State, l: Label)
    requires RelaySound(cfg, s) && Enabled(cfg, s, l) && (l.CommitTick? || l.RollbackTick?)
    ensures RelaySound(cfg, Next(cfg, s, l))
  {
    var s' := Next(cfg, s, l);
    var tick := s.ticks[l.tick];
    assert TickSound(cfg, s.outbox, tick);
    LocksAfterEnd(s.locks, s.ticks, l.tick);
    forall t | t in s'.ticks ensures TickSound(cfg, s'.outbox, s'.ticks[t]) {
      if l.CommitTick? {
        CommitKeepsOtherTick(cfg, s.outbox, tick, s.ticks[t]);
      }
    }
    assert AttemptsBounded(cfg, s'.outbox);
  }

  lemma RelayStaysSound(cfg: Config, s: State, l: Label)
    requires RelaySound(cfg, s) && Enabled(cfg, s, l)
    ensures RelaySound(cfg, Next(cfg, s, l))
  {
    if l.Claim? {
      ClaimStaysSound(cfg, s, l);
    } else if l.CommitTick? || l.RollbackTick? {
      EndTickStaysSound(cfg, s, l);
    } else if RelayLabel(l) {
      StepInTickStaysSound(cfg, s, l);
    } else {
      OtherStepsStaySound(cfg, s, l);
    }
  }

  lemma OtherStepsStaySound(cfg: Config, s: State, l: Label)
    requires RelaySound(cfg, s) && Enabled(cfg, s, l) && !RelayLabel(l)
    ensures RelaySound(cfg, Next(cfg, s, l))
  {
    var s' := Next(cfg, s, l);
    OtherStepsKeepOutbox(cfg, s, l);
    forall t | t in s.ticks ensures TickSound(cfg, s'.outbox, s.ticks[t]) {
      assert TickSound(cfg, s.outbox, s.ticks[t]);
    }
  }

  lemma {:induction false} RunsAreRelaySound(cfg: Config, ls: seq<Label>)
    requires Exec(cfg, ls).Some?
    ensures RelaySound(cfg, Exec(cfg, ls).value)
  {
    if ls != [] {
      RunsAreRelaySound(cfg, ls[..|ls| - 1]);
      RelayStaysSound(cfg, Exec(cfg, ls[..|ls| - 1]).value, ls[|ls| - 1]);
    }
  }

  // ---- exclusivity ----------------------------------------------------------------------------

  lemma OpenBatchesDisjoint(cfg: Config, ls: seq<Label>, t: TickId, u: TickId)
    requires Exec(cfg, ls).Some?
    requires t in Exec(cfg, ls).value.ticks && u in Exec(cfg, ls).value.ticks && t != u
    ensures forall e :: e in Exec(cfg, ls).value.ticks[t].batch ==> e !in Exec(cfg, ls).value.ticks[u].batch
  {
    RunsAreRelaySound(cfg, ls);
    LocksAfterEnd(Exec(cfg, ls).value.locks, Exec(cfg, ls).value.ticks, u);
  }

  lemma SentIsTerminal(cfg: Config, ls: seq<Label>, l: Label, e: EventId)
    requires Exec(cfg, ls).Some? && Enabled(cfg, Exec(cfg, ls).value, l)
    requires e in Exec(cfg, ls).value.outbox && Exec(cfg, ls).value.outbox[e].status == EventSent
    ensures e in Next(cfg, Exec(cfg, ls).value, l).outbox
    ensures Next(cfg, Exec(cfg, ls).value, l).outbox[e] == Exec(cfg, ls).value.outbox[e]
  {
    var s := Exec(cfg, ls).value;
    RunsAreRelaySound(cfg, ls);
    if l.CommitTick? {
      assert TickSound(cfg, s.outbox, s.ticks[l.tick]);
    } else if l.PublishEvent? || l.PublishEventThrows? || l.Mark? {
      StepInTickEffect(cfg, s, l);
    } else if !RelayLabel(l) {
      OtherStepsKeepOutbox(cfg, s, l);
    }
  }

  // ---- counting -------------------------------------------------------------------------------

  ghost function One(b: bool): nat { if b then 1 else 0 }

  ghost predicate IsSent(s: State, e: EventId) {
    e in s.outbox && s.outbox[e].status == EventSent
  }

  ghost predicate InFlight(s: State, e: EventId) {
    e in s.locks && s.locks[e] in s.ticks && HasPublished(s.ticks[s.locks[e]], e)
  }

  /** Publishes of `e` that a committed row or an open tick still answers for. */
  ghost function Answered(s: State, e: EventId): nat {
    One(IsSent(s, e)) + One(InFlight(s, e))
  }

  lemma NotLockedNotPublished(cfg: Config, s: State, t: TickId, e: EventId)
    requires RelaySound(cfg, s) && t in s.ticks && HasPublished(s.ticks[t], e)
    ensures e in s.locks && s.locks[e] == t && !IsSent(s, e)
  {
    assert TickSound(cfg, s.outbox, s.ticks[t]);
  }

  lemma ProgressPublishes(cfg: Config, s: State, l: Label, e: EventId)
    requires RelaySound(cfg, s) && Enabled(cfg, s, l)
    requires l.PublishEvent? || l.PublishEventThrows? || l.Mark?
    ensures l.tick in Next(cfg, s, l).ticks && l.tick in s.ticks
    ensures One(HasPublished(Next(cfg, s, l).ticks[l.tick], e))
         == One(HasPublished(s.ticks[l.tick], e)) + One(Hit(s, l, EventPublished(e)))
    ensures HasPublished(Next(cfg, s, l).ticks[l.tick], e) ==> e in s.ticks[l.tick].batch
  {
    assert TickSound(cfg, s.outbox, s.ticks[l.tick]);
  }

  lemma ProgressAnswers(cfg: Config, s: State, l: Label, e: EventId)
    requires RelaySound(cfg, s) && Enabled(cfg, s, l)
    requires l.PublishEvent? || l.PublishEventThrows? || l.Mark?
    ensures Answered(Next(cfg, s, l), e) == Answered(s, e) + One(Hit(s, l, EventPublished(e)))
  {
    StepInTickEffect(cfg, s, l);
    ProgressPublishes(cfg, s, l, e);
    BatchIsLocked(s.locks, s.ticks, l.tick, e);
    AnsweredAfter(s, Next(cfg, s, l), l.tick, e, Hit(s, l, EventPublished(e)));
  }

  lemma BatchIsLocked(locks: map<EventId, TickId>, ticks: map<TickId, Tick>, t: TickId, e: EventId)
    requires LocksSound(locks, ticks) && t in ticks
    ensures e in ticks[t].batch ==> e in locks && locks[e] == t
  {}

  /** When one open tick moves on, only the events of its own batch can be answered for differently. */
  lemma AnsweredAfter(s: State, s': State, t: TickId, e: EventId, hit: bool)
    requires s'.outbox == s.outbox && s'.locks == s.locks && t in s.ticks && t in s'.ticks
    requires s'.ticks == s.ticks[t := s'.ticks[t]]
    requires One(HasPublished(s'.ticks[t], e)) == One(HasPublished(s.ticks[t], e)) + One(hit)
    requires HasPublished(s'.ticks[t], e) ==> e in s.locks && s.locks[e] == t
    ensures Answered(s', e) == Answered(s, e) + One(hit)
  {}

  /** Ending a tick frees exactly its own rows; a commit rewrites exactly its own rows. */
  lemma EndTickEffect(cfg: Config, s: State, l: Label, e: EventId)
    requires Enabled(cfg, s, l) && (l.CommitTick? || l.RollbackTick?)
    requires LocksSound(s.locks, s.ticks) && TickSound(cfg, s.outbox, s.ticks[l.tick])
    ensures e in Next(cfg, s, l).locks <==> e in s.locks && s.locks[e] != l.tick
    ensures e in Next(cfg, s, l).locks ==>
      Next(cfg, s, l).locks[e] == s.locks[e] && e !in s.ticks[l.tick].writes
    ensures e in s.ticks[l.tick].writes ==> e in s.locks && s.locks[e] == l.tick && e in s.outbox
    ensures Next(cfg, s, l).ticks == s.ticks - {l.tick}
    ensures Next(cfg, s, l).outbox
         == if l.CommitTick? then s.outbox + s.ticks[l.tick].writes else s.outbox
  {}

  lemma EndAnswers(cfg: Config, s: State, l: Label, e: EventId)
    requires LocksSound(s.locks, s.ticks) && Enabled(cfg, s, l) && (l.CommitTick? || l.RollbackTick?)
    requires TickSound(cfg, s.outbox, s.ticks[l.tick])
    ensures Answered(Next(cfg, s, l), e) + One(Hit(s, l, PublishLost(e))) == Answered(s, e)
  {
    EndTickEffect(cfg, s, l, e);
    var tick := s.ticks[l.tick];
    if e !in tick.batch {
      assert e in s.locks ==> s.locks[e] != l.tick;
      assert !HasPublished(tick, e);
    } else {
      assert s.locks[e] == l.tick && !IsSent(s, e);
      assert l.CommitTick? ==> e in tick.writes;
    }
  }

  lemma StepAnswers(cfg: Config, s: State, l: Label, e: EventId)
    requires RelaySound(cfg, s) && Enabled(cfg, s, l)
    ensures Answered(Next(cfg, s, l), e) + One(Hit(s, l, PublishLost(e)))
         == Answered(s, e) + One(Hit(s, l, EventPublished(e)))
  {
    if l.CommitTick? || l.RollbackTick? {
      assert TickSound(cfg, s.outbox, s.ticks[l.tick]);
      EndAnswers(cfg, s, l, e);
    } else if l.PublishEvent? || l.PublishEventThrows? || l.Mark? {
      ProgressAnswers(cfg, s, l, e);
    } else if l.Claim? {
      ClaimAnswers(cfg, s, l, e);
    } else {
      OtherAnswers(cfg, s, l, e);
    }
  }

  lemma ClaimAnswers(cfg: Config, s: State, l: Label, e: EventId)
    requires LocksSound(s.locks, s.ticks) && Enabled(cfg, s, l) && l.Claim?
    ensures Answered(Next(cfg, s, l), e) == Answered(s, e)
    ensures !Hit(s, l, PublishLost(e)) && !Hit(s, l, EventPublished(e))
  {}

  lemma OtherAnswers(cfg: Config, s: State, l: Label, e: EventId)
    requires LocksSound(s.locks, s.ticks) && Enabled(cfg, s, l) && !RelayLabel(l)
    ensures Answered(Next(cfg, s, l), e) == Answered(s, e)
    ensures !Hit(s, l, PublishLost(e)) && !Hit(s, l, EventPublished(e))
  {
    OtherStepsKeepOutbox(cfg, s, l);
  }

  /**
   Every publish of an event is answered for exactly once: by its SENT row, by the open tick that
   made it, or by a tick that rolled back afterwards. So an event goes out at most once more than
   ticks were rolled back after publishing it.
   */
  lemma {:induction false} PublishesAccounted(cfg: Config, ls: seq<Label>, e: EventId)
    requires Exec(cfg, ls).Some?
    ensures Count(cfg, ls, EventPublished(e))
         == Answered(Exec(cfg, ls).value, e) + Count(cfg, ls, PublishLost(e))
    ensures Count(cfg, ls, EventPublished(e)) <= 1 + Count(cfg, ls, PublishLost(e))
  {
    if ls != [] {
      var before := ls[..|ls| - 1];
      PublishesAccounted(cfg, before, e);
      RunsAreRelaySound(cfg, before);
      StepAnswers(cfg, Exec(cfg, before).value, ls[|ls| - 1], e);
    }
    var s := Exec(cfg, ls).value;
    RunsAreRelaySound(cfg, ls);
    if InFlight(s, e) {
      NotLockedNotPublished(cfg, s, s.locks[e], e);
    }
  }

  lemma StepCountsFailures(cfg: Config, s: State, l: Label, e: EventId)
    requires RelaySound(cfg, s) && Enabled(cfg, s, l)
    ensures e !in s.outbox ==> !Hit(s, l, FailureCommitted(e))
    ensures e in s.outbox ==> e in Next(cfg, s, l).outbox
    ensures e in Next(cfg, s, l).outbox ==>
      Next(cfg, s, l).outbox[e].attempts
      == if e in s.outbox then s.outbox[e].attempts + One(Hit(s, l, FailureCommitted(e))) else 0
  {
    if l.CommitTick? || l.RollbackTick? {
      assert TickSound(cfg, s.outbox, s.ticks[l.tick]);
    } else if l.PublishEvent? || l.PublishEventThrows? || l.Mark? {
      StepInTickEffect(cfg, s, l);
    } else if !l.Claim? {
      OtherStepsKeepOutbox(cfg, s, l);
    }
  }

  /** `attempts` is exactly the number of publish failures committed for the event, and bounded. */
  lemma {:induction false} AttemptsCountFailures(cfg: Config, ls: seq<Label>, e: EventId)
    requires Exec(cfg, ls).Some?
    ensures Count(cfg, ls, FailureCommitted(e))
         == if e in Exec(cfg, ls).value.outbox then Exec(cfg, ls).value.outbox[e].attempts else 0
    ensures Count(cfg, ls, FailureCommitted(e)) <= cfg.maxAttempts
  {
    if ls != [] {
      var before := ls[..|ls| - 1];
      AttemptsCountFailures(cfg, before, e);
      RunsAreRelaySound(cfg, before);
      StepCountsFailures(cfg, Exec(cfg, before).value, ls[|ls| - 1], e);
    }
    RunsAreRelaySound(cfg, ls);
  }
}
