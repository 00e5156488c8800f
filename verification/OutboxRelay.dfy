/** The relay's own code: the outbox operations, and the tick that claims, publishes and marks a batch. */
module OutboxRelay {
  import opened Wrappers
  import opened FreshIds
  import opened PipelineModel
  import opened PipelinePlatform
  import BackOff

  predicate Eligible(cfg: Config, s: State, e: EventId, now: int) {
    e in s.outbox && e !in s.locks && Claimable(cfg, s.outbox[e], now)
  }

  predicate NotYounger(outbox: map<EventId, Event>, e: EventId, f: EventId) {
    e in outbox && f in outbox && outbox[e].createdAt <= outbox[f].createdAt
  }

  /** What `ORDER BY created_at LIMIT n FOR UPDATE SKIP LOCKED` returns. */
  ghost predicate OldestEligible(cfg: Config, s: State, now: int, batch: seq<EventId>) {
    && |batch| <= cfg.batchSize
    && (forall e :: e in batch ==> Eligible(cfg, s, e, now))
    && (forall i, j :: 0 <= i < j < |batch| ==> batch[i] != batch[j])
    && (forall i, j :: 0 <= i < j < |batch| ==> NotYounger(s.outbox, batch[i], batch[j]))
    && (forall f :: Eligible(cfg, s, f, now) && f !in batch ==> |batch| == cfg.batchSize)
    && (forall e, f :: Eligible(cfg, s, f, now) && f !in batch && e in batch ==> NotYounger(s.outbox, e, f))
  }

  /** The row a tick leaves for one event of its batch. */
  function AfterTick(cfg: Config, row: Event, throws: bool, clock: int): Event {
    if throws then Failed(cfg, row, clock) else Sent(row)
  }

  /** What becomes of an event's row, field by field, when its publish went through. */
  predicate SentRow(before: Event, after: Event) {
    after == Event(before.payload, EventSent, before.attempts, before.nextRetryAt, before.createdAt)
  }

  /** And when it threw while the clock showed `clock`: not again before the delay of this attempt is over. */
  predicate FailedRow(cfg: Config, before: Event, clock: int, after: Event) {
    after == Event(before.payload, EventFailed, before.attempts + 1,
                   Some(clock + BackOff.Delay(before.attempts + 1, cfg.retryDelayMs)), before.createdAt)
  }

  /** Unlocked, not SENT, attempts left, and due. */
  predicate MayClaim(cfg: Config, s: State, e: EventId, now: int) {
    && e in s.outbox && e !in s.locks
    && (s.outbox[e].status == EventPending || s.outbox[e].status == EventFailed)
    && s.outbox[e].attempts < cfg.maxAttempts
    && (s.outbox[e].nextRetryAt.Some? ==> s.outbox[e].nextRetryAt.value <= now)
  }

  /** The batch is the oldest of the rows that may be claimed, up to the limit. */
  ghost predicate IsOldest(cfg: Config, s: State, now: int, batch: seq<EventId>) {
    && |batch| <= cfg.batchSize
    && (forall e :: e in batch ==> MayClaim(cfg, s, e, now))
    && (forall f :: MayClaim(cfg, s, f, now) && f !in batch ==> |batch| == cfg.batchSize)
    && (forall e, f :: e in batch && MayClaim(cfg, s, f, now) && f !in batch ==>
          MayClaim(cfg, s, e, now) && s.outbox[e].createdAt <= s.outbox[f].createdAt)
  }

  lemma OldestInFull(cfg: Config, s: State, now: int, batch: seq<EventId>)
    requires OldestEligible(cfg, s, now, batch)
    ensures IsOldest(cfg, s, now, batch)
  {
    assert forall e :: Eligible(cfg, s, e, now) <==> MayClaim(cfg, s, e, now);
    assert forall e, f :: Eligible(cfg, s, f, now) && f !in batch && e in batch ==> NotYounger(s.outbox, e, f);
  }

  /** The pending writes of a tick that has dealt with exactly the events of `done`. */
  ghost predicate Dealt(cfg: Config, outbox: map<EventId, Event>, done: seq<EventId>, throws: set<EventId>,
                        clock: EventId -> int, writes: map<EventId, Event>)
  {
    && (forall e :: e in writes <==> e in done)
    && (forall e :: e in writes ==> e in outbox)
    && (forall e :: e in writes ==> writes[e] == AfterTick(cfg, outbox[e], e in throws, clock(e)))
  }

  lemma DealtOneMore(cfg: Config, outbox: map<EventId, Event>, done: seq<EventId>, throws: set<EventId>,
                     clock: EventId -> int, writes: map<EventId, Event>, e: EventId)
    requires Dealt(cfg, outbox, done, throws, clock, writes) && e in outbox
    ensures Dealt(cfg, outbox, done + [e], throws, clock,
                  writes[e := AfterTick(cfg, outbox[e], e in throws, clock(e))])
  {}

  /** The state after a whole tick over `batch`, but for the copies it put on the queue. */
  ghost predicate TickOutcome(cfg: Config, before: State, batch: seq<EventId>, throws: set<EventId>,
                              clock: EventId -> int, after: State)
  {
    && after == before.(outbox := after.outbox, copies := after.copies)
    && after.outbox.Keys == before.outbox.Keys
    && (forall e :: e in before.outbox ==>
          after.outbox[e] == if e in batch then AfterTick(cfg, before.outbox[e], e in throws, clock(e))
                             else before.outbox[e])
  }

  /** The rows after a tick: those of the batch SENT or FAILED in full, all others as they were. */
  ghost predicate RowsAfterTick(cfg: Config, before: map<EventId, Event>, batch: seq<EventId>, throws: set<EventId>,
                                clock: EventId -> int, after: map<EventId, Event>)
  {
    && after.Keys == before.Keys
    && (forall e :: e in batch ==> e in before)
    && (forall e :: e in before ==>
          if e !in batch then after[e] == before[e]
          else if e in throws then FailedRow(cfg, before[e], clock(e), after[e])
          else SentRow(before[e], after[e]))
  }

  lemma OutcomeInFull(cfg: Config, before: State, batch: seq<EventId>, throws: set<EventId>, clock: EventId -> int,
                      after: State)
    requires TickOutcome(cfg, before, batch, throws, clock, after) && forall e :: e in batch ==> e in before.outbox
    ensures RowsAfterTick(cfg, before.outbox, batch, throws, clock, after.outbox)
  {}

  lemma RowsDealt(cfg: Config, outbox: map<EventId, Event>, batch: seq<EventId>, throws: set<EventId>,
                  clock: EventId -> int, writes: map<EventId, Event>)
    requires Dealt(cfg, outbox, batch, throws, clock, writes)
    ensures (outbox + writes).Keys == outbox.Keys
    ensures forall e :: e in outbox ==>
      (outbox + writes)[e] == if e in batch then AfterTick(cfg, outbox[e], e in throws, clock(e)) else outbox[e]
  {}

  lemma CommitGivesOutcome(cfg: Config, before: State, claim: Label, late: State, throws: set<EventId>,
                           clock: EventId -> int)
    requires claim.Claim? && Enabled(cfg, before, claim) && claim.tick in late.ticks
    requires late == Next(cfg, before, claim).(ticks := late.ticks, copies := late.copies)
    requires late.ticks == Next(cfg, before, claim).ticks[claim.tick := late.ticks[claim.tick]]
    requires late.ticks[claim.tick].batch == claim.batch && late.ticks[claim.tick].next == |claim.batch|
    requires Dealt(cfg, before.outbox, claim.batch, throws, clock, late.ticks[claim.tick].writes)
    ensures Enabled(cfg, late, CommitTick(claim.tick))
    ensures TickOutcome(cfg, before, claim.batch, throws, clock, Next(cfg, late, CommitTick(claim.tick)))
  {
    CommitOf(cfg, late, claim.tick);
    ClaimUndone(cfg, before, claim);
    RowsDealt(cfg, before.outbox, claim.batch, throws, clock, late.ticks[claim.tick].writes);
    var middle := Next(cfg, before, claim);
    assert EndTick(late, claim.tick).ticks == middle.ticks - {claim.tick};
  }

  /** Ending a tick takes back all that its claim did. */
  lemma ClaimUndone(cfg: Config, before: State, claim: Label)
    requires claim.Claim? && Enabled(cfg, before, claim)
    ensures var middle := Next(cfg, before, claim);
      && middle.(ticks := before.ticks, locks := before.locks) == before
      && middle.locks - (set e | e in claim.batch) == before.locks
      && middle.ticks - {claim.tick} == before.ticks
      && forall e :: e in claim.batch ==> e in before.outbox
  {}

  lemma CommitOf(cfg: Config, s: State, t: TickId)
    requires t in s.ticks && s.ticks[t].next == |s.ticks[t].batch|
    ensures Enabled(cfg, s, CommitTick(t))
    ensures Next(cfg, s, CommitTick(t)) == EndTick(s, t).(outbox := s.outbox + s.ticks[t].writes)
  {}

  /** What a publish of the event puts on the queue. */
  function CopiesAfter(copies: map<CopyId, Copy>, row: Event, throws: bool, c: CopyId): map<CopyId, Copy> {
    if throws || row.payload.OrderPlaced? then copies else copies[c := Copy(row.payload.message, Ready)]
  }

  ghost predicate FirstCopyOf(outbox: map<EventId, Event>, e: EventId, throws: set<EventId>, copy: Copy) {
    && e in outbox && e !in throws && outbox[e].payload.ProcessRequested?
    && copy == Copy(outbox[e].payload.message, Ready)
  }

  ghost predicate HasNewCopy(outbox: map<EventId, Event>, e: EventId, throws: set<EventId>,
                             before: map<CopyId, Copy>, after: map<CopyId, Copy>)
  {
    exists c :: c in after && c !in before && FirstCopyOf(outbox, e, throws, after[c])
  }

  ghost predicate ComesFrom(outbox: map<EventId, Event>, done: seq<EventId>, throws: set<EventId>, copy: Copy) {
    exists e :: e in done && FirstCopyOf(outbox, e, throws, copy)
  }

  /** Each process event of `done` whose publish did not throw, and nothing else, has a new copy. */
  ghost predicate Enqueued(outbox: map<EventId, Event>, done: seq<EventId>, throws: set<EventId>,
                           before: map<CopyId, Copy>, after: map<CopyId, Copy>)
  {
    && (forall c :: c in before ==> c in after && after[c] == before[c])
    && (forall c :: c in after && c !in before ==> ComesFrom(outbox, done, throws, after[c]))
    && (forall e :: e in done && e in outbox && e !in throws && outbox[e].payload.ProcessRequested? ==>
          HasNewCopy(outbox, e, throws, before, after))
  }

  lemma EnqueuedOneMore(outbox: map<EventId, Event>, done: seq<EventId>, throws: set<EventId>,
                        before: map<CopyId, Copy>, now: map<CopyId, Copy>, e: EventId, c: CopyId)
    requires Enqueued(outbox, done, throws, before, now) && e in outbox && c !in now
    ensures Enqueued(outbox, done + [e], throws, before, CopiesAfter(now, outbox[e], e in throws, c))
  {
    var after := CopiesAfter(now, outbox[e], e in throws, c);
    assert forall f :: f in done + [e] <==> f in done || f == e;
    forall d | d in after && d !in before ensures ComesFrom(outbox, done + [e], throws, after[d]) {
      if d in now {
        assert ComesFrom(outbox, done, throws, now[d]);
      } else {
        assert FirstCopyOf(outbox, e, throws, after[d]);
      }
    }
    forall f | f in done + [e] && f in outbox && f !in throws && outbox[f].payload.ProcessRequested?
      ensures HasNewCopy(outbox, f, throws, before, after)
    {
      if f == e {
        assert FirstCopyOf(outbox, e, throws, after[c]);
      } else {
        assert HasNewCopy(outbox, f, throws, before, now);
      }
    }
  }

  /** How far a tick has come after the first `i` events of its batch. */
  ghost predicate Relayed(cfg: Config, start: State, s: State, t: TickId, batch: seq<EventId>, i: nat,
                          throws: set<EventId>, clock: EventId -> int)
  {
    && i <= |batch| && s == start.(ticks := s.ticks, copies := s.copies)
    && t in s.ticks && s.ticks == start.ticks[t := s.ticks[t]]
    && s.ticks[t] == Tick(batch, i, AtPublish, s.ticks[t].writes)
    && Dealt(cfg, start.outbox, batch[..i], throws, clock, s.ticks[t].writes)
    && Enqueued(start.outbox, batch[..i], throws, start.copies, s.copies)
  }

  lemma RelayedOneMore(cfg: Config, start: State, s: State, t: TickId, batch: seq<EventId>, i: nat,
                       throws: set<EventId>, clock: EventId -> int, c: CopyId, after: State)
    requires Relayed(cfg, start, s, t, batch, i, throws, clock) && i < |batch| && batch[i] in start.outbox && c !in s.copies
    requires var e, tick := batch[i], s.ticks[t]; var row := AfterTick(cfg, s.outbox[e], e in throws, clock(e));
      && after == s.(ticks := after.ticks, copies := CopiesAfter(s.copies, s.outbox[e], e in throws, c))
      && after.ticks == s.ticks[t := Tick(tick.batch, tick.next + 1, AtPublish, tick.writes[e := row])]
    ensures Relayed(cfg, start, after, t, batch, i + 1, throws, clock)
  {
    DealtOneMore(cfg, start.outbox, batch[..i], throws, clock, s.ticks[t].writes, batch[i]);
    EnqueuedOneMore(start.outbox, batch[..i], throws, start.copies, s.copies, batch[i], c);
    assert batch[..i + 1] == batch[..i] + [batch[i]];
  }

  class OutboxService {
    const platform: Platform

    constructor (platform: Platform)
      ensures this.platform == platform
    {
      this.platform := platform;
    }

    method Oldest(rows: set<EventId>) returns (oldest: EventId)
      requires rows != {} && rows <= platform.outbox.Keys
      ensures oldest in rows
      ensures forall e :: e in rows ==> NotYounger(platform.outbox, oldest, e)
    {
      oldest :| oldest in rows;
      var rest := rows - {oldest};
      while rest != {}
        invariant oldest in rows && rest <= rows
        invariant forall e :: e in rows && e !in rest ==> NotYounger(platform.outbox, oldest, e)
        decreases rest
      {
        var e :| e in rest;
        if platform.outbox[e].createdAt < platform.outbox[oldest].createdAt {
          oldest := e;
        }
        rest := rest - {e};
      }
    }

    /** The rows a claim locks: due, not locked by another tick, oldest first, up to the limit. */
    method SelectBatch(now: int) returns (batch: seq<EventId>)
      ensures OldestEligible(platform.cfg, platform.Abs(), now, batch)
      ensures IsOldest(platform.cfg, platform.Abs(), now, batch)
    {
      batch := [];
      var rest := set e | e in platform.outbox && e !in platform.locks
        && Claimable(platform.cfg, platform.outbox[e], now);
      ghost var all := rest;
      while |batch| < platform.cfg.batchSize && rest != {}
        invariant |batch| <= platform.cfg.batchSize && rest <= all
        invariant forall e :: e in batch ==> e in all && e !in rest
        invariant forall e :: e in all ==> e in batch || e in rest
        invariant forall i, j :: 0 <= i < j < |batch| ==> batch[i] != batch[j]
        invariant forall i, j :: 0 <= i < j < |batch| ==> NotYounger(platform.outbox, batch[i], batch[j])
        invariant forall e, f :: e in batch && f in rest ==> NotYounger(platform.outbox, e, f)
        decreases rest
      {
        var e := Oldest(rest);
        batch, rest := batch + [e], rest - {e};
      }
      OldestInFull(platform.cfg, platform.Abs(), now, batch);
    }

    /** The claim opens the tick's transaction; an empty batch leaves nothing open. */
    method ClaimBatch(now: int) returns (t: TickId, batch: seq<EventId>)
      modifies platform
      ensures OldestEligible(platform.cfg, old(platform.Abs()), now, batch)
      ensures batch == [] ==> platform.Abs() == old(platform.Abs())
      ensures batch != [] ==> Enabled(platform.cfg, old(platform.Abs()), Claim(t, batch, now))
      ensures batch != [] ==>
        platform.Abs() == Next(platform.cfg, old(platform.Abs()), Claim(t, batch, now))
    {
      batch := SelectBatch(now);
      FreshNat(platform.ticks.Keys);
      t :| t !in platform.ticks;
      if batch != [] {
        platform.ticks := platform.ticks[t := Tick(batch, 0, AtPublish, map[])];
        platform.locks := platform.locks + (map e | e in batch :: t);
      }
    }

    /** markSent, through the tick's transaction, for the event the tick has just published. */
    method MarkSent(t: TickId, e: EventId)
      requires TickAt(platform.Abs(), t, true) && e == CurrentEvent(platform.Abs(), t)
      requires platform.ticks[t].pc.published
      modifies platform
      ensures platform.Abs() == Next(platform.cfg, old(platform.Abs()), Mark(t, 0))
      ensures t in platform.ticks && e in platform.ticks[t].writes
      ensures SentRow(old(platform.outbox)[e], platform.ticks[t].writes[e])
    {
      var tick, row := platform.ticks[t], platform.outbox[e].(status := EventSent);
      platform.ticks := platform.ticks[t := Tick(tick.batch, tick.next + 1, AtPublish, tick.writes[e := row])];
    }

    /** markFailed: one more attempt, and not again before `nextRetryAt`. */
    method MarkFailed(t: TickId, e: EventId, nextRetryAt: int, ghost clock: int)
      requires TickAt(platform.Abs(), t, true) && e == CurrentEvent(platform.Abs(), t)
      requires !platform.ticks[t].pc.published
      requires nextRetryAt
            == clock + BackOff.Delay(platform.outbox[e].attempts + 1, platform.cfg.retryDelayMs)
      modifies platform
      ensures platform.Abs() == Next(platform.cfg, old(platform.Abs()), Mark(t, clock))
      ensures t in platform.ticks && e in platform.ticks[t].writes
      ensures FailedRow(platform.cfg, old(platform.outbox)[e], clock, platform.ticks[t].writes[e])
    {
      var tick, row := platform.ticks[t], platform.outbox[e];
      row := row.(status := EventFailed, nextRetryAt := Some(nextRetryAt), attempts := row.attempts + 1);
      platform.ticks := platform.ticks[t := Tick(tick.batch, tick.next + 1, AtPublish, tick.writes[e := row])];
    }
  }

  class OutboxRelayService {
    const platform: Platform
    const outboxService: OutboxService

    constructor (platform: Platform, outboxService: OutboxService)
      requires outboxService.platform == platform
      ensures Valid() && this.platform == platform
    {
      this.platform, this.outboxService := platform, outboxService;
    }

    ghost predicate Valid() {
      outboxService.platform == platform
    }

    /** Publishes the event the tick is at; `throws` is the broker's or Kafka's answer. */
    method Publish(t: TickId, e: EventId, throws: bool) returns (published: bool, ghost l: Label, ghost c: CopyId)
      requires TickAt(platform.Abs(), t, false) && e == CurrentEvent(platform.Abs(), t)
      modifies platform
      ensures published == !throws && Enabled(platform.cfg, old(platform.Abs()), l)
      ensures c !in old(platform.copies)
      ensures l == if throws then PublishEventThrows(t) else PublishEvent(t, c)
      ensures platform.Abs() == Next(platform.cfg, old(platform.Abs()), l)
    {
      published := !throws;
      FreshNat(platform.copies.Keys);
      var copy: CopyId :| copy !in platform.copies;
      c, l := copy, if throws then PublishEventThrows(t) else PublishEvent(t, copy);
      platform.ticks := platform.ticks[t := platform.ticks[t].(pc := AtMark(published))];
      if !throws {
        match platform.outbox[e].payload
        case ProcessRequested(message) =>
          platform.copies := platform.copies[copy := Copy(message, Ready)];
        case OrderPlaced(_) =>
      }
    }

    /** The body of the tick's loop: publish, then mark sent; on a throw, mark failed. */
    method RelayOne(t: TickId, e: EventId, throws: bool, clock: int)
      returns (ghost ls: seq<Label>, ghost c: CopyId)
      requires Valid() && TickAt(platform.Abs(), t, false) && e == CurrentEvent(platform.Abs(), t)
      modifies platform
      ensures platform.Abs() == old(platform.Abs()).(ticks := platform.ticks, copies := platform.copies)
      ensures var tick := old(platform.ticks[t]);
        platform.ticks == old(platform.ticks)[t := Tick(tick.batch, tick.next + 1, AtPublish,
          tick.writes[e := AfterTick(platform.cfg, old(platform.outbox[e]), throws, clock)])]
      ensures if throws then FailedRow(platform.cfg, old(platform.outbox)[e], clock, platform.ticks[t].writes[e])
              else SentRow(old(platform.outbox)[e], platform.ticks[t].writes[e])
      ensures c !in old(platform.copies)
      ensures platform.copies == CopiesAfter(old(platform.copies), old(platform.outbox[e]), throws, c)
      ensures Runs(platform.cfg, old(platform.Abs()), ls, platform.Abs())
    {
      ghost var s0 := platform.Abs();
      var published;
      ghost var l;
      published, l, c := Publish(t, e, throws);
      ghost var s1 := platform.Abs();
      RunsOn(platform.cfg, s0, [], s0, l);
      ls := [l];
      assert [] + [l] == [l];
      if published {
        outboxService.MarkSent(t, e);
        RunsOn(platform.cfg, s0, ls, s1, Mark(t, 0));
        ls := ls + [Mark(t, 0)];
      } else {
        var nextRetryAt := clock + BackOff.Delay(platform.outbox[e].attempts + 1, platform.cfg.retryDelayMs);
        outboxService.MarkFailed(t, e, nextRetryAt, clock);
        RunsOn(platform.cfg, s0, ls, s1, Mark(t, clock));
        ls := ls + [Mark(t, clock)];
      }
    }

    method Commit(t: TickId)
      requires Enabled(platform.cfg, platform.Abs(), CommitTick(t))
      modifies platform
      ensures platform.Abs() == Next(platform.cfg, old(platform.Abs()), CommitTick(t))
    {
      platform.outbox := platform.outbox + platform.ticks[t].writes;
      platform.locks := platform.locks - (set e | e in platform.ticks[t].batch);
      platform.ticks := platform.ticks - {t};
    }

    /** The tick's loop over its batch. */
    method RelayBatch(t: TickId, batch: seq<EventId>, throws: set<EventId>, clock: EventId -> int)
      returns (ghost ls: seq<Label>)
      requires Valid() && t in platform.ticks && platform.ticks[t] == Tick(batch, 0, AtPublish, map[])
      requires forall e :: e in batch ==> e in platform.outbox
      modifies platform
      ensures platform.Abs() == old(platform.Abs()).(ticks := platform.ticks, copies := platform.copies)
      ensures t in platform.ticks && platform.ticks == old(platform.ticks)[t := platform.ticks[t]]
      ensures platform.ticks[t] == Tick(batch, |batch|, AtPublish, platform.ticks[t].writes)
      ensures Dealt(platform.cfg, old(platform.outbox), batch, throws, clock, platform.ticks[t].writes)
      ensures Enqueued(old(platform.outbox), batch, throws, old(platform.copies), platform.copies)
      ensures Runs(platform.cfg, old(platform.Abs()), ls, platform.Abs())
    {
      ls := [];
      ghost var start := platform.Abs();
      var i := 0;
      while i < |batch|
        invariant Relayed(platform.cfg, start, platform.Abs(), t, batch, i, throws, clock)
        invariant Runs(platform.cfg, start, ls, platform.Abs())
      {
        var e := batch[i];
        ghost var before, ms, c := platform.Abs(), [], 0;
        ms, c := RelayOne(t, e, e in throws, clock(e));
        RelayedOneMore(platform.cfg, start, before, t, batch, i, throws, clock, c, platform.Abs());
        RunsJoin(platform.cfg, start, ls, before, ms, platform.Abs());
        ls := ls + ms;
        i := i + 1;
      }
      assert batch[..i] == batch;
    }

    /**
     One tick, from claim to commit, with nobody interfering: `throws` says whose publish throws and
     `clock` what the clock shows at each failure. Every event of the batch ends SENT or FAILED, no
     other row changes, nothing stays locked, and the whole is a run of the transition system.
     */
    method RelayTick(now: int, throws: set<EventId>, clock: EventId -> int)
      returns (batch: seq<EventId>, ghost ls: seq<Label>)
      requires Valid()
      modifies platform
      ensures OldestEligible(platform.cfg, old(platform.Abs()), now, batch)
      ensures TickOutcome(platform.cfg, old(platform.Abs()), batch, throws, clock, platform.Abs())
      ensures RowsAfterTick(platform.cfg, old(platform.outbox), batch, throws, clock, platform.outbox)
      ensures IsOldest(platform.cfg, old(platform.Abs()), now, batch)
      ensures Enqueued(old(platform.outbox), batch, throws, old(platform.copies), platform.copies)
      ensures Runs(platform.cfg, old(platform.Abs()), ls, platform.Abs())
    {
      var t;
      ghost var s0 := platform.Abs();
      t, batch := outboxService.ClaimBatch(now);
      ls := [];
      OldestInFull(platform.cfg, s0, now, batch);
      if batch != [] {
        ghost var claimed, ms := platform.Abs(), [];
        RunsOn(platform.cfg, s0, [], s0, Claim(t, batch, now));
        ms := RelayBatch(t, batch, throws, clock);
        RunsJoin(platform.cfg, s0, [] + [Claim(t, batch, now)], claimed, ms, platform.Abs());
        ls := [] + [Claim(t, batch, now)] + ms;
        CommitGivesOutcome(platform.cfg, s0, Claim(t, batch, now), platform.Abs(), throws, clock);
        RunsOn(platform.cfg, s0, ls, platform.Abs(), CommitTick(t));
        ls := ls + [CommitTick(t)];
        Commit(t);
      }
      OutcomeInFull(platform.cfg, s0, batch, throws, clock, platform.Abs());
    }
  }
}
