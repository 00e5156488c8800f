/** The pipeline runs out of work: a measure every working step lowers and every fault raises boundedly. */
module PipelineTermination {
  import opened Wrappers
  import opened MapTotals
  import opened PipelineModel
  import opened PipelineRelay
  import opened PipelineDelivery

  // ---- weights --------------------------------------------------------------------------------

  function RetriesLeft(cfg: Config, m: Message): nat {
    if m.attempt < cfg.maxAttempts then cfg.maxAttempts - m.attempt else 0
  }

  /** Work left once a handler has caught a failure: its own publish and ack, and seven per retry. */
  function FailureWeight(cfg: Config, m: Message): nat {
    2 + 7 * RetriesLeft(cfg, m)
  }

  function HandlerWeight(cfg: Config, h: Handler): nat {
    match h.pc
    case Start => 3 + FailureWeight(cfg, h.message)
    case Inserted => 2 + FailureWeight(cfg, h.message)
    case Updated(_) => 1 + FailureWeight(cfg, h.message)
    case Caught => FailureWeight(cfg, h.message)
    case Nacking => 5 + FailureWeight(cfg, h.message)
    case Done => 1
    case Republished => 1
  }

  function CopyWeight(cfg: Config, c: Copy): nat {
    match c.place
    case InRetry(_) => 5 + FailureWeight(cfg, c.message)
    case Ready => 4 + FailureWeight(cfg, c.message)
    case Unacked(_) => 0
    case InDlq => 0
  }

  /** One claim of an event, with the first copy it may put on the queue. */
  function CycleWeight(cfg: Config): nat {
    7 * cfg.maxAttempts + 3
  }

  function ClaimsLeft(cfg: Config, e: Event): nat {
    if e.status == EventSent || e.attempts >= cfg.maxAttempts then 0 else cfg.maxAttempts - e.attempts
  }

  function StageWeight(cfg: Config, t: Tick, e: EventId): nat {
    if e in t.writes then 0
    else if t.pc.AtMark? && t.next < |t.batch| && t.batch[t.next] == e then 1
    else CycleWeight(cfg) - 2
  }

  /** The open tick that holds the event's row, if any. */
  function Holder(s: State, e: EventId): Option<Tick> {
    if e in s.locks && s.locks[e] in s.ticks then Some(s.ticks[s.locks[e]]) else None
  }

  function EventWeight(cfg: Config, row: Event, holder: Option<Tick>, e: EventId): nat {
    var claims := ClaimsLeft(cfg, row);
    if holder.Some? && claims > 0
    then Times(claims - 1, CycleWeight(cfg)) + StageWeight(cfg, holder.value, e)
    else Times(claims, CycleWeight(cfg))
  }

  function WeightIn(cfg: Config, s: State, e: EventId): nat
    requires e in s.outbox
  {
    EventWeight(cfg, s.outbox[e], Holder(s, e), e)
  }

  ghost function EventWeights(cfg: Config, s: State): map<EventId, nat> {
    map e | e in s.outbox :: WeightIn(cfg, s, e)
  }

  ghost function CopyWeights(cfg: Config, copies: map<CopyId, Copy>): map<CopyId, nat> {
    map c | c in copies :: CopyWeight(cfg, copies[c])
  }

  ghost function HandlerWeights(cfg: Config, handlers: map<HandlerId, Handler>): map<HandlerId, nat> {
    map h | h in handlers :: HandlerWeight(cfg, handlers[h])
  }

  ghost function RelayWork(cfg: Config, s: State): nat {
    Total(EventWeights(cfg, s)) + |s.ticks.Keys|
  }

  ghost function CopyWork(cfg: Config, s: State): nat { Total(CopyWeights(cfg, s.copies)) }

  ghost function HandlerWork(cfg: Config, s: State): nat { Total(HandlerWeights(cfg, s.handlers)) }

  ghost function Work(cfg: Config, s: State): nat {
    RelayWork(cfg, s) + CopyWork(cfg, s) + HandlerWork(cfg, s)
  }

  /** The most one fault, and one create, can add. */
  function FaultCost(cfg: Config): nat {
    7 * cfg.maxAttempts + 6 + Times(cfg.batchSize, CycleWeight(cfg))
  }

  function CreateCost(cfg: Config): nat {
    2 * Times(cfg.maxAttempts, CycleWeight(cfg))
  }

  // ---- how one change moves a sum -------------------------------------------------------------

  lemma CopySet(cfg: Config, copies: map<CopyId, Copy>, c: CopyId, x: Copy)
    ensures Total(CopyWeights(cfg, copies[c := x])) + (if c in copies then CopyWeight(cfg, copies[c]) else 0)
         == Total(CopyWeights(cfg, copies)) + CopyWeight(cfg, x)
  {
    assert CopyWeights(cfg, copies[c := x]) == CopyWeights(cfg, copies)[c := CopyWeight(cfg, x)];
    TotalUpdate(CopyWeights(cfg, copies), c, CopyWeight(cfg, x));
  }

  lemma CopyDrop(cfg: Config, copies: map<CopyId, Copy>, c: CopyId)
    requires c in copies
    ensures Total(CopyWeights(cfg, copies - {c})) + CopyWeight(cfg, copies[c])
         == Total(CopyWeights(cfg, copies))
  {
    assert CopyWeights(cfg, copies - {c}) == CopyWeights(cfg, copies) - {c};
    TotalSplit(CopyWeights(cfg, copies), c);
  }

  lemma HandlerSet(cfg: Config, handlers: map<HandlerId, Handler>, h: HandlerId, x: Handler)
    ensures Total(HandlerWeights(cfg, handlers[h := x]))
            + (if h in handlers then HandlerWeight(cfg, handlers[h]) else 0)
         == Total(HandlerWeights(cfg, handlers)) + HandlerWeight(cfg, x)
  {
    assert HandlerWeights(cfg, handlers[h := x]) == HandlerWeights(cfg, handlers)[h := HandlerWeight(cfg, x)];
    TotalUpdate(HandlerWeights(cfg, handlers), h, HandlerWeight(cfg, x));
  }

  lemma HandlerDrop(cfg: Config, handlers: map<HandlerId, Handler>, h: HandlerId)
    requires h in handlers
    ensures Total(HandlerWeights(cfg, handlers - {h})) + HandlerWeight(cfg, handlers[h])
         == Total(HandlerWeights(cfg, handlers))
  {
    assert HandlerWeights(cfg, handlers - {h}) == HandlerWeights(cfg, handlers) - {h};
    TotalSplit(HandlerWeights(cfg, handlers), h);
  }

  // ---- workers and the broker -----------------------------------------------------------------

  lemma RelayWorkKept(cfg: Config, s: State, l: Label)
    requires Enabled(cfg, s, l) && !RelayLabel(l) && !l.Create?
    ensures RelayWork(cfg, Next(cfg, s, l)) == RelayWork(cfg, s)
  {
    OtherStepsKeepOutbox(cfg, s, l);
    assert EventWeights(cfg, Next(cfg, s, l)) == EventWeights(cfg, s);
  }

  lemma HandlerStepWeights(cfg: Config, s: State, l: Label)
    requires Enabled(cfg, s, l)
    requires l.Insert? || l.Update? || l.Commit? || l.Throw? || l.PublishThrows? || l.AckThrows?
    ensures l.handler in s.handlers && l.handler in Next(cfg, s, l).handlers
    ensures Next(cfg, s, l).handlers == s.handlers[l.handler := Next(cfg, s, l).handlers[l.handler]]
    ensures Next(cfg, s, l).copies == s.copies
    ensures Productive(l) ==>
      HandlerWeight(cfg, Next(cfg, s, l).handlers[l.handler]) < HandlerWeight(cfg, s.handlers[l.handler])
    ensures HandlerWeight(cfg, Next(cfg, s, l).handlers[l.handler])
         <= HandlerWeight(cfg, s.handlers[l.handler]) + 7 * cfg.maxAttempts + 6
  {}

  /** Steps inside a handler that leave the broker alone. */
  lemma HandlerStepWorks(cfg: Config, s: State, l: Label)
    requires Enabled(cfg, s, l)
    requires l.Insert? || l.Update? || l.Commit? || l.Throw? || l.PublishThrows? || l.AckThrows?
    ensures CopyWork(cfg, Next(cfg, s, l)) == CopyWork(cfg, s)
    ensures Productive(l) ==> HandlerWork(cfg, Next(cfg, s, l)) < HandlerWork(cfg, s)
    ensures HandlerWork(cfg, Next(cfg, s, l)) <= HandlerWork(cfg, s) + 7 * cfg.maxAttempts + 6
  {
    HandlerStepWeights(cfg, s, l);
    HandlerSet(cfg, s.handlers, l.handler, Next(cfg, s, l).handlers[l.handler]);
  }

  /** A republished message is worth less than the failure that caused it. */
  lemma RepublishWeight(cfg: Config, m: Message, retry: Message)
    requires m.attempt < cfg.maxAttempts && retry == m.(attempt := m.attempt + 1)
    ensures FailureWeight(cfg, retry) + 7 == FailureWeight(cfg, m)
  {}

  lemma PublishWorks(cfg: Config, s: State, l: Label)
    requires Enabled(cfg, s, l) && (l.PublishRetry? || l.PublishDlq?)
    ensures CopyWork(cfg, Next(cfg, s, l)) + HandlerWork(cfg, Next(cfg, s, l))
          < CopyWork(cfg, s) + HandlerWork(cfg, s)
  {
    var h, copy := s.handlers[l.handler], Next(cfg, s, l).copies[l.copy];
    assert CopyWeight(cfg, copy) + 1 < HandlerWeight(cfg, h) by {
      if l.PublishRetry? {
        RepublishWeight(cfg, h.message, copy.message);
      }
    }
    HandlerSet(cfg, s.handlers, l.handler, h.(pc := Republished));
    CopySet(cfg, s.copies, l.copy, copy);
  }

  lemma DeliverWorks(cfg: Config, s: State, l: Label)
    requires Enabled(cfg, s, l) && l.Deliver?
    ensures CopyWork(cfg, Next(cfg, s, l)) + HandlerWork(cfg, Next(cfg, s, l))
          < CopyWork(cfg, s) + HandlerWork(cfg, s)
  {
    HandlerSet(cfg, s.handlers, l.handler, Next(cfg, s, l).handlers[l.handler]);
    CopySet(cfg, s.copies, l.copy, Next(cfg, s, l).copies[l.copy]);
  }

  /** Steps of the broker alone: a retry that expires, or a delivery it takes back. */
  lemma BrokerStepWorks(cfg: Config, s: State, l: Label)
    requires Enabled(cfg, s, l) && (l.Expire? || l.Requeue?)
    ensures HandlerWork(cfg, Next(cfg, s, l)) == HandlerWork(cfg, s)
    ensures l.Expire? ==> CopyWork(cfg, Next(cfg, s, l)) < CopyWork(cfg, s)
    ensures CopyWork(cfg, Next(cfg, s, l)) <= CopyWork(cfg, s) + 7 * cfg.maxAttempts + 6
  {
    CopySet(cfg, s.copies, l.copy, Next(cfg, s, l).copies[l.copy]);
  }

  /** Steps that end a handler. */
  lemma EndHandlerWorks(cfg: Config, s: State, l: Label)
    requires Enabled(cfg, s, l) && (l.Ack? || l.Nack? || l.Die?)
    requires OwnsDelivery(s, l.handler) ==> s.copies[s.handlers[l.handler].copy].message == s.handlers[l.handler].message
    ensures CopyWork(cfg, Next(cfg, s, l)) + HandlerWork(cfg, Next(cfg, s, l))
          < CopyWork(cfg, s) + HandlerWork(cfg, s)
  {
    var c := s.handlers[l.handler].copy;
    HandlerDrop(cfg, s.handlers, l.handler);
    if !l.Die? && OwnsDelivery(s, l.handler) {
      if l.Ack? {
        CopyDrop(cfg, s.copies, c);
      } else {
        CopySet(cfg, s.copies, c, s.copies[c].(place := Ready));
      }
    }
  }

  // ---- the relay ------------------------------------------------------------------------------

  lemma WeightsDrop(cfg: Config, s: State, s': State, k: EventId, d: nat)
    requires s'.outbox.Keys == s.outbox.Keys && k in s.outbox
    requires forall e :: e in s.outbox ==> WeightIn(cfg, s', e) <= WeightIn(cfg, s, e)
    requires WeightIn(cfg, s', k) + d <= WeightIn(cfg, s, k)
    ensures Total(EventWeights(cfg, s')) + d <= Total(EventWeights(cfg, s))
  {
    TotalDrop(EventWeights(cfg, s'), EventWeights(cfg, s), k, d);
  }

  lemma WeightsNotUp(cfg: Config, s: State, s': State)
    requires s'.outbox.Keys == s.outbox.Keys
    requires forall e :: e in s.outbox ==> WeightIn(cfg, s', e) <= WeightIn(cfg, s, e)
    ensures Total(EventWeights(cfg, s')) <= Total(EventWeights(cfg, s))
  {
    TotalMonotone(EventWeights(cfg, s'), EventWeights(cfg, s));
  }

  /** Weights that rise by at most `d` at the keys of a batch raise the sum by at most `d` per key. */
  lemma WeightsUp(cfg: Config, s: State, s': State, batch: seq<EventId>, d: nat)
    requires s'.outbox.Keys == s.outbox.Keys
    requires forall e :: e in s.outbox ==>
      WeightIn(cfg, s', e) <= WeightIn(cfg, s, e) + (if e in batch then d else 0)
    ensures Total(EventWeights(cfg, s')) <= Total(EventWeights(cfg, s)) + Times(|batch|, d)
  {
    var extra: map<EventId, nat> := map e | e in batch :: d;
    TotalBound(EventWeights(cfg, s'), EventWeights(cfg, s), extra);
    TotalUniform(extra, d);
    SeqKeys(batch, extra.Keys);
    TimesMonotone(|extra.Keys|, |batch|, d);
  }

  lemma {:induction false} SeqKeys(batch: seq<EventId>, keys: set<EventId>)
    requires keys == set e | e in batch
    ensures |keys| <= |batch|
  {
    if batch != [] {
      var rest := set e | e in batch[1..];
      SeqKeys(batch[1..], rest);
      assert keys == rest + {batch[0]};
    }
  }

  /** Claiming an event spends at least two units of its claim. */
  lemma ClaimedEvent(cfg: Config, s: State, l: Label, e: EventId)
    requires Enabled(cfg, s, l) && l.Claim? && LocksSound(s.locks, s.ticks) && e in s.outbox
    ensures Next(cfg, s, l).outbox == s.outbox
    ensures WeightIn(cfg, Next(cfg, s, l), e) + (if e in l.batch then 2 else 0) <= WeightIn(cfg, s, e)
  {
    ClaimedHolder(cfg, s, l, e);
  }

  lemma ClaimedHolder(cfg: Config, s: State, l: Label, e: EventId)
    requires Enabled(cfg, s, l) && l.Claim? && LocksSound(s.locks, s.ticks)
    ensures e in l.batch ==>
      Holder(s, e) == None && Holder(Next(cfg, s, l), e) == Some(Tick(l.batch, 0, AtPublish, map[]))
    ensures e !in l.batch ==> Holder(Next(cfg, s, l), e) == Holder(s, e)
  {}

  lemma ClaimEffect(cfg: Config, s: State, l: Label)
    requires Enabled(cfg, s, l) && l.Claim?
    ensures Next(cfg, s, l).outbox == s.outbox && Next(cfg, s, l).ticks.Keys == s.ticks.Keys + {l.tick}
    ensures l.tick !in s.ticks && l.batch != [] && l.batch[0] in l.batch && l.batch[0] in s.outbox
    ensures Next(cfg, s, l).copies == s.copies && Next(cfg, s, l).handlers == s.handlers
  {}

  lemma ClaimWorks(cfg: Config, s: State, l: Label)
    requires LocksSound(s.locks, s.ticks) && Enabled(cfg, s, l) && l.Claim?
    ensures RelayWork(cfg, Next(cfg, s, l)) < RelayWork(cfg, s)
    ensures Next(cfg, s, l).copies == s.copies && Next(cfg, s, l).handlers == s.handlers
  {
    var s' := Next(cfg, s, l);
    ClaimEffect(cfg, s, l);
    forall e | e in s.outbox ensures WeightIn(cfg, s', e) <= WeightIn(cfg, s, e) {
      ClaimedEvent(cfg, s, l, e);
    }
    ClaimedEvent(cfg, s, l, l.batch[0]);
    WeightsDrop(cfg, s, s', l.batch[0], 2);
  }

  /** Publishing pays for the copy it makes; marking costs one. */
  function StepCost(cfg: Config, l: Label): nat {
    if l.Mark? then 1 else CycleWeight(cfg) - 3
  }

  lemma OtherEventInTick(cfg: Config, s: State, l: Label, e: EventId)
    requires Enabled(cfg, s, l) && LocksSound(s.locks, s.ticks)
    requires l.PublishEvent? || l.PublishEventThrows? || l.Mark?
    requires TickSound(cfg, s.outbox, s.ticks[l.tick])
    requires e in s.outbox && e != CurrentEvent(s, l.tick)
    ensures e in Next(cfg, s, l).outbox && WeightIn(cfg, Next(cfg, s, l), e) == WeightIn(cfg, s, e)
  {
    StepInTickEffect(cfg, s, l);
    var s' := Next(cfg, s, l);
    if e in s.locks && s.locks[e] == l.tick {
      assert StageWeight(cfg, s'.ticks[l.tick], e) == StageWeight(cfg, s.ticks[l.tick], e);
    } else {
      assert Holder(s', e) == Holder(s, e);
    }
  }

  lemma CurrentEventInTick(cfg: Config, s: State, l: Label)
    requires Enabled(cfg, s, l) && LocksSound(s.locks, s.ticks)
    requires l.PublishEvent? || l.PublishEventThrows? || l.Mark?
    requires TickSound(cfg, s.outbox, s.ticks[l.tick])
    ensures CurrentEvent(s, l.tick) in Next(cfg, s, l).outbox
    ensures WeightIn(cfg, Next(cfg, s, l), CurrentEvent(s, l.tick)) + StepCost(cfg, l)
         == WeightIn(cfg, s, CurrentEvent(s, l.tick))
  {
    StepInTickEffect(cfg, s, l);
    var s' := Next(cfg, s, l);
    var e := CurrentEvent(s, l.tick);
    assert e in s.ticks[l.tick].batch && s.locks[e] == l.tick;
    assert StageWeight(cfg, s'.ticks[l.tick], e) + StepCost(cfg, l) == StageWeight(cfg, s.ticks[l.tick], e);
  }

  lemma StepInTickWorks(cfg: Config, s: State, l: Label)
    requires Enabled(cfg, s, l) && LocksSound(s.locks, s.ticks)
    requires l.PublishEvent? || l.PublishEventThrows? || l.Mark?
    requires TickSound(cfg, s.outbox, s.ticks[l.tick])
    ensures RelayWork(cfg, Next(cfg, s, l)) + StepCost(cfg, l) <= RelayWork(cfg, s)
  {
    var s' := Next(cfg, s, l);
    StepInTickEffect(cfg, s, l);
    CurrentEventInTick(cfg, s, l);
    forall e | e in s.outbox ensures WeightIn(cfg, s', e) <= WeightIn(cfg, s, e) {
      if e != CurrentEvent(s, l.tick) {
        OtherEventInTick(cfg, s, l, e);
      }
    }
    WeightsDrop(cfg, s, s', CurrentEvent(s, l.tick), StepCost(cfg, l));
    assert s'.ticks.Keys == s.ticks.Keys;
  }

  lemma PublishedCopyWork(cfg: Config, s: State, l: Label)
    requires Enabled(cfg, s, l) && (l.PublishEvent? || l.PublishEventThrows? || l.Mark?)
    requires cfg.maxAttempts >= 1
    ensures CopyWork(cfg, Next(cfg, s, l)) < CopyWork(cfg, s) + StepCost(cfg, l)
    ensures Next(cfg, s, l).handlers == s.handlers
  {
    if l.PublishEvent? && s.outbox[CurrentEvent(s, l.tick)].payload.ProcessRequested? {
      CopySet(cfg, s.copies, l.copy, Next(cfg, s, l).copies[l.copy]);
    }
  }

  /** What a tick's end does to one event: freed unsold, or sold as marked. */
  lemma EndedEvent(cfg: Config, s: State, l: Label, e: EventId)
    requires Enabled(cfg, s, l) && (l.CommitTick? || l.RollbackTick?) && e in s.outbox
    requires LocksSound(s.locks, s.ticks) && TickSound(cfg, s.outbox, s.ticks[l.tick])
    ensures Next(cfg, s, l).outbox.Keys == s.outbox.Keys
    ensures WeightIn(cfg, Next(cfg, s, l), e) <= WeightIn(cfg, s, e)
      + (if l.RollbackTick? && e in s.ticks[l.tick].batch then CycleWeight(cfg) else 0)
  {
    EndTickEffect(cfg, s, l, e);
    var s' := Next(cfg, s, l);
    if e in s.ticks[l.tick].batch {
      assert s.locks[e] == l.tick && Holder(s, e) == Some(s.ticks[l.tick]) && Holder(s', e) == None;
      assert l.CommitTick? ==> e in s.ticks[l.tick].writes;
    } else {
      assert e in s.locks ==> s.locks[e] != l.tick;
      assert Holder(s', e) == Holder(s, e);
    }
  }

  lemma EndTickWorks(cfg: Config, s: State, l: Label)
    requires Enabled(cfg, s, l) && (l.CommitTick? || l.RollbackTick?)
    requires LocksSound(s.locks, s.ticks) && TickSound(cfg, s.outbox, s.ticks[l.tick])
    ensures l.CommitTick? ==> RelayWork(cfg, Next(cfg, s, l)) < RelayWork(cfg, s)
    ensures RelayWork(cfg, Next(cfg, s, l))
         <= RelayWork(cfg, s) + Times(|s.ticks[l.tick].batch|, CycleWeight(cfg))
    ensures Next(cfg, s, l).copies == s.copies && Next(cfg, s, l).handlers == s.handlers
  {
    var s' := Next(cfg, s, l);
    var batch := s.ticks[l.tick].batch;
    assert s'.ticks.Keys == s.ticks.Keys - {l.tick};
    EndTickEffect(cfg, s, l, 0);
    assert s'.outbox.Keys == s.outbox.Keys;
    forall e | e in s.outbox
      ensures WeightIn(cfg, s', e) <= WeightIn(cfg, s, e)
        + (if l.RollbackTick? && e in batch then CycleWeight(cfg) else 0)
    {
      EndedEvent(cfg, s, l, e);
    }
    if l.CommitTick? {
      WeightsNotUp(cfg, s, s');
    } else {
      WeightsUp(cfg, s, s', batch, CycleWeight(cfg));
    }
  }

  lemma CreatedUnlocked(cfg: Config, s: State, e: EventId)
    requires RelaySound(cfg, s) && e !in s.outbox
    ensures e !in s.locks
  {
    assert forall t :: t in s.ticks ==> TickSound(cfg, s.outbox, s.ticks[t]);
  }

  lemma CreatedWeights(cfg: Config, s: State, l: Label, e: EventId)
    requires RelaySound(cfg, s) && Enabled(cfg, s, l) && l.Create? && e in Next(cfg, s, l).outbox
    ensures e in s.outbox ==> WeightIn(cfg, Next(cfg, s, l), e) == WeightIn(cfg, s, e)
    ensures e !in s.outbox ==> WeightIn(cfg, Next(cfg, s, l), e) == Times(cfg.maxAttempts, CycleWeight(cfg))
  {
    if e !in s.outbox {
      CreatedUnlocked(cfg, s, e);
    }
    assert Holder(Next(cfg, s, l), e) == Holder(s, e);
  }

  lemma CreateWorks(cfg: Config, s: State, l: Label)
    requires RelaySound(cfg, s) && Enabled(cfg, s, l) && l.Create?
    ensures Work(cfg, Next(cfg, s, l)) <= Work(cfg, s) + CreateCost(cfg)
  {
    var s' := Next(cfg, s, l);
    CreateEffect(cfg, s, l);
    CreatedEventWeights(cfg, s, l);
  }

  lemma CreateEffect(cfg: Config, s: State, l: Label)
    requires Enabled(cfg, s, l) && l.Create?
    ensures Next(cfg, s, l).ticks == s.ticks && Next(cfg, s, l).copies == s.copies
    ensures Next(cfg, s, l).handlers == s.handlers
    ensures Next(cfg, s, l).outbox.Keys == s.outbox.Keys + {l.processEvent, l.placedEvent}
    ensures l.processEvent !in s.outbox && l.placedEvent !in s.outbox && l.processEvent != l.placedEvent
  {}

  lemma AllCreatedWeights(cfg: Config, s: State, l: Label)
    requires RelaySound(cfg, s) && Enabled(cfg, s, l) && l.Create?
    ensures forall e :: e in Next(cfg, s, l).outbox ==>
      WeightIn(cfg, Next(cfg, s, l), e)
      == if e in s.outbox then WeightIn(cfg, s, e) else Times(cfg.maxAttempts, CycleWeight(cfg))
  {
    forall e | e in Next(cfg, s, l).outbox
      ensures WeightIn(cfg, Next(cfg, s, l), e)
           == if e in s.outbox then WeightIn(cfg, s, e) else Times(cfg.maxAttempts, CycleWeight(cfg))
    {
      CreatedWeights(cfg, s, l, e);
    }
  }

  lemma CreatedEventWeights(cfg: Config, s: State, l: Label)
    requires RelaySound(cfg, s) && Enabled(cfg, s, l) && l.Create?
    ensures Total(EventWeights(cfg, Next(cfg, s, l))) == Total(EventWeights(cfg, s)) + CreateCost(cfg)
  {
    CreateEffect(cfg, s, l);
    AllCreatedWeights(cfg, s, l);
    WeightsOfTwoMore(cfg, s, Next(cfg, s, l), l.processEvent, l.placedEvent);
  }

  lemma WeightsOfTwoMore(cfg: Config, s: State, s': State, e: EventId, f: EventId)
    requires e !in s.outbox && f !in s.outbox && e != f && s'.outbox.Keys == s.outbox.Keys + {e, f}
    requires forall d :: d in s'.outbox ==>
      WeightIn(cfg, s', d) == if d in s.outbox then WeightIn(cfg, s, d) else Times(cfg.maxAttempts, CycleWeight(cfg))
    ensures Total(EventWeights(cfg, s')) == Total(EventWeights(cfg, s)) + CreateCost(cfg)
  {
    TwoMore(EventWeights(cfg, s), EventWeights(cfg, s'), e, f, Times(cfg.maxAttempts, CycleWeight(cfg)));
  }

  lemma TwoMore(before: map<EventId, nat>, after: map<EventId, nat>, e: EventId, f: EventId, w: nat)
    requires e !in before && f !in before && e != f && after.Keys == before.Keys + {e, f}
    requires forall d :: d in after ==> after[d] == if d in before then before[d] else w
    ensures Total(after) == Total(before) + 2 * w
  {
    var one: map<EventId, nat> := before[e := w];
    assert after == one[f := w];
    TotalUpdate(before, e, w);
    TotalUpdate(one, f, w);
  }

  // ---- every step -----------------------------------------------------------------------------

  ghost predicate BatchesBounded(cfg: Config, s: State) {
    forall t :: t in s.ticks ==> |s.ticks[t].batch| <= cfg.batchSize
  }

  ghost predicate WorkSound(cfg: Config, s: State) {
    RelaySound(cfg, s) && DeliveriesMatch(s) && BatchesBounded(cfg, s)
  }

  lemma BatchesStayBounded(cfg: Config, s: State, l: Label)
    requires BatchesBounded(cfg, s) && Enabled(cfg, s, l)
    ensures BatchesBounded(cfg, Next(cfg, s, l))
  {
    if l.PublishEvent? || l.PublishEventThrows? || l.Mark? {
      StepInTickEffect(cfg, s, l);
    }
  }

  lemma RelayStepWorks(cfg: Config, s: State, l: Label)
    requires WorkSound(cfg, s) && Enabled(cfg, s, l) && RelayLabel(l)
    ensures Productive(l) ==> Work(cfg, Next(cfg, s, l)) < Work(cfg, s)
    ensures Work(cfg, Next(cfg, s, l)) <= Work(cfg, s) + Times(cfg.batchSize, CycleWeight(cfg))
  {
    if l.Claim? {
      ClaimWorks(cfg, s, l);
    } else {
      assert TickSound(cfg, s.outbox, s.ticks[l.tick]);
      if l.CommitTick? || l.RollbackTick? {
        EndTickWorks(cfg, s, l);
        TimesMonotone(|s.ticks[l.tick].batch|, cfg.batchSize, CycleWeight(cfg));
      } else {
        assert CurrentEvent(s, l.tick) in s.ticks[l.tick].batch;
        StepInTickWorks(cfg, s, l);
        PublishedCopyWork(cfg, s, l);
      }
    }
  }

  lemma WorkerStepWorks(cfg: Config, s: State, l: Label)
    requires WorkSound(cfg, s) && Enabled(cfg, s, l) && !RelayLabel(l) && !Request(l)
    ensures Productive(l) ==> Work(cfg, Next(cfg, s, l)) < Work(cfg, s)
    ensures Work(cfg, Next(cfg, s, l)) <= Work(cfg, s) + 7 * cfg.maxAttempts + 6
  {
    RelayWorkKept(cfg, s, l);
    if l.Expire? || l.Requeue? {
      BrokerStepWorks(cfg, s, l);
    } else if l.Deliver? {
      DeliverWorks(cfg, s, l);
    } else if l.PublishRetry? || l.PublishDlq? {
      PublishWorks(cfg, s, l);
    } else if l.Ack? || l.Nack? || l.Die? {
      EndHandlerWorks(cfg, s, l);
    } else {
      HandlerStepWorks(cfg, s, l);
    }
  }

  /** The measure: working steps lower it, a fault or a create raises it by at most a constant. */
  lemma StepWorks(cfg: Config, s: State, l: Label)
    requires WorkSound(cfg, s) && Enabled(cfg, s, l)
    ensures Productive(l) ==> Work(cfg, Next(cfg, s, l)) < Work(cfg, s)
    ensures Fault(l) ==> Work(cfg, Next(cfg, s, l)) <= Work(cfg, s) + FaultCost(cfg)
    ensures l.Create? ==> Work(cfg, Next(cfg, s, l)) <= Work(cfg, s) + CreateCost(cfg)
    ensures l.UpdateStatus? ==> Work(cfg, Next(cfg, s, l)) == Work(cfg, s)
  {
    if l.Create? {
      CreateWorks(cfg, s, l);
    } else if l.UpdateStatus? {
      RelayWorkKept(cfg, s, l);
    } else if RelayLabel(l) {
      RelayStepWorks(cfg, s, l);
    } else {
      WorkerStepWorks(cfg, s, l);
    }
  }

  lemma {:induction false} RunsAreWorkSound(cfg: Config, ls: seq<Label>)
    requires Exec(cfg, ls).Some?
    ensures WorkSound(cfg, Exec(cfg, ls).value)
  {
    RunsAreRelaySound(cfg, ls);
    RunsAreCovered(cfg, ls);
    if ls != [] {
      RunsAreWorkSound(cfg, ls[..|ls| - 1]);
      BatchesStayBounded(cfg, Exec(cfg, ls[..|ls| - 1]).value, ls[|ls| - 1]);
    }
  }

  // ---- the theorem ----------------------------------------------------------------------------

  predicate IsCreate(l: Label) { l.Create? }

  ghost function Steps(ls: seq<Label>, p: Label -> bool): nat {
    if ls == [] then 0 else Steps(ls[..|ls| - 1], p) + if p(ls[|ls| - 1]) then 1 else 0
  }

  /** What creates and faults may add, step by step. */
  function Allowance(cfg: Config, l: Label): nat {
    if l.Create? then CreateCost(cfg) else if Fault(l) then FaultCost(cfg) else 0
  }

  ghost function Budget(cfg: Config, ls: seq<Label>): nat {
    if ls == [] then 0 else Budget(cfg, ls[..|ls| - 1]) + Allowance(cfg, ls[|ls| - 1])
  }

  lemma StepPays(cfg: Config, s: State, l: Label)
    requires WorkSound(cfg, s) && Enabled(cfg, s, l)
    ensures Work(cfg, Next(cfg, s, l)) + (if Productive(l) then 1 else 0) <= Work(cfg, s) + Allowance(cfg, l)
  {
    StepWorks(cfg, s, l);
  }

  lemma {:induction false} BudgetCovers(cfg: Config, ls: seq<Label>)
    requires Exec(cfg, ls).Some?
    ensures Steps(ls, Productive) + Work(cfg, Exec(cfg, ls).value) <= Budget(cfg, ls)
  {
    if ls == [] {
      NoWorkInitially(cfg);
    } else {
      var before := ls[..|ls| - 1];
      BudgetCovers(cfg, before);
      RunsAreWorkSound(cfg, before);
      StepPays(cfg, Exec(cfg, before).value, ls[|ls| - 1]);
    }
  }

  lemma NoWorkInitially(cfg: Config)
    ensures Work(cfg, Initial) == 0
  {
    assert EventWeights(cfg, Initial) == map[];
    assert CopyWeights(cfg, Initial.copies) == map[] && HandlerWeights(cfg, Initial.handlers) == map[];
  }

  lemma {:induction false} BudgetCounts(cfg: Config, ls: seq<Label>)
    ensures Budget(cfg, ls) == Steps(ls, IsCreate) * CreateCost(cfg) + Steps(ls, Fault) * FaultCost(cfg)
  {
    if ls != [] {
      var before, l := ls[..|ls| - 1], ls[|ls| - 1];
      BudgetCounts(cfg, before);
      OneMore(Steps(before, IsCreate), CreateCost(cfg));
      OneMore(Steps(before, Fault), FaultCost(cfg));
    }
  }

  lemma OneMore(n: nat, k: nat)
    ensures (n + 1) * k == n * k + k
  {}

  /**
   In any run the working steps of relay, broker and workers number at most a constant per create plus
   a constant per fault: the pipeline always comes to rest, although a fault may duplicate messages.
   */
  lemma WorkIsBounded(cfg: Config, ls: seq<Label>)
    requires Exec(cfg, ls).Some?
    ensures Steps(ls, Productive) <= Steps(ls, IsCreate) * CreateCost(cfg) + Steps(ls, Fault) * FaultCost(cfg)
  {
    BudgetCovers(cfg, ls);
    BudgetCounts(cfg, ls);
  }

  /** The two constants in full, from the attempts allowed and the batch size alone. */
  lemma CostsInFull(cfg: Config)
    ensures CreateCost(cfg) == 2 * (cfg.maxAttempts * (7 * cfg.maxAttempts + 3))
    ensures FaultCost(cfg) == 7 * cfg.maxAttempts + 6 + cfg.batchSize * (7 * cfg.maxAttempts + 3)
  {
    TimesIsProduct(cfg.maxAttempts, CycleWeight(cfg));
    TimesIsProduct(cfg.batchSize, CycleWeight(cfg));
  }
}
