/** The worker's own code: one message, from delivery to ack or requeue. */
module OrdersProcessor {
  import opened Wrappers
  import opened FreshIds
  import BackOff
  import opened PipelineModel
  import opened PipelinePlatform

  /** The statement of processOrder that throws, if one does. */
  datatype DbTrouble = NoTrouble | AtInsert | AtUpdate | AtCommit

  /** What goes wrong while one message is handled. */
  datatype Trouble = Trouble(db: DbTrouble, ackThrows: bool, publishThrows: bool, lateAckThrows: bool)

  datatype Outcome =
    | Finished(duplicate: bool)             // acked after a commit
    | Resent(copy: CopyId, acked: bool)      // a retry or dead-letter copy is out
    | Requeued                              // nacked, nothing published

  /** processOrder ends by throwing: a database error, the simulated failure, or a missing order. */
  predicate ProcessThrows(s: State, m: Message, db: DbTrouble) {
    if m.messageId in s.processed then db.AtInsert? || db.AtCommit?
    else m.alwaysFail || m.orderId !in s.orders || !db.NoTrouble?
  }

  /** Whether and how the order's row and the processed table change. */
  function AfterProcess(s: State, m: Message, throws: bool, now: int): State {
    if throws || m.messageId in s.processed || m.orderId !in s.orders then s
    else s.(orders := s.orders[m.orderId := ProcessedRow(s.orders[m.orderId], now)],
            processed := s.processed[m.messageId := m.orderId])
  }

  /** Nothing stands in the way of the message's one effect. */
  predicate Takes(s: State, m: Message, db: DbTrouble) {
    m.messageId !in s.processed && !m.alwaysFail && m.orderId in s.orders && db.NoTrouble?
  }

  /**
     Field by field: the order is PROCESSED, its version untouched, `processed_at` kept or set, and the message
     recorded for it.
   */
  ghost predicate Took(s: State, m: Message, now: int, orders: map<OrderId, Order>, processed: map<MessageId, OrderId>)
    requires m.orderId in s.orders
  {
    var row := s.orders[m.orderId];
    var at := if row.processedAt.Some? then row.processedAt.value else now;
    && orders == s.orders[m.orderId := Order(Processed, row.statusVersion, Some(at))]
    && processed == s.processed[m.messageId := m.orderId]
  }

  /** The rows after processOrder. */
  ghost predicate RowsLeft(s: State, m: Message, db: DbTrouble, now: int,
                           orders: map<OrderId, Order>, processed: map<MessageId, OrderId>)
  {
    if Takes(s, m, db) then Took(s, m, now, orders, processed) else orders == s.orders && processed == s.processed
  }

  lemma ProcessLeaves(s: State, m: Message, db: DbTrouble, now: int)
    ensures var after := AfterProcess(s, m, ProcessThrows(s, m, db), now);
      RowsLeft(s, m, db, now, after.orders, after.processed)
  {}

  /** The copy that follows a failed attempt: a later one in the retry queue, or the last one parked. */
  function NextCopy(cfg: Config, m: Message): Copy {
    if m.attempt < cfg.maxAttempts
    then Copy(m.(attempt := m.attempt + 1), InRetry(BackOff.Delay(m.attempt, cfg.retryDelayMs)))
    else Copy(m, InDlq)
  }

  /** The same in full: the next attempt, to wait for the delay of the one that failed, or the message as it was. */
  predicate Follows(cfg: Config, m: Message, next: Copy) {
    if m.attempt < cfg.maxAttempts
    then next == Copy(Message(m.messageId, m.orderId, m.attempt + 1, m.alwaysFail),
                      InRetry(BackOff.Delay(m.attempt, cfg.retryDelayMs)))
    else next == Copy(m, InDlq)
  }

  function CopiesAfter(cfg: Config, s: State, c: CopyId, outcome: Outcome): map<CopyId, Copy>
    requires c in s.copies
  {
    match outcome
    case Finished(_) => s.copies - {c}
    case Resent(d, acked) =>
      (if acked then s.copies - {c} else s.copies)[d := NextCopy(cfg, s.copies[c].message)]
    case Requeued => s.copies
  }

  /** No open worker transaction has the message's key or its order's row. */
  ghost predicate Undisturbed(s: State, m: Message) {
    forall h :: h in s.handlers && HoldsKey(s.handlers[h]) ==>
      s.handlers[h].message.messageId != m.messageId && s.handlers[h].message.orderId != m.orderId
  }

  /** A rollback leaves only the handler's own place in the code changed, wherever it comes. */
  lemma RollbackPath(cfg: Config, s: State, h: HandlerId, pc: HandlerPc)
    requires h in s.handlers && (pc.Start? || pc.Inserted? || pc.Updated?)
    ensures Enabled(cfg, SetPc(s, h, pc), Throw(h))
    ensures Next(cfg, SetPc(s, h, pc), Throw(h)) == SetPc(s, h, Caught)
  {}

  lemma InsertPaths(cfg: Config, s: State, h: HandlerId)
    requires AboutToBegin(s, h)
    requires s.handlers[h].message.messageId in s.processed || s.handlers[h].message.orderId in s.orders
    ensures Enabled(cfg, s, Insert(h))
    ensures Next(cfg, s, Insert(h))
         == SetPc(s, h, if s.handlers[h].message.messageId in s.processed then Done else Inserted)
  {}

  lemma UpdatePath(cfg: Config, s: State, h: HandlerId, now: int)
    requires AboutToBegin(s, h) && s.handlers[h].message.orderId in s.orders && !s.handlers[h].message.alwaysFail
    ensures Enabled(cfg, SetPc(s, h, Inserted), Update(h, now))
    ensures Next(cfg, SetPc(s, h, Inserted), Update(h, now))
         == SetPc(s, h, Updated(ProcessedRow(s.orders[s.handlers[h].message.orderId], now)))
  {}

  lemma CommitPath(cfg: Config, s: State, h: HandlerId, now: int)
    requires AboutToBegin(s, h) && s.handlers[h].message.orderId in s.orders
    requires s.handlers[h].message.messageId !in s.processed
    ensures var m := s.handlers[h].message;
      var updated := SetPc(s, h, Updated(ProcessedRow(s.orders[m.orderId], now)));
      && Enabled(cfg, updated, Commit(h))
      && Next(cfg, updated, Commit(h)) == SetPc(AfterProcess(s, m, false, now), h, Done)
  {}

  /** The handler is about to begin, and no other open transaction is in its way. */
  ghost predicate AboutToBegin(s: State, h: HandlerId) {
    HandlerAt(s, h, Start) && KeyFree(s, h) && RowFree(s, s.handlers[h].message.orderId)
  }

  /** The statements processOrder gets through. */
  function Path(s: State, h: HandlerId, m: Message, db: DbTrouble, now: int): seq<Label> {
    var duplicate := m.messageId in s.processed;
    if db == AtInsert || (duplicate && db == AtCommit) || (!duplicate && m.orderId !in s.orders)
    then [Throw(h)]
    else if duplicate then [Insert(h)]
    else if m.alwaysFail || db == AtUpdate then [Insert(h), Throw(h)]
    else if db == AtCommit then [Insert(h), Update(h, now), Throw(h)]
    else [Insert(h), Update(h, now), Commit(h)]
  }

  function AfterPath(s: State, h: HandlerId, m: Message, db: DbTrouble, now: int): State
    requires h in s.handlers
  {
    var throws := ProcessThrows(s, m, db);
    SetPc(AfterProcess(s, m, throws, now), h, if throws then Caught else Done)
  }

  lemma FirstStep(cfg: Config, s: State, l: Label)
    requires Enabled(cfg, s, l)
    ensures Runs(cfg, s, [l], Next(cfg, s, l))
  {
    RunsOn(cfg, s, [], s, l);
    assert [] + [l] == [l];
  }

  lemma ShortPathRuns(cfg: Config, s: State, h: HandlerId, db: DbTrouble, now: int)
    requires AboutToBegin(s, h) && |Path(s, h, s.handlers[h].message, db, now)| == 1
    ensures Runs(cfg, s, Path(s, h, s.handlers[h].message, db, now), AfterPath(s, h, s.handlers[h].message, db, now))
  {
    if Path(s, h, s.handlers[h].message, db, now)[0] == Throw(h) {
      assert SetPc(s, h, Start) == s;
      RollbackPath(cfg, s, h, Start);
      FirstStep(cfg, s, Throw(h));
    } else {
      InsertPaths(cfg, s, h);
      FirstStep(cfg, s, Insert(h));
    }
  }

  lemma FailedPathRuns(cfg: Config, s: State, h: HandlerId, db: DbTrouble, now: int)
    requires AboutToBegin(s, h) && |Path(s, h, s.handlers[h].message, db, now)| == 2
    ensures Runs(cfg, s, Path(s, h, s.handlers[h].message, db, now), AfterPath(s, h, s.handlers[h].message, db, now))
  {
    InsertPaths(cfg, s, h);
    FirstStep(cfg, s, Insert(h));
    RollbackPath(cfg, s, h, Inserted);
    RunsOn(cfg, s, [Insert(h)], SetPc(s, h, Inserted), Throw(h));
    assert [Insert(h)] + [Throw(h)] == [Insert(h), Throw(h)];
  }

  lemma FullPathRuns(cfg: Config, s: State, h: HandlerId, db: DbTrouble, now: int)
    requires AboutToBegin(s, h) && |Path(s, h, s.handlers[h].message, db, now)| == 3
    ensures Runs(cfg, s, Path(s, h, s.handlers[h].message, db, now), AfterPath(s, h, s.handlers[h].message, db, now))
  {
    var updated := SetPc(s, h, Updated(ProcessedRow(s.orders[s.handlers[h].message.orderId], now)));
    var both := [Insert(h), Update(h, now)];
    InsertPaths(cfg, s, h);
    FirstStep(cfg, s, Insert(h));
    UpdatePath(cfg, s, h, now);
    RunsOn(cfg, s, [Insert(h)], SetPc(s, h, Inserted), Update(h, now));
    assert [Insert(h)] + [Update(h, now)] == both;
    if db == AtCommit {
      RollbackPath(cfg, s, h, updated.handlers[h].pc);
      RunsOn(cfg, s, both, updated, Throw(h));
      assert both + [Throw(h)] == [Insert(h), Update(h, now), Throw(h)];
    } else {
      CommitPath(cfg, s, h, now);
      RunsOn(cfg, s, both, updated, Commit(h));
      assert both + [Commit(h)] == [Insert(h), Update(h, now), Commit(h)];
    }
  }

  /** They are a run of the transition system. */
  lemma PathRuns(cfg: Config, s: State, h: HandlerId, db: DbTrouble, now: int)
    requires AboutToBegin(s, h)
    ensures Runs(cfg, s, Path(s, h, s.handlers[h].message, db, now), AfterPath(s, h, s.handlers[h].message, db, now))
  {
    if |Path(s, h, s.handlers[h].message, db, now)| == 1 {
      ShortPathRuns(cfg, s, h, db, now);
    } else if |Path(s, h, s.handlers[h].message, db, now)| == 2 {
      FailedPathRuns(cfg, s, h, db, now);
    } else {
      FullPathRuns(cfg, s, h, db, now);
    }
  }

  // ---- after processOrder ---------------------------------------------------------------------

  /** The handler stands at `pc` with its delivery still its own. */
  ghost predicate Handling(s: State, h: HandlerId, pc: HandlerPc) {
    HandlerAt(s, h, pc) && OwnsDelivery(s, h) && s.copies[s.handlers[h].copy].message == s.handlers[h].message
  }

  function Republish(cfg: Config, h: HandlerId, m: Message, d: CopyId): Label {
    if m.attempt < cfg.maxAttempts then PublishRetry(h, d) else PublishDlq(h, d)
  }

  function WithoutHandler(s: State, h: HandlerId, copies: map<CopyId, Copy>): State {
    s.(handlers := s.handlers - {h}, copies := copies)
  }

  lemma AckPath(cfg: Config, s: State, h: HandlerId)
    requires Handling(s, h, Done) || Handling(s, h, Republished)
    ensures Runs(cfg, s, [Ack(h)], WithoutHandler(s, h, s.copies - {s.handlers[h].copy}))
  {
    FirstStep(cfg, s, Ack(h));
  }

  lemma NackPath(cfg: Config, s: State, h: HandlerId, l: Label)
    requires (l == PublishThrows(h) && Handling(s, h, Caught)) || (l == AckThrows(h) && Handling(s, h, Republished))
    ensures Runs(cfg, s, [l, Nack(h)],
                 WithoutHandler(s, h, s.copies[s.handlers[h].copy := s.copies[s.handlers[h].copy].(place := Ready)]))
  {
    FirstStep(cfg, s, l);
    RunsOn(cfg, s, [l], Next(cfg, s, l), Nack(h));
    assert [l] + [Nack(h)] == [l, Nack(h)];
    assert Next(cfg, s, l).handlers - {h} == s.handlers - {h};
  }

  /** The copies after a failure, in whichever order the publish and the requeue or ack come. */
  lemma ResentCopies(cfg: Config, s: State, h: HandlerId, d: CopyId)
    requires Handling(s, h, Caught) && d !in s.copies
    ensures var c, next := s.handlers[h].copy, NextCopy(cfg, s.handlers[h].message);
      var ready := s.copies[c].(place := Ready);
      var requeued := s.(copies := s.copies[c := ready]);
      && s.copies[d := next] - {c} == CopiesAfter(cfg, requeued, c, Resent(d, true))
      && s.copies[d := next][c := ready] == CopiesAfter(cfg, requeued, c, Resent(d, false))
  {}

  lemma RepublishPath(cfg: Config, s: State, h: HandlerId, d: CopyId)
    requires Handling(s, h, Caught) && d !in s.copies
    ensures Runs(cfg, s, [Republish(cfg, h, s.handlers[h].message, d)],
                 SetPc(s, h, Republished).(copies := s.copies[d := NextCopy(cfg, s.handlers[h].message)]))
  {
    FirstStep(cfg, s, Republish(cfg, h, s.handlers[h].message, d));
  }

  /** The handler's state after processOrder, seen from the state before the delivery. */
  ghost predicate Processing(s0: State, s: State, h: HandlerId, c: CopyId, throws: bool, now: int, pc: HandlerPc) {
    && c in s0.copies && h !in s0.handlers && s0.copies[c].place.Ready?
    && s == AfterProcess(s0, s0.copies[c].message, throws, now).(
              copies := s0.copies[c := s0.copies[c].(place := Unacked(h))],
              handlers := s0.handlers[h := Handler(c, s0.copies[c].message, pc)])
  }

  lemma BeginsUndisturbed(cfg: Config, s0: State, h: HandlerId, c: CopyId)
    requires Enabled(cfg, s0, Deliver(c, h)) && Undisturbed(s0, s0.copies[c].message)
    ensures AboutToBegin(Next(cfg, s0, Deliver(c, h)), h)
    ensures Next(cfg, s0, Deliver(c, h)).handlers[h].message == s0.copies[c].message
  {
    var s := Next(cfg, s0, Deliver(c, h));
    assert s.handlers == s0.handlers[h := Handler(c, s0.copies[c].message, Start)];
  }

  lemma ProcessingIs(cfg: Config, s0: State, h: HandlerId, c: CopyId, db: DbTrouble, now: int)
    requires Enabled(cfg, s0, Deliver(c, h))
    ensures var m := s0.copies[c].message;
      var s, throws := Next(cfg, s0, Deliver(c, h)), ProcessThrows(s0, m, db);
      && ProcessThrows(s, m, db) == throws
      && Processing(s0, AfterPath(s, h, m, db, now), h, c, throws, now, if throws then Caught else Done)
  {
    var m := s0.copies[c].message;
    var s, throws := Next(cfg, s0, Deliver(c, h)), ProcessThrows(s0, m, db);
    var pc := if throws then Caught else Done;
    assert s.handlers[h := Handler(c, m, pc)] == s0.handlers[h := Handler(c, m, pc)];
    assert AfterProcess(s, m, throws, now)
        == AfterProcess(s0, m, throws, now).(copies := s.copies, handlers := s.handlers);
  }

  lemma SettledIs(cfg: Config, s0: State, s: State, h: HandlerId, c: CopyId, throws: bool, now: int,
                  pc: HandlerPc, outcome: Outcome)
    requires Processing(s0, s, h, c, throws, now, pc)
    ensures h in s.handlers && Handling(s, h, pc)
    ensures WithoutHandler(s, h, CopiesAfter(cfg, s0, c, outcome))
         == AfterProcess(s0, s0.copies[c].message, throws, now).(copies := CopiesAfter(cfg, s0, c, outcome))
    ensures s.copies[c := s.copies[c].(place := Ready)] == s0.copies
    ensures s.copies - {c} == s0.copies - {c}
  {
    assert s.handlers - {h} == s0.handlers;
  }

  class OrdersProcessorConsumer {
    const platform: Platform

    constructor (platform: Platform)
      ensures this.platform == platform
    {
      this.platform := platform;
    }

    method SetHandler(h: HandlerId, pc: HandlerPc)
      requires h in platform.handlers
      modifies platform
      ensures platform.Abs() == SetPc(old(platform.Abs()), h, pc)
    {
      platform.handlers := platform.handlers[h := platform.handlers[h].(pc := pc)];
    }

    method Receive(c: CopyId) returns (h: HandlerId)
      requires c in platform.copies && platform.copies[c].place.Ready?
      modifies platform
      ensures Enabled(platform.cfg, old(platform.Abs()), Deliver(c, h))
      ensures platform.Abs() == Next(platform.cfg, old(platform.Abs()), Deliver(c, h))
    {
      ghost var tags := set c | c in platform.copies && platform.copies[c].place.Unacked? :: platform.copies[c].place.holder;
      FreshNat(platform.handlers.Keys + tags);
      var held := set c | c in platform.copies && platform.copies[c].place.Unacked? :: platform.copies[c].place.holder;
      h :| h !in platform.handlers && h !in held;
      platform.handlers := platform.handlers[h := Handler(c, platform.copies[c].message, Start)];
      platform.copies := platform.copies[c := platform.copies[c].(place := Unacked(h))];
    }

    /**
     processOrder: the idempotency insert, the simulated failure, the order update and the commit, in
     one transaction. Either it commits as success or duplicate, or it rolls back and throws.
     */
    method ProcessOrder(h: HandlerId, db: DbTrouble, now: int) returns (result: Result<bool, ()>)
      requires AboutToBegin(platform.Abs(), h)
      modifies platform
      ensures result == (if ProcessThrows(old(platform.Abs()), old(platform.handlers[h]).message, db) then Err(())
                         else Ok(old(platform.handlers[h]).message.messageId in old(platform.processed)))
      ensures platform.Abs()
           == AfterPath(old(platform.Abs()), h, old(platform.handlers[h]).message, db, now)
      ensures RowsLeft(old(platform.Abs()), old(platform.handlers[h]).message, db, now, platform.orders, platform.processed)
      ensures Runs(platform.cfg, old(platform.Abs()),
                   Path(old(platform.Abs()), h, old(platform.handlers[h]).message, db, now), platform.Abs())
    {
      PathRuns(platform.cfg, platform.Abs(), h, db, now);
      ProcessLeaves(platform.Abs(), platform.handlers[h].message, db, now);
      var m := platform.handlers[h].message;
      var duplicate := m.messageId in platform.processed;
      if db == AtInsert || (!duplicate && m.orderId !in platform.orders) {
        SetHandler(h, Caught);
        return Err(());
      }
      if duplicate {
        SetHandler(h, if db == AtCommit then Caught else Done);
        return if db == AtCommit then Err(()) else Ok(true);
      }
      SetHandler(h, Inserted);
      if m.alwaysFail || db == AtUpdate {
        SetHandler(h, Caught);
        return Err(());
      }
      var row := ProcessedRow(platform.orders[m.orderId], now);
      SetHandler(h, Updated(row));
      if db == AtCommit {
        SetHandler(h, Caught);
        return Err(());
      }
      SetHandler(h, Done);
      platform.orders := platform.orders[m.orderId := row];
      platform.processed := platform.processed[m.messageId := m.orderId];
      return Ok(false);
    }

    method AckMessage(h: HandlerId)
      requires Handling(platform.Abs(), h, Done) || Handling(platform.Abs(), h, Republished)
      modifies platform
      ensures platform.Abs() == WithoutHandler(old(platform.Abs()), h,
                                               old(platform.copies) - {old(platform.handlers[h]).copy})
      ensures Runs(platform.cfg, old(platform.Abs()), [Ack(h)], platform.Abs())
    {
      AckPath(platform.cfg, platform.Abs(), h);
      platform.copies := platform.copies - {platform.handlers[h].copy};
      platform.handlers := platform.handlers - {h};
    }

    /** nack(msg, false, true): the delivery goes back to the queue. */
    method NackMessage(h: HandlerId, ghost l: Label)
      requires (l == PublishThrows(h) && Handling(platform.Abs(), h, Caught))
            || (l == AckThrows(h) && Handling(platform.Abs(), h, Republished))
      modifies platform
      ensures var c := old(platform.handlers[h]).copy;
        platform.Abs() == WithoutHandler(old(platform.Abs()), h,
                                         old(platform.copies)[c := old(platform.copies)[c].(place := Ready)])
      ensures Runs(platform.cfg, old(platform.Abs()), [l, Nack(h)], platform.Abs())
    {
      NackPath(platform.cfg, platform.Abs(), h, l);
      var c := platform.handlers[h].copy;
      platform.copies := platform.copies[c := platform.copies[c].(place := Ready)];
      platform.handlers := platform.handlers - {h};
    }

    method PublishNext(h: HandlerId) returns (d: CopyId)
      requires Handling(platform.Abs(), h, Caught)
      modifies platform
      ensures d !in old(platform.copies)
      ensures platform.Abs() == SetPc(old(platform.Abs()), h, Republished).(copies :=
        old(platform.copies)[d := NextCopy(platform.cfg, old(platform.handlers[h]).message)])
      ensures Runs(platform.cfg, old(platform.Abs()),
                   [Republish(platform.cfg, h, old(platform.handlers[h]).message, d)], platform.Abs())
    {
      FreshNat(platform.copies.Keys);
      d :| d !in platform.copies;
      RepublishPath(platform.cfg, platform.Abs(), h, d);
      platform.copies := platform.copies[d := NextCopy(platform.cfg, platform.handlers[h].message)];
      platform.handlers := platform.handlers[h := platform.handlers[h].(pc := Republished)];
    }

    /** The catch block: publish a retry or a dead letter and ack, or requeue when that throws. */
    method HandleFailure(h: HandlerId, publishThrows: bool, ackThrows: bool)
      returns (outcome: Outcome, ghost ls: seq<Label>)
      requires Handling(platform.Abs(), h, Caught)
      modifies platform
      ensures !outcome.Finished?
      ensures outcome.Requeued? <==> publishThrows
      ensures outcome.Resent? ==> outcome.copy !in old(platform.copies) && outcome.acked == !ackThrows
      ensures outcome.Resent? ==>
        && outcome.copy in platform.copies
        && Follows(platform.cfg, old(platform.handlers[h]).message, platform.copies[outcome.copy])
      ensures var c := old(platform.handlers[h]).copy;
        var requeued := old(platform.Abs()).(copies := old(platform.copies)[c := old(platform.copies)[c].(place := Ready)]);
        platform.Abs() == WithoutHandler(requeued, h, CopiesAfter(platform.cfg, requeued, c, outcome))
      ensures Runs(platform.cfg, old(platform.Abs()), ls, platform.Abs())
    {
      ghost var s := platform.Abs();
      if publishThrows {
        NackMessage(h, PublishThrows(h));
        return Requeued, [PublishThrows(h), Nack(h)];
      }
      var d := PublishNext(h);
      ResentCopies(platform.cfg, s, h, d);
      assert platform.handlers - {h} == s.handlers - {h};
      ghost var s1 := platform.Abs();
      ls := [Republish(platform.cfg, h, s.handlers[h].message, d)];
      outcome := Resent(d, !ackThrows);
      if ackThrows {
        NackMessage(h, AckThrows(h));
        RunsJoin(platform.cfg, s, ls, s1, [AckThrows(h), Nack(h)], platform.Abs());
        ls := ls + [AckThrows(h), Nack(h)];
      } else {
        AckMessage(h);
        RunsJoin(platform.cfg, s, ls, s1, [Ack(h)], platform.Abs());
        ls := ls + [Ack(h)];
      }
    }

    method ReceiveAndProcess(c: CopyId, db: DbTrouble, now: int)
      returns (h: HandlerId, result: Result<bool, ()>, ghost ls: seq<Label>)
      requires c in platform.copies && platform.copies[c].place.Ready?
      requires Undisturbed(platform.Abs(), platform.copies[c].message)
      modifies platform
      ensures var s, m := old(platform.Abs()), old(platform.copies)[c].message;
        && result == (if ProcessThrows(s, m, db) then Err(()) else Ok(m.messageId in s.processed))
        && Processing(s, platform.Abs(), h, c, result.Err?, now, if result.Err? then Caught else Done)
      ensures Runs(platform.cfg, old(platform.Abs()), ls, platform.Abs())
    {
      ghost var s0, cfg, m := platform.Abs(), platform.cfg, platform.copies[c].message;
      h := Receive(c);
      FirstStep(cfg, s0, Deliver(c, h));
      BeginsUndisturbed(cfg, s0, h, c);
      ProcessingIs(cfg, s0, h, c, db, now);
      ghost var s1, path := platform.Abs(), Path(platform.Abs(), h, m, db, now);
      result := ProcessOrder(h, db, now);
      RunsJoin(cfg, s0, [Deliver(c, h)], s1, path, platform.Abs());
      ls := [Deliver(c, h)] + path;
    }

    /**
     onMessage for one delivered message, with nobody interfering. The transaction's effect depends on
     the message and the database alone; the copy is acked once it is processed or its successor is
     published, and otherwise goes back to the queue.
     */
    method OnMessage(c: CopyId, trouble: Trouble, now: int) returns (outcome: Outcome, ghost ls: seq<Label>)
      requires c in platform.copies && platform.copies[c].place.Ready?
      requires Undisturbed(platform.Abs(), platform.copies[c].message)
      modifies platform
      ensures var s, m := old(platform.Abs()), old(platform.copies)[c].message;
        var throws := ProcessThrows(s, m, trouble.db);
        && (outcome.Finished? <==> !throws && !trouble.ackThrows)
        && (outcome.Finished? ==> outcome.duplicate == (m.messageId in s.processed))
        && (outcome.Requeued? <==> !outcome.Finished? && trouble.publishThrows)
        && (outcome.Resent? ==> outcome.copy !in s.copies && outcome.acked == !trouble.lateAckThrows)
        && platform.Abs()
           == AfterProcess(s, m, throws, now).(copies := CopiesAfter(platform.cfg, s, c, outcome))
        && RowsLeft(s, m, trouble.db, now, platform.orders, platform.processed)
        && (outcome == Finished(false) <==> Takes(s, m, trouble.db) && !trouble.ackThrows)
        && (outcome.Resent? ==>
              outcome.copy in platform.copies && Follows(platform.cfg, m, platform.copies[outcome.copy]))
      ensures Runs(platform.cfg, old(platform.Abs()), ls, platform.Abs())
    {
      ghost var s0, cfg := platform.Abs(), platform.cfg;
      ProcessLeaves(s0, platform.copies[c].message, trouble.db, now);
      var h, result;
      h, result, ls := ReceiveAndProcess(c, trouble.db, now);
      ghost var s2 := platform.Abs();
      if result.Ok? {
        SettledIs(cfg, s0, s2, h, c, false, now, Done, Finished(result.value));
        if !trouble.ackThrows {
          AckMessage(h);
          RunsJoin(cfg, s0, ls, s2, [Ack(h)], platform.Abs());
          return Finished(result.value), ls + [Ack(h)];
        }
        SetHandler(h, Caught);
        RunsOn(cfg, s0, ls, s2, AckThrows(h));
        ls := ls + [AckThrows(h)];
      }
      ghost var s3, tail := platform.Abs(), [];
      SettledIs(cfg, s0, s3, h, c, result.Err?, now, Caught, Requeued);
      outcome, tail := HandleFailure(h, trouble.publishThrows, trouble.lateAckThrows);
      SettledIs(cfg, s0, s3, h, c, result.Err?, now, Caught, outcome);
      RunsJoin(cfg, s0, ls, s3, tail, platform.Abs());
      ls := ls + tail;
    }
  }
}
