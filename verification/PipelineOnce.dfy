/** The PROCESSED update takes effect once per message, however often the message arrives. */
module PipelineOnce {
  import opened Wrappers
  import opened PipelineModel
  import opened PipelineRelay
  import opened PipelineIdentity

  /** A message key is held by one open transaction at most, and by none once it is committed. */
  ghost predicate KeysExclusive(s: State) {
    && (forall h :: h in s.handlers && HoldsKey(s.handlers[h]) ==>
          s.handlers[h].message.messageId !in s.processed)
    && (forall h, g ::
          (h in s.handlers && g in s.handlers && HoldsKey(s.handlers[h]) && HoldsKey(s.handlers[g])
           && s.handlers[h].message.messageId == s.handlers[g].message.messageId) ==> h == g)
  }

  /** The row a worker is about to commit is the current row, processed: its lock kept it current. */
  ghost predicate RowCurrent(s: State, h: Handler)
    requires h.pc.Updated?
  {
    h.message.orderId in s.orders && exists now :: h.pc.row == ProcessedRow(s.orders[h.message.orderId], now)
  }

  ghost predicate RowsCurrent(s: State) {
    forall h :: h in s.handlers && s.handlers[h].pc.Updated? ==> RowCurrent(s, s.handlers[h])
  }

  ghost predicate ProcessedFor(s: State, o: OrderId) {
    exists m :: m in s.processed && s.processed[m] == o
  }

  ghost predicate TimesMatch(s: State) {
    forall o :: o in s.orders ==> (s.orders[o].processedAt != None <==> ProcessedFor(s, o))
  }

  ghost predicate OnceSound(s: State) {
    KeysExclusive(s) && RowsCurrent(s) && TimesMatch(s)
  }

  lemma KeysStayExclusive(cfg: Config, s: State, l: Label)
    requires KeysExclusive(s) && Enabled(cfg, s, l)
    ensures KeysExclusive(Next(cfg, s, l))
  {
    var s' := Next(cfg, s, l);
    forall h, g | h in s'.handlers && g in s'.handlers && HoldsKey(s'.handlers[h])
      && HoldsKey(s'.handlers[g])
      && s'.handlers[h].message.messageId == s'.handlers[g].message.messageId
      ensures h == g
    {}
  }

  /** The rows two open updates are about to write belong to different orders. */
  lemma UpdatesDisjoint(s: State, h: HandlerId, g: HandlerId)
    requires KeysExclusive(s) && IdentitySound(s) && h in s.handlers && g in s.handlers && h != g
    requires HoldsKey(s.handlers[h]) && HoldsKey(s.handlers[g])
    ensures s.handlers[h].message.orderId != s.handlers[g].message.orderId
  {
    var m, n := s.handlers[h].message, s.handlers[g].message;
    var e :| ProcessEventOf(s.outbox, e, m.messageId, m.orderId);
    var f :| ProcessEventOf(s.outbox, f, n.messageId, n.orderId);
  }

  lemma RowStaysCurrent(cfg: Config, s: State, l: Label, h: HandlerId)
    requires OnceSound(s) && IdentitySound(s) && Enabled(cfg, s, l)
    requires h in Next(cfg, s, l).handlers && Next(cfg, s, l).handlers[h].pc.Updated?
    ensures RowCurrent(Next(cfg, s, l), Next(cfg, s, l).handlers[h])
  {
    var s' := Next(cfg, s, l);
    OrdersEffect(cfg, s, l);
    if l.Update? && l.handler == h {
      assert s'.handlers[h].pc.row == ProcessedRow(s'.orders[s'.handlers[h].message.orderId], l.now);
    } else {
      UpdatedHandlerUnchanged(cfg, s, l, h);
      assert RowCurrent(s, s.handlers[h]);
      if l.Commit? {
        UpdatesDisjoint(s, l.handler, h);
      }
    }
  }

  lemma UpdatedHandlerUnchanged(cfg: Config, s: State, l: Label, h: HandlerId)
    requires Enabled(cfg, s, l) && !(l.Update? && l.handler == h)
    requires h in Next(cfg, s, l).handlers && Next(cfg, s, l).handlers[h].pc.Updated?
    ensures h in s.handlers && s.handlers[h] == Next(cfg, s, l).handlers[h]
    ensures !(l.Commit? && l.handler == h)
  {}

  lemma CommitRecords(cfg: Config, s: State, h: HandlerId)
    requires OnceSound(s) && Enabled(cfg, s, Commit(h))
    ensures TimesMatch(Next(cfg, s, Commit(h)))
  {
    var s' := Next(cfg, s, Commit(h));
    var m := s.handlers[h].message;
    assert RowCurrent(s, s.handlers[h]);
    assert m.messageId in s'.processed && s'.processed[m.messageId] == m.orderId;
    forall o | o in s'.orders ensures s'.orders[o].processedAt != None <==> ProcessedFor(s', o) {
      if o != m.orderId && ProcessedFor(s, o) {
        var n :| n in s.processed && s.processed[n] == o;
        assert n in s'.processed && s'.processed[n] == o;
      }
    }
  }

  lemma TimesStayMatched(cfg: Config, s: State, l: Label)
    requires OnceSound(s) && IdentitySound(s) && Enabled(cfg, s, l)
    ensures TimesMatch(Next(cfg, s, l))
  {
    var s' := Next(cfg, s, l);
    if l.Commit? {
      CommitRecords(cfg, s, l.handler);
    } else {
      OrdersEffect(cfg, s, l);
      if l.Create? {
        forall m | m in s.processed ensures s.processed[m] != l.order {
          assert Known(s.outbox, m, s.processed[m]);
        }
      }
    }
  }

  lemma OnceStaysSound(cfg: Config, s: State, l: Label)
    requires OnceSound(s) && IdentitySound(s) && Enabled(cfg, s, l)
    ensures OnceSound(Next(cfg, s, l))
  {
    var s' := Next(cfg, s, l);
    KeysStayExclusive(cfg, s, l);
    TimesStayMatched(cfg, s, l);
    forall h | h in s'.handlers && s'.handlers[h].pc.Updated? ensures RowCurrent(s', s'.handlers[h]) {
      RowStaysCurrent(cfg, s, l, h);
    }
  }

  lemma {:induction false} RunsAreOnceSound(cfg: Config, ls: seq<Label>)
    requires Exec(cfg, ls).Some?
    ensures OnceSound(Exec(cfg, ls).value)
  {
    if ls != [] {
      RunsAreOnceSound(cfg, ls[..|ls| - 1]);
      RunsAreIdentitySound(cfg, ls[..|ls| - 1]);
      OnceStaysSound(cfg, Exec(cfg, ls[..|ls| - 1]).value, ls[|ls| - 1]);
    }
  }

  // ---- the theorems ---------------------------------------------------------------------------

  /**
   Over any run, with any number of workers and copies, the PROCESSED update of a message commits at
   most once, and it has committed exactly when its processed_messages row exists.
   */
  lemma {:induction false} ProcessedOncePerMessage(cfg: Config, ls: seq<Label>, m: MessageId)
    requires Exec(cfg, ls).Some?
    ensures Count(cfg, ls, MessageProcessed(m)) == if m in Exec(cfg, ls).value.processed then 1 else 0
  {
    if ls != [] {
      var before, l := ls[..|ls| - 1], ls[|ls| - 1];
      ProcessedOncePerMessage(cfg, before, m);
      RunsAreOnceSound(cfg, before);
      StepProcesses(cfg, Exec(cfg, before).value, l, m);
    }
  }

  lemma StepProcesses(cfg: Config, s: State, l: Label, m: MessageId)
    requires KeysExclusive(s) && Enabled(cfg, s, l)
    ensures m in Next(cfg, s, l).processed <==> m in s.processed || Hit(s, l, MessageProcessed(m))
    ensures !(m in s.processed && Hit(s, l, MessageProcessed(m)))
  {
    OrdersEffect(cfg, s, l);
    if l.Commit? {
      assert HoldsKey(s.handlers[l.handler]);
    }
  }

  /**
   The step of a run that commits the update for a message leaves the message's order PROCESSED, with its status
   version as it was and a processed_at, the one it had if it had one.
   */
  lemma CommitMarksProcessed(cfg: Config, ls: seq<Label>, l: Label, m: MessageId)
    requires Exec(cfg, ls).Some? && Enabled(cfg, Exec(cfg, ls).value, l)
    requires Hit(Exec(cfg, ls).value, l, MessageProcessed(m))
    ensures var s, after := Exec(cfg, ls).value, Next(cfg, Exec(cfg, ls).value, l);
      && Known(s.outbox, m, s.handlers[l.handler].message.orderId)
      && var o := s.handlers[l.handler].message.orderId;
        && m in after.processed && after.processed[m] == o && o in s.orders && o in after.orders
        && after.orders[o].status == Processed && after.orders[o].statusVersion == s.orders[o].statusVersion
        && after.orders[o].processedAt.Some?
        && (s.orders[o].processedAt.Some? ==> after.orders[o].processedAt == s.orders[o].processedAt)
        && after.orders == s.orders[o := after.orders[o]]
  {
    var s := Exec(cfg, ls).value;
    RunsAreIdentitySound(cfg, ls);
    RunsAreOnceSound(cfg, ls);
    OrdersAfter(cfg, s, l);
    assert RowCurrent(s, s.handlers[l.handler]);
  }

  /** Once set, an order's processed_at never changes. */
  lemma ProcessedAtIsFinal(cfg: Config, ls: seq<Label>, l: Label, o: OrderId)
    requires Exec(cfg, ls).Some? && Enabled(cfg, Exec(cfg, ls).value, l)
    requires o in Exec(cfg, ls).value.orders && Exec(cfg, ls).value.orders[o].processedAt != None
    ensures o in Next(cfg, Exec(cfg, ls).value, l).orders
    ensures Next(cfg, Exec(cfg, ls).value, l).orders[o].processedAt == Exec(cfg, ls).value.orders[o].processedAt
  {
    RunsAreIdentitySound(cfg, ls);
    RunsAreOnceSound(cfg, ls);
    StepKeepsProcessedAt(cfg, Exec(cfg, ls).value, l, o);
  }

  lemma StepKeepsProcessedAt(cfg: Config, s: State, l: Label, o: OrderId)
    requires RowsCurrent(s) && Enabled(cfg, s, l)
    requires o in s.orders && s.orders[o].processedAt != None
    ensures o in Next(cfg, s, l).orders
    ensures Next(cfg, s, l).orders[o].processedAt == s.orders[o].processedAt
  {
    OrdersAfter(cfg, s, l);
    if l.Commit? {
      assert RowCurrent(s, s.handlers[l.handler]);
    }
  }

  lemma ProcessedAfter(cfg: Config, s: State, l: Label, m: MessageId)
    requires KeysExclusive(s) && Enabled(cfg, s, l) && m in s.processed
    ensures m in Next(cfg, s, l).processed && Next(cfg, s, l).processed[m] == s.processed[m]
  {
    OrdersEffect(cfg, s, l);
    if l.Commit? {
      assert HoldsKey(s.handlers[l.handler]);
    }
  }

  lemma OnlyStatusUpdatesTouch(cfg: Config, s: State, l: Label, o: OrderId)
    requires OnceSound(s) && IdentitySound(s) && Enabled(cfg, s, l)
    requires o in s.orders && ProcessedFor(s, o) && !(l.UpdateStatus? && l.order == o)
    ensures o in Next(cfg, s, l).orders && Next(cfg, s, l).orders[o] == s.orders[o]
    ensures ProcessedFor(Next(cfg, s, l), o)
  {
    var m :| m in s.processed && s.processed[m] == o;
    ProcessedAfter(cfg, s, l, m);
    OrdersAfter(cfg, s, l);
    if l.Commit? {
      CommitElsewhere(s, l.handler, m, o);
    }
  }

  /** A worker that still holds its key works for an order whose message is not processed. */
  lemma CommitElsewhere(s: State, h: HandlerId, m: MessageId, o: OrderId)
    requires KeysExclusive(s) && IdentitySound(s) && h in s.handlers && HoldsKey(s.handlers[h])
    requires m in s.processed && s.processed[m] == o
    ensures s.handlers[h].message.messageId != m && s.handlers[h].message.orderId != o
  {
    var n := s.handlers[h].message;
    var e :| ProcessEventOf(s.outbox, e, m, o);
    var f :| ProcessEventOf(s.outbox, f, n.messageId, n.orderId);
  }

  /**
   After an order has been processed, no later run of redeliveries, retries, repeated publishes and
   crashes changes its row: a status set by hand stays until the next status update.
   */
  lemma {:induction false} StatusNeverUndone(cfg: Config, ls: seq<Label>, later: seq<Label>, o: OrderId)
    requires Exec(cfg, ls).Some? && Exec(cfg, ls + later).Some?
    requires o in Exec(cfg, ls).value.orders && Exec(cfg, ls).value.orders[o].processedAt != None
    requires forall i :: 0 <= i < |later| ==> !(later[i].UpdateStatus? && later[i].order == o)
    ensures o in Exec(cfg, ls + later).value.orders
    ensures Exec(cfg, ls + later).value.orders[o] == Exec(cfg, ls).value.orders[o]
  {
    if later == [] {
      assert ls + later == ls;
    } else {
      var most := later[..|later| - 1];
      assert (ls + later)[..|ls + later| - 1] == ls + most;
      StatusNeverUndone(cfg, ls, most, o);
      RunsAreIdentitySound(cfg, ls + most);
      RunsAreOnceSound(cfg, ls + most);
      OnlyStatusUpdatesTouch(cfg, Exec(cfg, ls + most).value, later[|later| - 1], o);
    }
  }
}
