/**
 The asynchronous order pipeline as a labelled transition system: orders and outbox rows written
 together, overlapping relay ticks, the broker's queues, and workers that crash, retry and repeat.

 A label fixes every choice its step makes, so a run is a sequence of labels. One step is one
 statement, broker call or commit; any other step may come between two steps of a tick or a worker.
 */
module PipelineModel {
  import opened Wrappers
  import BackOff

  type OrderId = nat
  type EventId = nat
  type MessageId = nat
  type CopyId = nat
  type HandlerId = nat
  type TickId = nat

  datatype Config = Config(maxAttempts: nat, batchSize: nat, retryDelayMs: nat)

  // ---- committed rows -------------------------------------------------------------------------

  datatype OrderStatus = Pending | Paid | Shipped | Cancelled | Processed

  datatype Order = Order(status: OrderStatus, statusVersion: nat, processedAt: Option<int>)

  /** A message says which attempt it is, counting from 1. */
  type Attempt = n: nat | n >= 1 witness 1

  datatype Message = Message(messageId: MessageId, orderId: OrderId, attempt: Attempt, alwaysFail: bool)

  datatype EventStatus = EventPending | EventFailed | EventSent

  datatype Payload = ProcessRequested(message: Message) | OrderPlaced(orderId: OrderId)

  datatype Event = Event(payload: Payload, status: EventStatus, attempts: nat,
                         nextRetryAt: Option<int>, createdAt: int)

  // ---- the broker -----------------------------------------------------------------------------

  /** Where the broker keeps one copy of a message. */
  datatype Place = Ready | Unacked(holder: HandlerId) | InRetry(ttl: nat) | InDlq

  datatype Copy = Copy(message: Message, place: Place)

  // ---- work in progress -----------------------------------------------------------------------

  datatype TickPc = AtPublish | AtMark(published: bool)

  /** An open relay transaction: the rows it locked, how far its loop got, and its unseen writes. */
  datatype Tick = Tick(batch: seq<EventId>, next: nat, pc: TickPc, writes: map<EventId, Event>)

  datatype HandlerPc =
    | Start              // delivered, transaction not yet begun
    | Inserted           // processed_messages row inserted, uncommitted: holds the message key
    | Updated(row: Order) // orders row updated, uncommitted: holds key and row lock
    | Done               // committed as success or duplicate, about to ack
    | Caught             // rolled back, in the catch block
    | Republished        // retry or dead-letter copy is out, about to ack
    | Nacking            // a publish or an ack threw, about to requeue

  datatype Handler = Handler(copy: CopyId, message: Message, pc: HandlerPc)

  datatype State = State(
    orders: map<OrderId, Order>,
    outbox: map<EventId, Event>,
    locks: map<EventId, TickId>,
    ticks: map<TickId, Tick>,
    copies: map<CopyId, Copy>,
    handlers: map<HandlerId, Handler>,
    processed: map<MessageId, OrderId>)

  const Initial := State(map[], map[], map[], map[], map[], map[], map[])

  datatype Label =
    | Create(order: OrderId, processEvent: EventId, placedEvent: EventId, messageId: MessageId,
             alwaysFail: bool, at: int)
    | UpdateStatus(order: OrderId, status: OrderStatus)
    | Claim(tick: TickId, batch: seq<EventId>, now: int)
    | PublishEvent(tick: TickId, copy: CopyId)
    | PublishEventThrows(tick: TickId)
    | Mark(tick: TickId, clock: int)
    | CommitTick(tick: TickId)
    | RollbackTick(tick: TickId)
    | Expire(copy: CopyId)
    | Deliver(copy: CopyId, handler: HandlerId)
    | Insert(handler: HandlerId)
    | Update(handler: HandlerId, now: int)
    | Commit(handler: HandlerId)
    | Throw(handler: HandlerId)
    | PublishRetry(handler: HandlerId, copy: CopyId)
    | PublishDlq(handler: HandlerId, copy: CopyId)
    | PublishThrows(handler: HandlerId)
    | Ack(handler: HandlerId)
    | AckThrows(handler: HandlerId)
    | Nack(handler: HandlerId)
    | Die(handler: HandlerId)
    | Requeue(copy: CopyId)

  /** Crashes, lost connections, rolled-back ticks and worker broker calls that throw. */
  predicate Fault(l: Label) {
    l.RollbackTick? || l.PublishThrows? || l.AckThrows? || l.Die? || l.Requeue?
  }

  /** Requests from outside; every other step is work of the relay, the broker or a worker. */
  predicate Request(l: Label) {
    l.Create? || l.UpdateStatus?
  }

  predicate Productive(l: Label) {
    !Fault(l) && !Request(l)
  }

  // ---- guards ---------------------------------------------------------------------------------

  predicate Claimable(cfg: Config, e: Event, now: int) {
    && e.status != EventSent
    && e.attempts < cfg.maxAttempts
    && (e.nextRetryAt == None || e.nextRetryAt.value <= now)
  }

  predicate HoldsKey(h: Handler) {
    h.pc.Inserted? || h.pc.Updated?
  }

  /** An insert of the same message id waits for the transaction that holds the key. */
  ghost predicate KeyFree(s: State, h: HandlerId)
    requires h in s.handlers
  {
    forall g :: g in s.handlers && g != h && HoldsKey(s.handlers[g]) ==>
      s.handlers[g].message.messageId != s.handlers[h].message.messageId
  }

  /** No open worker transaction has updated this order's row. */
  ghost predicate RowFree(s: State, o: OrderId) {
    forall g :: g in s.handlers && s.handlers[g].pc.Updated? ==> s.handlers[g].message.orderId != o
  }

  ghost predicate FreshMessageId(s: State, m: MessageId) {
    forall e :: e in s.outbox && s.outbox[e].payload.ProcessRequested? ==>
      s.outbox[e].payload.message.messageId != m
  }

  /** A delivery tag no earlier handler still stands for. */
  ghost predicate FreshHandler(s: State, h: HandlerId) {
    h !in s.handlers && forall c :: c in s.copies ==> s.copies[c].place != Unacked(h)
  }

  predicate TickAt(s: State, t: TickId, atMark: bool) {
    && t in s.ticks
    && s.ticks[t].next < |s.ticks[t].batch|
    && s.ticks[t].pc.AtMark? == atMark
    && s.ticks[t].batch[s.ticks[t].next] in s.outbox
  }

  function CurrentEvent(s: State, t: TickId): EventId
    requires TickAt(s, t, true) || TickAt(s, t, false)
  {
    s.ticks[t].batch[s.ticks[t].next]
  }

  predicate HandlerAt(s: State, h: HandlerId, pc: HandlerPc) {
    h in s.handlers && s.handlers[h].pc == pc
  }

  predicate InTransaction(h: Handler) {
    h.pc.Start? || HoldsKey(h)
  }

  /** The broker still counts this delivery as the handler's own. */
  predicate OwnsDelivery(s: State, h: HandlerId)
    requires h in s.handlers
  {
    s.handlers[h].copy in s.copies && s.copies[s.handlers[h].copy].place == Unacked(h)
  }

  ghost predicate Enabled(cfg: Config, s: State, l: Label) {
    match l
    case Create(o, e1, e2, m, _, _) =>
      o !in s.orders && e1 !in s.outbox && e2 !in s.outbox && e1 != e2 && FreshMessageId(s, m)
    case UpdateStatus(o, status) =>
      o in s.orders && s.orders[o].status != status && RowFree(s, o)
    case Claim(t, batch, now) =>
      && t !in s.ticks && 0 < |batch| <= cfg.batchSize
      && (forall i, j :: 0 <= i < j < |batch| ==> batch[i] != batch[j])
      && (forall e :: e in batch ==> e in s.outbox && e !in s.locks && Claimable(cfg, s.outbox[e], now))
    case PublishEvent(t, c) => TickAt(s, t, false) && c !in s.copies
    case PublishEventThrows(t) => TickAt(s, t, false)
    case Mark(t, _) => TickAt(s, t, true)
    case CommitTick(t) => t in s.ticks && s.ticks[t].next == |s.ticks[t].batch|
    case RollbackTick(t) => t in s.ticks
    case Expire(c) => c in s.copies && s.copies[c].place.InRetry?
    case Deliver(c, h) => c in s.copies && s.copies[c].place.Ready? && FreshHandler(s, h)
    case Insert(h) =>
      && HandlerAt(s, h, Start) && KeyFree(s, h)
      && (s.handlers[h].message.messageId in s.processed || s.handlers[h].message.orderId in s.orders)
    case Update(h, _) =>
      && HandlerAt(s, h, Inserted) && !s.handlers[h].message.alwaysFail
      && s.handlers[h].message.orderId in s.orders && RowFree(s, s.handlers[h].message.orderId)
    case Commit(h) => h in s.handlers && s.handlers[h].pc.Updated?
    case Throw(h) => h in s.handlers && InTransaction(s.handlers[h])
    case PublishRetry(h, c) =>
      HandlerAt(s, h, Caught) && s.handlers[h].message.attempt < cfg.maxAttempts && c !in s.copies
    case PublishDlq(h, c) =>
      HandlerAt(s, h, Caught) && s.handlers[h].message.attempt >= cfg.maxAttempts && c !in s.copies
    case PublishThrows(h) => HandlerAt(s, h, Caught)
    case Ack(h) => HandlerAt(s, h, Done) || HandlerAt(s, h, Republished)
    case AckThrows(h) => HandlerAt(s, h, Done) || HandlerAt(s, h, Republished)
    case Nack(h) => HandlerAt(s, h, Nacking)
    case Die(h) => h in s.handlers
    case Requeue(c) => c in s.copies && s.copies[c].place.Unacked?
  }

  // ---- effects --------------------------------------------------------------------------------

  function NewEvent(payload: Payload, at: int): Event {
    Event(payload, EventPending, 0, Some(at), at)
  }

  function Sent(e: Event): Event {
    e.(status := EventSent)
  }

  function Failed(cfg: Config, e: Event, clock: int): Event {
    e.(status := EventFailed, attempts := e.attempts + 1,
       nextRetryAt := Some(clock + BackOff.Delay(e.attempts + 1, cfg.retryDelayMs)))
  }

  function ProcessedRow(o: Order, now: int): Order {
    o.(status := Processed, processedAt := if o.processedAt == None then Some(now) else o.processedAt)
  }

  function SetPc(s: State, h: HandlerId, pc: HandlerPc): State
    requires h in s.handlers
  {
    s.(handlers := s.handlers[h := s.handlers[h].(pc := pc)])
  }

  function SetPlace(s: State, c: CopyId, place: Place): State
    requires c in s.copies
  {
    s.(copies := s.copies[c := s.copies[c].(place := place)])
  }

  function EndTick(s: State, t: TickId): State
    requires t in s.ticks
  {
    s.(ticks := s.ticks - {t}, locks := s.locks - (set e | e in s.ticks[t].batch))
  }

  function DropHandler(s: State, h: HandlerId): State {
    s.(handlers := s.handlers - {h})
  }

  function Next(cfg: Config, s: State, l: Label): State
    requires Enabled(cfg, s, l)
  {
    match l
    case Create(o, e1, e2, m, alwaysFail, at) =>
      s.(orders := s.orders[o := Order(Pending, 0, None)],
         outbox := s.outbox[e1 := NewEvent(ProcessRequested(Message(m, o, 1, alwaysFail)), at)]
                           [e2 := NewEvent(OrderPlaced(o), at)])
    case UpdateStatus(o, status) =>
      s.(orders := s.orders[o := s.orders[o].(status := status,
                                              statusVersion := s.orders[o].statusVersion + 1)])
    case Claim(t, batch, _) =>
      s.(ticks := s.ticks[t := Tick(batch, 0, AtPublish, map[])],
         locks := s.locks + (map e | e in batch :: t))
    case PublishEvent(t, c) =>
      var payload := s.outbox[CurrentEvent(s, t)].payload;
      s.(ticks := s.ticks[t := s.ticks[t].(pc := AtMark(true))],
         copies := if payload.ProcessRequested? then s.copies[c := Copy(payload.message, Ready)] else s.copies)
    case PublishEventThrows(t) =>
      s.(ticks := s.ticks[t := s.ticks[t].(pc := AtMark(false))])
    case Mark(t, clock) =>
      var tick, e := s.ticks[t], CurrentEvent(s, t);
      var row := if tick.pc.published then Sent(s.outbox[e]) else Failed(cfg, s.outbox[e], clock);
      s.(ticks := s.ticks[t := Tick(tick.batch, tick.next + 1, AtPublish, tick.writes[e := row])])
    case CommitTick(t) =>
      EndTick(s, t).(outbox := s.outbox + s.ticks[t].writes)
    case RollbackTick(t) =>
      EndTick(s, t)
    case Expire(c) =>
      SetPlace(s, c, Ready)
    case Deliver(c, h) =>
      SetPlace(s, c, Unacked(h)).(handlers := s.handlers[h := Handler(c, s.copies[c].message, Start)])
    case Insert(h) =>
      SetPc(s, h, if s.handlers[h].message.messageId in s.processed then Done else Inserted)
    case Update(h, now) =>
      SetPc(s, h, Updated(ProcessedRow(s.orders[s.handlers[h].message.orderId], now)))
    case Commit(h) =>
      var m := s.handlers[h].message;
      SetPc(s, h, Done).(orders := s.orders[m.orderId := s.handlers[h].pc.row],
                         processed := s.processed[m.messageId := m.orderId])
    case Throw(h) =>
      SetPc(s, h, Caught)
    case PublishRetry(h, c) =>
      var m := s.handlers[h].message;
      var retry := Copy(m.(attempt := m.attempt + 1), InRetry(BackOff.Delay(m.attempt, cfg.retryDelayMs)));
      SetPc(s, h, Republished).(copies := s.copies[c := retry])
    case PublishDlq(h, c) =>
      SetPc(s, h, Republished).(copies := s.copies[c := Copy(s.handlers[h].message, InDlq)])
    case PublishThrows(h) =>
      SetPc(s, h, Nacking)
    case Ack(h) =>
      DropHandler(if OwnsDelivery(s, h) then s.(copies := s.copies - {s.handlers[h].copy}) else s, h)
    case AckThrows(h) =>
      SetPc(s, h, if s.handlers[h].pc.Done? then Caught else Nacking)
    case Nack(h) =>
      DropHandler(if OwnsDelivery(s, h) then SetPlace(s, s.handlers[h].copy, Ready) else s, h)
    case Die(h) =>
      DropHandler(s, h)
    case Requeue(c) =>
      SetPlace(s, c, Ready)
  }

  // ---- which step touches what ----------------------------------------------------------------

  predicate WorkerLabel(l: Label) {
    || l.Deliver? || l.Insert? || l.Update? || l.Commit? || l.Throw? || l.PublishRetry? || l.PublishDlq?
    || l.PublishThrows? || l.Ack? || l.AckThrows? || l.Nack? || l.Die?
  }

  lemma OrdersEffect(cfg: Config, s: State, l: Label)
    requires Enabled(cfg, s, l)
    ensures !l.Commit? ==> Next(cfg, s, l).processed == s.processed
    ensures !l.Commit? && !Request(l) ==> Next(cfg, s, l).orders == s.orders
  {}

  lemma OrdersAfter(cfg: Config, s: State, l: Label)
    requires Enabled(cfg, s, l)
    ensures l.Commit? ==>
      Next(cfg, s, l).orders == s.orders[s.handlers[l.handler].message.orderId := s.handlers[l.handler].pc.row]
    ensures l.Create? ==> l.order !in s.orders && Next(cfg, s, l).orders == s.orders[l.order := Order(Pending, 0, None)]
    ensures l.UpdateStatus? ==>
      && l.order in s.orders
      && Next(cfg, s, l).orders
         == s.orders[l.order := s.orders[l.order].(status := l.status,
                                                   statusVersion := s.orders[l.order].statusVersion + 1)]
    ensures !l.Commit? && !Request(l) ==> Next(cfg, s, l).orders == s.orders
  {}

  // ---- runs -----------------------------------------------------------------------------------

  /** The state after taking the labels from `s`, or None when one of them is not enabled. */
  ghost function ExecFrom(cfg: Config, s: State, ls: seq<Label>): Option<State> {
    if ls == [] then Some(s) else
    var before := ExecFrom(cfg, s, ls[..|ls| - 1]);
    if before.Some? && Enabled(cfg, before.value, ls[|ls| - 1])
    then Some(Next(cfg, before.value, ls[|ls| - 1]))
    else None
  }

  ghost function Exec(cfg: Config, ls: seq<Label>): Option<State> {
    ExecFrom(cfg, Initial, ls)
  }

  ghost predicate Reachable(cfg: Config, s: State) {
    exists ls :: Exec(cfg, ls) == Some(s)
  }

  /** What a run can be asked to count. */
  datatype Tally =
    | EventPublished(event: EventId)     // a tick published the event
    | PublishLost(event: EventId)        // a tick that had published it rolled back
    | FailureCommitted(event: EventId)   // a tick committed a failed publish of it
    | MessageProcessed(message: MessageId) // a worker committed the PROCESSED update for it
    | HandlerFailed(message: MessageId)  // a worker's transaction for it was rolled back by an error

  /** The tick has published `e` and not yet ended. */
  predicate HasPublished(tick: Tick, e: EventId) {
    || (e in tick.writes && tick.writes[e].status == EventSent)
    || (tick.pc == AtMark(true) && tick.next < |tick.batch| && tick.batch[tick.next] == e)
  }

  predicate Hit(s: State, l: Label, k: Tally) {
    match k
    case EventPublished(e) => l.PublishEvent? && TickAt(s, l.tick, false) && CurrentEvent(s, l.tick) == e
    case PublishLost(e) => l.RollbackTick? && l.tick in s.ticks && HasPublished(s.ticks[l.tick], e)
    case FailureCommitted(e) =>
      l.CommitTick? && l.tick in s.ticks && e in s.ticks[l.tick].writes
      && s.ticks[l.tick].writes[e].status == EventFailed
    case MessageProcessed(m) =>
      l.Commit? && l.handler in s.handlers && s.handlers[l.handler].message.messageId == m
    case HandlerFailed(m) =>
      l.Throw? && l.handler in s.handlers && s.handlers[l.handler].message.messageId == m
  }

  ghost function Count(cfg: Config, ls: seq<Label>, k: Tally): nat {
    if ls == [] then 0 else
    var before := Exec(cfg, ls[..|ls| - 1]);
    Count(cfg, ls[..|ls| - 1], k)
    + if before.Some? && Hit(before.value, ls[|ls| - 1], k) then 1 else 0
  }

  lemma {:induction false} ExecConcat(cfg: Config, s: State, a: seq<Label>, b: seq<Label>)
    requires ExecFrom(cfg, s, a).Some?
    ensures ExecFrom(cfg, s, a + b) == ExecFrom(cfg, ExecFrom(cfg, s, a).value, b)
  {
    if b == [] {
      assert a + b == a;
    } else {
      ExecConcat(cfg, s, a, b[..|b| - 1]);
      assert (a + b)[..|a + b| - 1] == a + b[..|b| - 1];
    }
  }
}
