/** The pipeline's state as an object that the services update in place. */
module PipelinePlatform {
  import opened Wrappers
  import opened PipelineModel

  /** The database and the broker, with the transactions and handlers open on them. */
  class Platform {
    const cfg: Config

    var orders: map<OrderId, Order>
    var outbox: map<EventId, Event>
    var locks: map<EventId, TickId>
    var ticks: map<TickId, Tick>
    var copies: map<CopyId, Copy>
    var handlers: map<HandlerId, Handler>
    var processed: map<MessageId, OrderId>

    constructor (cfg: Config)
      ensures this.cfg == cfg && Abs() == Initial
    {
      this.cfg := cfg;
      orders, outbox, locks, ticks, copies, handlers, processed :=
        map[], map[], map[], map[], map[], map[], map[];
    }

    ghost function Abs(): State
      reads this
    {
      State(orders, outbox, locks, ticks, copies, handlers, processed)
    }
  }

  /** A run of the transition system leads from one state of the platform to another. */
  ghost predicate Runs(cfg: Config, before: State, ls: seq<Label>, after: State) {
    ExecFrom(cfg, before, ls) == Some(after)
  }

  lemma RunsOn(cfg: Config, before: State, ls: seq<Label>, middle: State, l: Label)
    requires Runs(cfg, before, ls, middle) && Enabled(cfg, middle, l)
    ensures Runs(cfg, before, ls + [l], Next(cfg, middle, l))
  {
    assert (ls + [l])[..|ls + [l]| - 1] == ls;
  }

  lemma RunsJoin(cfg: Config, a: State, ls: seq<Label>, b: State, ms: seq<Label>, c: State)
    requires Runs(cfg, a, ls, b) && Runs(cfg, b, ms, c)
    ensures Runs(cfg, a, ls + ms, c)
  {
    ExecConcat(cfg, a, ls, ms);
  }
}
