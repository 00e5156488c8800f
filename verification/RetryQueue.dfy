/** The broker's topology and its retry queue, whose messages expire only at the head. */
module RetryQueue {
  import opened Wrappers
  import BackOff

  const PROCESS := "orders.process"
  const RETRY := "orders.retry"
  const DLQ := "orders.dlq"

  /** A queued message: when it was published and how long it may stay, if it may not stay forever. */
  datatype Entry = Entry(payload: string, enqueuedAt: nat, ttl: Option<nat>)

  datatype Queue = Queue(entries: seq<Entry>, deadLetterKey: Option<string>)

  function Due(e: Entry): nat
    requires e.ttl.Some?
  {
    e.enqueuedAt + e.ttl.value
  }

  predicate AllExpire(q: seq<Entry>) {
    forall i :: 0 <= i < |q| ==> q[i].ttl.Some?
  }

  /** When the i-th message leaves: it is due, and everything before it has left. */
  function LeavesAt(q: seq<Entry>, i: nat): nat
    requires AllExpire(q) && i < |q|
  {
    if i == 0 then Due(q[0]) else
    var ahead := LeavesAt(q, i - 1);
    if ahead <= Due(q[i]) then Due(q[i]) else ahead
  }

  lemma {:induction false} NeverEarly(q: seq<Entry>, i: nat)
    requires AllExpire(q) && i < |q|
    ensures LeavesAt(q, i) >= Due(q[i])
  {}

  lemma {:induction false} OrderKept(q: seq<Entry>, i: nat, j: nat)
    requires AllExpire(q) && i <= j < |q|
    ensures LeavesAt(q, i) <= LeavesAt(q, j)
    decreases j
  {
    if i < j {
      OrderKept(q, i, j - 1);
    }
  }

  /** The wait is that of some message at or before it: exactly the latest due time so far. */
  lemma {:induction false} LeavesWithTheLatest(q: seq<Entry>, i: nat)
    requires AllExpire(q) && i < |q|
    ensures forall j :: 0 <= j <= i ==> Due(q[j]) <= LeavesAt(q, i)
    ensures exists j :: 0 <= j <= i && Due(q[j]) == LeavesAt(q, i)
  {
    if i > 0 {
      LeavesWithTheLatest(q, i - 1);
      if LeavesAt(q, i) == Due(q[i]) {
      } else {
        var j :| 0 <= j <= i - 1 && Due(q[j]) == LeavesAt(q, i - 1);
        assert Due(q[j]) == LeavesAt(q, i);
      }
    } else {
      assert Due(q[0]) == LeavesAt(q, 0);
    }
  }

  ghost predicate InOrder(q: seq<Entry>) {
    forall i, j :: 0 <= i <= j < |q| ==> q[i].enqueuedAt <= q[j].enqueuedAt
  }

  /** Even behind longer delays, a message waits no longer than the longest delay there is. */
  lemma WaitBounded(q: seq<Entry>, i: nat, longest: nat)
    requires AllExpire(q) && InOrder(q) && i < |q|
    requires forall j :: 0 <= j <= i ==> q[j].ttl.value <= longest
    ensures LeavesAt(q, i) <= q[i].enqueuedAt + longest
  {
    LeavesWithTheLatest(q, i);
    var j :| 0 <= j <= i && Due(q[j]) == LeavesAt(q, i);
    assert q[j].enqueuedAt <= q[i].enqueuedAt;
  }

  /** What the worker publishes: the delay of the attempt that failed. */
  ghost predicate FromWorker(q: seq<Entry>, baseDelay: nat) {
    forall i :: 0 <= i < |q| ==> exists attempt: nat ::
      attempt >= 1 && q[i].ttl == Some(BackOff.Delay(attempt, baseDelay))
  }

  lemma RetryWaitBounded(q: seq<Entry>, i: nat, baseDelay: nat)
    requires FromWorker(q, baseDelay) && InOrder(q) && i < |q|
    ensures AllExpire(q)
    ensures q[i].enqueuedAt + q[i].ttl.value <= LeavesAt(q, i) <= q[i].enqueuedAt + 60_000
  {
    forall j | 0 <= j < |q| ensures q[j].ttl.Some? && q[j].ttl.value <= BackOff.MAX_DELAY_MS {
      var attempt: nat :| attempt >= 1 && q[j].ttl == Some(BackOff.Delay(attempt, baseDelay));
    }
    NeverEarly(q, i);
    WaitBounded(q, i, BackOff.MAX_DELAY_MS);
  }

  /** The first messages of the queue, as many as have left by `now`. */
  ghost predicate LeftBy(q: seq<Entry>, n: nat, now: nat)
    requires AllExpire(q)
  {
    && n <= |q|
    && (forall i :: 0 <= i < n ==> LeavesAt(q, i) <= now)
    && (forall i :: n <= i < |q| ==> LeavesAt(q, i) > now)
  }

  lemma {:induction false} HeadBlocks(q: seq<Entry>, n: nat, now: nat)
    requires AllExpire(q) && n < |q| && (n > 0 ==> LeavesAt(q, n - 1) <= now) && Due(q[n]) > now
    ensures forall i :: n <= i < |q| ==> LeavesAt(q, i) > now
  {
    NeverEarly(q, n);
    forall i | n <= i < |q| ensures LeavesAt(q, i) > now {
      OrderKept(q, n, i);
    }
  }

  // ---- any run of publishes and looks ---------------------------------------------------------

  type Attempt = n: nat | n >= 1 witness 1

  /** The worker publishes a retry after a failed attempt, or the broker looks at the head of the queue. */
  datatype Step = Retry(payload: string, attempt: Attempt, at: nat) | Look(at: nat)

  /** A message that went back to the process queue, and when. */
  datatype Departure = Departure(entry: Entry, at: nat)

  datatype Flow = Flow(queue: seq<Entry>, departed: seq<Departure>)

  /** How many heads are due. A due message behind one that is not stays. */
  function DueHeads(q: seq<Entry>, now: nat): (n: nat)
    requires AllExpire(q)
    ensures n <= |q|
  {
    if q != [] && Due(q[0]) <= now then 1 + DueHeads(q[1..], now) else 0
  }

  function Departures(entries: seq<Entry>, at: nat): (departed: seq<Departure>)
    ensures |departed| == |entries|
    ensures forall i :: 0 <= i < |departed| ==> departed[i] == Departure(entries[i], at)
  {
    seq(|entries|, i requires 0 <= i < |entries| => Departure(entries[i], at))
  }

  function Apply(flow: Flow, step: Step, baseDelay: nat): (next: Flow)
    requires AllExpire(flow.queue)
    ensures AllExpire(next.queue)
  {
    match step
    case Retry(payload, attempt, at) =>
      flow.(queue := flow.queue + [Entry(payload, at, Some(BackOff.Delay(attempt, baseDelay)))])
    case Look(at) =>
      var n := DueHeads(flow.queue, at);
      Flow(flow.queue[n..], flow.departed + Departures(flow.queue[..n], at))
  }

  function After(run: seq<Step>, baseDelay: nat): (flow: Flow)
    ensures AllExpire(flow.queue)
  {
    if run == [] then Flow([], []) else Apply(After(run[..|run| - 1], baseDelay), run[|run| - 1], baseDelay)
  }

  /** Time does not run backwards. */
  predicate Timely(run: seq<Step>) {
    forall i, j :: 0 <= i <= j < |run| ==> run[i].at <= run[j].at
  }

  function Clock(run: seq<Step>): nat {
    if run == [] then 0 else run[|run| - 1].at
  }

  /** All that was ever published to the retry queue, in order. */
  function Published(run: seq<Step>, baseDelay: nat): (q: seq<Entry>)
    ensures AllExpire(q)
  {
    if run == [] then [] else
    var before, last := Published(run[..|run| - 1], baseDelay), run[|run| - 1];
    if last.Retry? then before + [Entry(last.payload, last.at, Some(BackOff.Delay(last.attempt, baseDelay)))] else before
  }

  lemma {:induction false} PublishedIsOrdered(run: seq<Step>, baseDelay: nat)
    requires Timely(run)
    ensures var q := Published(run, baseDelay);
      && FromWorker(q, baseDelay) && InOrder(q) && forall i :: 0 <= i < |q| ==> q[i].enqueuedAt <= Clock(run)
  {
    if run != [] {
      PublishedIsOrdered(run[..|run| - 1], baseDelay);
      assert |run| > 1 ==> run[|run| - 2].at <= run[|run| - 1].at;
    }
  }

  /** When something is put behind it, a message leaves when it would have. */
  lemma {:induction false} LeavesAsBefore(q: seq<Entry>, e: Entry, i: nat)
    requires AllExpire(q + [e]) && i < |q|
    ensures AllExpire(q) && LeavesAt(q + [e], i) == LeavesAt(q, i)
  {
    assert forall j :: 0 <= j < |q| ==> (q + [e])[j] == q[j];
    if i > 0 {
      LeavesAsBefore(q, e, i - 1);
    }
  }

  /** One look, after `m` of all the messages have left, takes exactly those on that have left by then. */
  lemma {:induction false} LookTakesTheRest(all: seq<Entry>, m: nat, now: nat)
    requires AllExpire(all) && m <= |all| && (m > 0 ==> LeavesAt(all, m - 1) <= now)
    ensures AllExpire(all[m..])
    ensures var n := DueHeads(all[m..], now);
      && (forall i :: m <= i < m + n ==> LeavesAt(all, i) <= now)
      && (forall i :: m + n <= i < |all| ==> LeavesAt(all, i) > now)
    decreases |all| - m
  {
    if m < |all| {
      assert all[m..][0] == all[m] && all[m..][1..] == all[m + 1..];
      if Due(all[m]) <= now {
        LookTakesTheRest(all, m + 1, now);
      } else {
        HeadBlocks(all, m, now);
      }
    }
  }

  function EntriesOf(departed: seq<Departure>): (entries: seq<Entry>)
    ensures |entries| == |departed| && forall i :: 0 <= i < |entries| ==> entries[i] == departed[i].entry
  {
    seq(|departed|, i requires 0 <= i < |departed| => departed[i].entry)
  }

  /** No message is lost, doubled or overtaken, and none has gone before its time came in that order. */
  ghost predicate Flows(run: seq<Step>, baseDelay: nat) {
    var all, flow := Published(run, baseDelay), After(run, baseDelay);
    && all == EntriesOf(flow.departed) + flow.queue
    && forall i :: 0 <= i < |flow.departed| ==> LeavesAt(all, i) <= flow.departed[i].at <= Clock(run)
  }

  lemma RetryFlows(run: seq<Step>, baseDelay: nat)
    requires run != [] && Timely(run) && run[|run| - 1].Retry? && Flows(run[..|run| - 1], baseDelay)
    ensures Flows(run, baseDelay)
  {
    var before, all := Published(run[..|run| - 1], baseDelay), Published(run, baseDelay);
    var flow := After(run, baseDelay);
    assert |run| > 1 ==> run[|run| - 2].at <= run[|run| - 1].at;
    forall i | 0 <= i < |flow.departed| ensures LeavesAt(all, i) <= flow.departed[i].at <= Clock(run) {
      LeavesAsBefore(before, all[|before|], i);
    }
  }

  lemma EntriesJoin(departed: seq<Departure>, q: seq<Entry>, n: nat, at: nat)
    requires n <= |q|
    ensures EntriesOf(departed + Departures(q[..n], at)) + q[n..] == EntriesOf(departed) + q
  {
    assert q == q[..n] + q[n..];
    assert EntriesOf(departed + Departures(q[..n], at)) == EntriesOf(departed) + q[..n];
  }

  lemma LookStep(all: seq<Entry>, was: Flow, now: nat)
    requires AllExpire(all) && AllExpire(was.queue) && all == EntriesOf(was.departed) + was.queue
    requires forall i :: 0 <= i < |was.departed| ==> LeavesAt(all, i) <= was.departed[i].at <= now
    ensures var flow := Apply(was, Look(now), 0);
      && all == EntriesOf(flow.departed) + flow.queue && LeftBy(all, |flow.departed|, now)
      && forall i :: 0 <= i < |flow.departed| ==> LeavesAt(all, i) <= flow.departed[i].at <= now
  {
    var m, n := |was.departed|, DueHeads(was.queue, now);
    assert all[m..] == was.queue;
    LookTakesTheRest(all, m, now);
    EntriesJoin(was.departed, was.queue, n, now);
    var departed := Apply(was, Look(now), 0).departed;
    assert forall i :: 0 <= i < m ==> departed[i] == was.departed[i];
    assert forall i :: m <= i < m + n ==> departed[i].at == now;
  }

  lemma LookFlows(run: seq<Step>, baseDelay: nat)
    requires run != [] && Timely(run) && run[|run| - 1].Look? && Flows(run[..|run| - 1], baseDelay)
    ensures Flows(run, baseDelay)
    ensures LeftBy(Published(run, baseDelay), |After(run, baseDelay).departed|, Clock(run))
  {
    assert |run| > 1 ==> run[|run| - 2].at <= run[|run| - 1].at;
    LookStep(Published(run, baseDelay), After(run[..|run| - 1], baseDelay), run[|run| - 1].at);
  }

  lemma {:induction false} RunFlows(run: seq<Step>, baseDelay: nat)
    requires Timely(run)
    ensures Flows(run, baseDelay)
  {
    if run != [] {
      RunFlows(run[..|run| - 1], baseDelay);
      if run[|run| - 1].Retry? {
        RetryFlows(run, baseDelay);
      } else {
        LookFlows(run, baseDelay);
      }
    }
  }

  /**
     In any run: what was published is what has left, in that order, and then what is queued; a message leaves at a
     look no earlier than its own due time; and after a look exactly those have left that head-only expiry lets go.
   */
  lemma NoneLeavesEarly(run: seq<Step>, baseDelay: nat)
    requires Timely(run)
    ensures var all, flow := Published(run, baseDelay), After(run, baseDelay);
      && all == EntriesOf(flow.departed) + flow.queue
      && (forall i :: 0 <= i < |flow.departed| ==> Due(all[i]) <= LeavesAt(all, i) <= flow.departed[i].at)
      && (run != [] && run[|run| - 1].Look? ==> LeftBy(all, |flow.departed|, Clock(run)))
  {
    RunFlows(run, baseDelay);
    var all, flow := Published(run, baseDelay), After(run, baseDelay);
    forall i | 0 <= i < |flow.departed| ensures Due(all[i]) <= LeavesAt(all, i) {
      NeverEarly(all, i);
    }
    if run != [] && run[|run| - 1].Look? {
      RunFlows(run[..|run| - 1], baseDelay);
      LookFlows(run, baseDelay);
    }
  }

  /** At time `now`, none of these was published as long ago as the cap. */
  predicate NoneOverdue(q: seq<Entry>, now: nat) {
    forall i :: 0 <= i < |q| ==> q[i].enqueuedAt + 60_000 > now
  }

  lemma NoneStaysAtLook(run: seq<Step>, baseDelay: nat)
    requires run != [] && Timely(run) && run[|run| - 1].Look?
    ensures NoneOverdue(After(run, baseDelay).queue, Clock(run))
  {
    var all, flow := Published(run, baseDelay), After(run, baseDelay);
    NoneLeavesEarly(run, baseDelay);
    PublishedIsOrdered(run, baseDelay);
    forall i | 0 <= i < |flow.queue| ensures flow.queue[i].enqueuedAt + 60_000 > Clock(run) {
      RetryWaitBounded(all, |flow.departed| + i, baseDelay);
    }
  }

  /** Once the broker has looked at or after a message's publishing time plus the cap, the message is gone. */
  lemma {:induction false} NoneStaysPastTheCap(run: seq<Step>, baseDelay: nat, k: nat)
    requires Timely(run) && k < |run| && run[k].Look?
    ensures NoneOverdue(After(run, baseDelay).queue, run[k].at)
    decreases |run|
  {
    var last := |run| - 1;
    if run[last].Look? {
      NoneStaysAtLook(run, baseDelay);
    } else {
      NoneStaysPastTheCap(run[..last], baseDelay, k);
      assert run[k].at <= run[last].at;
    }
  }

  class RabbitmqService {
    const retryDelayMs: nat
    var queues: map<string, Queue>
    var bindings: map<string, string>

    /** What the worker and the broker have done to the retry queue so far. */
    ghost var run: seq<Step>

    constructor (retryDelayMs: nat)
      ensures queues == map[] && bindings == map[] && run == [] && this.retryDelayMs == retryDelayMs
    {
      this.retryDelayMs := retryDelayMs;
      queues, bindings, run := map[], map[], [];
    }

    /** The topology every service asserts at start: three queues, the retry queue dead-lettering back. */
    ghost predicate Topology()
      reads this
    {
      && bindings == map[PROCESS := PROCESS, RETRY := RETRY, DLQ := DLQ]
      && queues.Keys == {PROCESS, RETRY, DLQ}
      && queues[RETRY].deadLetterKey == Some(PROCESS)
      && queues[PROCESS].deadLetterKey == None && queues[DLQ].deadLetterKey == None
    }

    /** With it, the retry queue holds what the run of the worker and the broker leaves in it. */
    ghost predicate Infrastructure()
      reads this
    {
      Topology() && Timely(run) && queues[RETRY].entries == After(run, retryDelayMs).queue
    }

    method AssertQueue(name: string, deadLetterKey: Option<string>)
      modifies this`queues
      ensures queues == if name in old(queues) then old(queues)
                        else old(queues)[name := Queue([], deadLetterKey)]
    {
      if name !in queues {
        queues := queues[name := Queue([], deadLetterKey)];
      }
    }

    method AssertInfrastructure()
      requires (queues == map[] && bindings == map[] && run == []) || Infrastructure()
      modifies this`queues, this`bindings
      ensures Infrastructure()
      ensures old(queues) != map[] ==> queues == old(queues)
    {
      AssertQueue(PROCESS, None);
      AssertQueue(RETRY, Some(PROCESS));
      AssertQueue(DLQ, None);
      bindings := bindings[PROCESS := PROCESS][RETRY := RETRY][DLQ := DLQ];
    }

    /** Publishing puts the message at the tail of the queue its routing key is bound to, and nowhere else. */
    method Publish(routingKey: string, payload: string, now: nat, expiration: Option<nat>)
      requires Topology() && routingKey in bindings
      modifies this`queues
      ensures Topology()
      ensures queues[routingKey].entries
           == old(queues[routingKey].entries) + [Entry(payload, now, expiration)]
      ensures forall q :: q in queues && q != routingKey ==> queues[q] == old(queues)[q]
    {
      var name := bindings[routingKey];
      var q := queues[name];
      queues := queues[name := q.(entries := q.entries + [Entry(payload, now, expiration)])];
    }

    /** What the worker publishes when an attempt that is not the last has failed. */
    method PublishRetry(payload: string, attempt: Attempt, now: nat)
      requires Infrastructure() && now >= Clock(run)
      modifies this`queues, this`run
      ensures Infrastructure() && run == old(run) + [Retry(payload, attempt, now)]
      ensures queues[RETRY].entries
           == old(queues[RETRY].entries) + [Entry(payload, now, Some(BackOff.Delay(attempt, retryDelayMs)))]
      ensures queues[PROCESS] == old(queues[PROCESS]) && queues[DLQ] == old(queues[DLQ])
    {
      Publish(RETRY, payload, now, Some(BackOff.Delay(attempt, retryDelayMs)));
      run := run + [Retry(payload, attempt, now)];
      StepAfter(old(run), Retry(payload, attempt, now), retryDelayMs);
    }

    /**
     The broker at time `now`: it looks at the head of the retry queue only, and dead-letters heads that
     are due to the process queue. What moves is exactly what has left by then, in order.
     */
    method ExpireHeads(now: nat) returns (n: nat)
      requires Infrastructure() && now >= Clock(run)
      modifies this`queues, this`run
      ensures Infrastructure() && run == old(run) + [Look(now)]
      ensures LeftBy(old(queues[RETRY].entries), n, now)
      ensures queues[RETRY].entries == old(queues[RETRY].entries)[n..]
      ensures |queues[PROCESS].entries| == |old(queues[PROCESS].entries)| + n
      ensures queues[PROCESS].entries[..|old(queues[PROCESS].entries)|] == old(queues[PROCESS].entries)
      ensures forall i :: 0 <= i < n ==>
        queues[PROCESS].entries[|old(queues[PROCESS].entries)| + i]
        == Entry(old(queues[RETRY].entries)[i].payload, now, None)
      ensures queues[DLQ] == old(queues[DLQ])
    {
      StepAfter(run, Look(now), retryDelayMs);
      LookTakesTheRest(queues[RETRY].entries, 0, now);
      assert queues[RETRY].entries[0..] == queues[RETRY].entries;
      n := MoveDueHeads(now);
      run := run + [Look(now)];
    }

    /** The broker's loop. */
    method MoveDueHeads(now: nat) returns (n: nat)
      requires Topology() && AllExpire(queues[RETRY].entries)
      modifies this`queues
      ensures Topology()
      ensures n == DueHeads(old(queues[RETRY].entries), now)
      ensures queues[RETRY].entries == old(queues[RETRY].entries)[n..]
      ensures |queues[PROCESS].entries| == |old(queues[PROCESS].entries)| + n
      ensures queues[PROCESS].entries[..|old(queues[PROCESS].entries)|] == old(queues[PROCESS].entries)
      ensures forall i :: 0 <= i < n ==>
        queues[PROCESS].entries[|old(queues[PROCESS].entries)| + i]
        == Entry(old(queues[RETRY].entries)[i].payload, now, None)
      ensures queues[DLQ] == old(queues[DLQ])
    {
      n := 0;
      ghost var all, before := queues[RETRY].entries, queues[PROCESS].entries;
      while queues[RETRY].entries != [] && Due(queues[RETRY].entries[0]) <= now
        invariant Topology() && AllExpire(all) && n <= |all| && queues[RETRY].entries == all[n..]
        invariant DueHeads(all, now) == n + DueHeads(all[n..], now)
        invariant |queues[PROCESS].entries| == |before| + n && queues[PROCESS].entries[..|before|] == before
        invariant forall i :: 0 <= i < n ==> queues[PROCESS].entries[|before| + i] == Entry(all[i].payload, now, None)
        invariant queues[DLQ] == old(queues[DLQ])
        decreases |queues[RETRY].entries|
      {
        var q := queues[RETRY];
        var head := q.entries[0];
        assert head == all[n] && all[n..][1..] == all[n + 1..];
        queues := queues[RETRY := q.(entries := q.entries[1..])];
        Publish(q.deadLetterKey.value, head.payload, now, None);
        n := n + 1;
      }
    }
  }

  lemma StepAfter(run: seq<Step>, step: Step, baseDelay: nat)
    requires Timely(run) && step.at >= Clock(run)
    ensures Timely(run + [step]) && After(run + [step], baseDelay) == Apply(After(run, baseDelay), step, baseDelay)
  {
    assert (run + [step])[..|run|] == run;
    assert forall i :: 0 <= i < |run| ==> run[i].at <= run[|run| - 1].at;
  }
}
