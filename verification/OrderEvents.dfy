/** The stream of order status events: per order without repeats of a version, and at most one every 300 ms. */
module OrderEvents {
  import opened Wrappers
  import opened MapTotals

  const ThrottleMs := 300

  type OrderId = nat

  datatype Event = Event(orderId: OrderId, version: int, toStatus: nat)

  /** An event as it came in, or went out, at a time in milliseconds. */
  datatype Timed = Timed(event: Event, at: int)

  /**
     One order's part of the stream: the version the counting step saw last, the event the distinct step
     let through last, and the throttle's waiting event and running timer.
   */
  datatype Group = Group(lastVersion: Option<int>, distinct: Option<Event>, waiting: Option<Event>,
                         timer: Option<int>)

  const NewGroup := Group(None, None, None, None)

  datatype Reaction = Reaction(group: Group, out: Option<Event>, dropped: bool)

  /** Leading edge: an event passes at once while no timer runs, and waits while one does. */
  function Throttle(g: Group, e: Event, now: int): Reaction {
    if g.timer.None? then Reaction(g.(timer := Some(now + ThrottleMs)), Some(e), false)
    else Reaction(g.(waiting := Some(e)), None, false)
  }

  function Receive(g: Group, e: Event, now: int): Reaction {
    var counted := g.lastVersion == Some(e.version);
    var seen := g.(lastVersion := Some(e.version));
    if seen.distinct.Some? && seen.distinct.value.version == e.version then Reaction(seen, None, counted)
    else Throttle(seen.(distinct := Some(e)), e, now).(dropped := counted)
  }

  /** Trailing edge: the waiting event, if there is one, passes and starts the timer again. */
  function Fire(g: Group, now: int): Reaction {
    if g.waiting.None? then Reaction(g.(timer := None), None, false)
    else Reaction(g.(waiting := None, timer := Some(now + ThrottleMs)), g.waiting, false)
  }

  // ---- what a group's history has to do with its state ----------------------------------------

  /** The events whose version differs from the one before. */
  function Distinct(inputs: seq<Timed>): seq<Event> {
    if inputs == [] then [] else
    var n := |inputs|;
    var front := Distinct(inputs[..n - 1]);
    if n >= 2 && inputs[n - 2].event.version == inputs[n - 1].event.version then front
    else front + [inputs[n - 1].event]
  }

  predicate Subsequence<T(==)>(s: seq<T>, t: seq<T>) {
    s == [] || (t != [] && (Subsequence(s, t[..|t| - 1])
                            || (s[|s| - 1] == t[|t| - 1] && Subsequence(s[..|s| - 1], t[..|t| - 1]))))
  }

  function Events(timed: seq<Timed>): (r: seq<Event>)
    ensures |r| == |timed|
  {
    if timed == [] then [] else Events(timed[..|timed| - 1]) + [timed[|timed| - 1].event]
  }

  predicate InOrder(timed: seq<Timed>) {
    forall i, j :: 0 <= i < j < |timed| ==> timed[i].at <= timed[j].at
  }

  /** Any two events that went out are at least 300 ms apart. */
  predicate Spaced(outputs: seq<Timed>) {
    forall i :: 0 < i < |outputs| ==> outputs[i - 1].at + ThrottleMs <= outputs[i].at
  }

  predicate GroupSound(g: Group, inputs: seq<Timed>, outputs: seq<Timed>, clock: int) {
    var distinct := Distinct(inputs);
    && InOrder(inputs) && (inputs != [] ==> inputs[|inputs| - 1].at <= clock)
    && g.lastVersion == (if inputs == [] then None else Some(inputs[|inputs| - 1].event.version))
    && g.distinct == (if distinct == [] then None else Some(distinct[|distinct| - 1]))
    && (distinct == [] <==> inputs == [])
    && (inputs != [] ==> distinct[|distinct| - 1].version == inputs[|inputs| - 1].event.version)
    && Spaced(outputs) && (outputs == [] <==> inputs == [])
    && (outputs != [] ==> outputs[|outputs| - 1].at <= clock)
    && (g.timer.Some? ==> outputs != [] && g.timer.value == outputs[|outputs| - 1].at + ThrottleMs)
    && (g.timer.None? && outputs != [] ==> outputs[|outputs| - 1].at + ThrottleMs <= clock)
    && WaitingSound(g, inputs, outputs, distinct)
  }

  predicate WaitingSound(g: Group, inputs: seq<Timed>, outputs: seq<Timed>, distinct: seq<Event>) {
    match g.waiting
    case None =>
      Subsequence(Events(outputs), distinct)
      && (outputs != [] ==> distinct != [] && outputs[|outputs| - 1].event == distinct[|distinct| - 1])
    case Some(e) =>
      && g.timer.Some? && inputs != [] && outputs != [] && distinct != [] && e == distinct[|distinct| - 1]
      && Subsequence(Events(outputs), distinct[..|distinct| - 1])
      && outputs[|outputs| - 1].at <= inputs[|inputs| - 1].at
  }

  function Emitted(out: Option<Event>, now: int): seq<Timed> {
    if out.None? then [] else [Timed(out.value, now)]
  }

  lemma EventsGrow(outputs: seq<Timed>, t: Timed)
    ensures Events(outputs + [t]) == Events(outputs) + [t.event]
  {
    assert (outputs + [t])[..|outputs + [t]| - 1] == outputs;
  }

  lemma SubsequenceGrows<T>(s: seq<T>, t: seq<T>, x: T)
    requires Subsequence(s, t)
    ensures Subsequence(s, t + [x]) && Subsequence(s + [x], t + [x])
  {
    assert (t + [x])[..|t + [x]| - 1] == t && (s + [x])[..|s + [x]| - 1] == s;
  }

  lemma DistinctGrows(inputs: seq<Timed>, t: Timed)
    ensures Distinct(inputs + [t])
         == if inputs != [] && inputs[|inputs| - 1].event.version == t.event.version then Distinct(inputs)
            else Distinct(inputs) + [t.event]
  {
    assert (inputs + [t])[..|inputs + [t]| - 1] == inputs;
  }

  lemma InOrderGrows(inputs: seq<Timed>, t: Timed)
    requires InOrder(inputs) && (inputs != [] ==> inputs[|inputs| - 1].at <= t.at)
    ensures InOrder(inputs + [t])
  {}

  lemma SpacedGrows(outputs: seq<Timed>, t: Timed)
    requires Spaced(outputs) && (outputs != [] ==> outputs[|outputs| - 1].at + ThrottleMs <= t.at)
    ensures Spaced(outputs + [t])
  {
    forall i | 0 < i < |outputs + [t]|
      ensures (outputs + [t])[i - 1].at + ThrottleMs <= (outputs + [t])[i].at
    {}
  }

  predicate Repeats(inputs: seq<Timed>, e: Event) {
    inputs != [] && inputs[|inputs| - 1].event.version == e.version
  }

  lemma RepeatSound(g: Group, inputs: seq<Timed>, outputs: seq<Timed>, clock: int, e: Event, now: int)
    requires GroupSound(g, inputs, outputs, clock) && clock <= now && Repeats(inputs, e)
    ensures GroupSound(g, inputs + [Timed(e, now)], outputs, now)
  {
    DistinctGrows(inputs, Timed(e, now));
    InOrderGrows(inputs, Timed(e, now));
  }

  /** Once one more event is distinct, what has gone out is a subsequence of what came before it. */
  lemma WaitsSound(g: Group, inputs: seq<Timed>, outputs: seq<Timed>, clock: int, e: Event, now: int)
    requires GroupSound(g, inputs, outputs, clock) && clock <= now && !Repeats(inputs, e) && g.timer.Some?
    ensures GroupSound(Group(Some(e.version), Some(e), Some(e), g.timer), inputs + [Timed(e, now)], outputs, now)
  {
    var distinct := Distinct(inputs);
    DistinctGrows(inputs, Timed(e, now));
    InOrderGrows(inputs, Timed(e, now));
    assert (distinct + [e])[..|distinct + [e]| - 1] == distinct;
    if g.waiting.Some? {
      SubsequenceGrows(Events(outputs), distinct[..|distinct| - 1], distinct[|distinct| - 1]);
      assert distinct[..|distinct| - 1] + [distinct[|distinct| - 1]] == distinct;
    }
  }

  lemma PassesSound(g: Group, inputs: seq<Timed>, outputs: seq<Timed>, clock: int, e: Event, now: int)
    requires GroupSound(g, inputs, outputs, clock) && clock <= now && !Repeats(inputs, e) && g.timer.None?
    ensures GroupSound(Group(Some(e.version), Some(e), None, Some(now + ThrottleMs)),
                       inputs + [Timed(e, now)], outputs + [Timed(e, now)], now)
  {
    DistinctGrows(inputs, Timed(e, now));
    InOrderGrows(inputs, Timed(e, now));
    EventsGrow(outputs, Timed(e, now));
    SpacedGrows(outputs, Timed(e, now));
    SubsequenceGrows(Events(outputs), Distinct(inputs), e);
  }

  /** An event that comes in is counted as dropped exactly when the distinct step drops it. */
  lemma ReceiveSound(g: Group, inputs: seq<Timed>, outputs: seq<Timed>, clock: int, e: Event, now: int)
    requires GroupSound(g, inputs, outputs, clock) && clock <= now
    ensures var r := Receive(g, e, now);
      && GroupSound(r.group, inputs + [Timed(e, now)], outputs + Emitted(r.out, now), now)
      && |Distinct(inputs + [Timed(e, now)])| == |Distinct(inputs)| + (if r.dropped then 0 else 1)
  {
    DistinctGrows(inputs, Timed(e, now));
    assert outputs + [] == outputs;
    if Repeats(inputs, e) {
      RepeatSound(g, inputs, outputs, clock, e, now);
    } else if g.timer.Some? {
      WaitsSound(g, inputs, outputs, clock, e, now);
    } else {
      PassesSound(g, inputs, outputs, clock, e, now);
    }
  }

  lemma FireSound(g: Group, inputs: seq<Timed>, outputs: seq<Timed>, clock: int, now: int)
    requires GroupSound(g, inputs, outputs, clock) && clock <= now && g.timer.Some? && g.timer.value <= now
    ensures var r := Fire(g, now);
      GroupSound(r.group, inputs, outputs + Emitted(r.out, now), now)
  {
    var r := Fire(g, now);
    if r.out.Some? {
      var distinct, t := Distinct(inputs), Timed(r.out.value, now);
      EventsGrow(outputs, t);
      SubsequenceGrows(Events(outputs), distinct[..|distinct| - 1], t.event);
      assert distinct[..|distinct| - 1] + [t.event] == distinct;
      assert outputs + Emitted(r.out, now) == outputs + [t];
    } else {
      assert outputs + Emitted(r.out, now) == outputs;
    }
  }

  // ---- what a subscriber can rely on ----------------------------------------------------------

  lemma {:induction false} SubsequenceNotLonger<T>(s: seq<T>, t: seq<T>)
    requires Subsequence(s, t)
    ensures |s| <= |t|
    decreases |t|
  {
    if s != [] {
      if Subsequence(s, t[..|t| - 1]) {
        SubsequenceNotLonger(s, t[..|t| - 1]);
      } else {
        SubsequenceNotLonger(s[..|s| - 1], t[..|t| - 1]);
      }
    }
  }

  /** What goes out for an order is some of what came in, in order, with repeats of a version left out. */
  lemma OutputsAreDistinctInputs(g: Group, inputs: seq<Timed>, outputs: seq<Timed>, clock: int)
    requires GroupSound(g, inputs, outputs, clock)
    ensures Subsequence(Events(outputs), Distinct(inputs)) && |outputs| <= |Distinct(inputs)|
  {
    var distinct := Distinct(inputs);
    if g.waiting.Some? {
      SubsequenceGrows(Events(outputs), distinct[..|distinct| - 1], distinct[|distinct| - 1]);
      assert distinct[..|distinct| - 1] + [distinct[|distinct| - 1]] == distinct;
    }
    SubsequenceNotLonger(Events(outputs), distinct);
  }

  lemma {:induction false} OutputsApart(outputs: seq<Timed>, i: nat, j: nat)
    requires Spaced(outputs) && i < j < |outputs|
    ensures outputs[i].at + ThrottleMs <= outputs[j].at
    decreases j
  {
    if i < j - 1 {
      OutputsApart(outputs, i, j - 1);
    }
  }

  /**
     With timers at most `late` late, once 300 ms and `late` have passed since the last event came in, the
     last one that went out has its version.
   */
  lemma EndsOnLastVersion(g: Group, inputs: seq<Timed>, outputs: seq<Timed>, clock: int, late: nat)
    requires GroupSound(g, inputs, outputs, clock) && inputs != []
    requires g.timer.Some? ==> clock <= g.timer.value + late
    requires clock > inputs[|inputs| - 1].at + ThrottleMs + late
    ensures outputs != []
    ensures outputs[|outputs| - 1].event.version == inputs[|inputs| - 1].event.version
  {
    assert g.waiting.None?;
  }

  // ---- all groups together --------------------------------------------------------------------

  datatype Stream = Stream(groups: map<OrderId, Group>, received: nat, dedupDropped: nat, emitted: nat, clock: int)

  datatype Step = Publish(event: Event, at: int) | TimerFires(order: OrderId, at: int)

  function GroupAt(s: Stream, o: OrderId): Group {
    if o in s.groups then s.groups[o] else NewGroup
  }

  function OrderOf(step: Step): OrderId {
    if step.Publish? then step.event.orderId else step.order
  }

  /** What the step does to its own order's group. */
  function Effect(g: Group, step: Step): Reaction {
    if step.Publish? then Receive(g, step.event, step.at) else Fire(g, step.at)
  }

  /** Time does not go back, and a timer fires no earlier than it was set to. */
  predicate Possible(s: Stream, step: Step) {
    && s.clock <= step.at
    && (step.TimerFires? ==> GroupAt(s, step.order).timer.Some? && GroupAt(s, step.order).timer.value <= step.at)
  }

  function Next(s: Stream, step: Step): Stream {
    var r := Effect(GroupAt(s, OrderOf(step)), step);
    Stream(s.groups[OrderOf(step) := r.group],
           s.received + (if step.Publish? then 1 else 0),
           s.dedupDropped + (if r.dropped then 1 else 0),
           s.emitted + (if r.out.Some? then 1 else 0),
           step.at)
  }

  const Fresh := Stream(map[], 0, 0, 0, 0)

  /** The service after the steps, from time `start`, or None when one of them is not possible. */
  function Run(start: int, steps: seq<Step>): Option<Stream> {
    if steps == [] then Some(Fresh.(clock := start)) else
    var before := Run(start, steps[..|steps| - 1]);
    if before.Some? && Possible(before.value, steps[|steps| - 1])
    then Some(Next(before.value, steps[|steps| - 1])) else None
  }

  /** The events of one order that came in, and those that went out. */
  function Inputs(steps: seq<Step>, o: OrderId): seq<Timed> {
    if steps == [] then [] else
    var last := steps[|steps| - 1];
    Inputs(steps[..|steps| - 1], o)
    + if last.Publish? && last.event.orderId == o then [Timed(last.event, last.at)] else []
  }

  function Outputs(start: int, steps: seq<Step>, o: OrderId): seq<Timed>
    requires Run(start, steps).Some?
  {
    if steps == [] then [] else
    var front, last := steps[..|steps| - 1], steps[|steps| - 1];
    Outputs(start, front, o)
    + if OrderOf(last) == o then Emitted(Effect(GroupAt(Run(start, front).value, o), last).out, last.at) else []
  }

  /** A group's state stays sound while nothing happens to it. */
  lemma TimePasses(g: Group, inputs: seq<Timed>, outputs: seq<Timed>, clock: int, now: int)
    requires GroupSound(g, inputs, outputs, clock) && clock <= now
    ensures GroupSound(g, inputs, outputs, now)
  {}

  lemma {:induction false} RunIsSound(start: int, steps: seq<Step>, o: OrderId)
    requires Run(start, steps).Some?
    ensures var s := Run(start, steps).value;
      GroupSound(GroupAt(s, o), Inputs(steps, o), Outputs(start, steps, o), s.clock)
  {
    if steps != [] {
      var front, last := steps[..|steps| - 1], steps[|steps| - 1];
      RunIsSound(start, front, o);
      var before, ins, outs := Run(start, front).value, Inputs(front, o), Outputs(start, front, o);
      if OrderOf(last) != o {
        TimePasses(GroupAt(before, o), ins, outs, before.clock, last.at);
        assert ins + [] == ins && outs + [] == outs;
      } else if last.Publish? {
        ReceiveSound(GroupAt(before, o), ins, outs, before.clock, last.event, last.at);
      } else {
        FireSound(GroupAt(before, o), ins, outs, before.clock, last.at);
        assert ins + [] == ins;
      }
    }
  }

  // ---- the theorems ---------------------------------------------------------------------------

  /** Each order's output is a subsequence of its version-distinct input, with gaps of 300 ms at least. */
  lemma OutputIsThinnedInput(start: int, steps: seq<Step>, o: OrderId)
    requires Run(start, steps).Some?
    ensures var outputs := Outputs(start, steps, o);
      && Subsequence(Events(outputs), Distinct(Inputs(steps, o)))
      && forall i, j :: 0 <= i < j < |outputs| ==> outputs[i].at + 300 <= outputs[j].at
  {
    var s := Run(start, steps).value;
    RunIsSound(start, steps, o);
    OutputsAreDistinctInputs(GroupAt(s, o), Inputs(steps, o), Outputs(start, steps, o), s.clock);
    var outputs := Outputs(start, steps, o);
    forall i, j | 0 <= i < j < |outputs| ensures outputs[i].at + 300 <= outputs[j].at {
      OutputsApart(outputs, i, j);
    }
  }

  /** No timer that is still running was due more than `late` ago. */
  ghost predicate Punctual(s: Stream, now: int, late: nat) {
    forall o :: o in s.groups && s.groups[o].timer.Some? ==> now <= s.groups[o].timer.value + late
  }

  /**
     With timers at most `late` late: once more than 300 ms and `late` have passed since an order's last
     event came in, the last one that went out has its version.
   */
  lemma SettlesOnLastVersion(start: int, steps: seq<Step>, o: OrderId, now: int, late: nat)
    requires Run(start, steps).Some? && Punctual(Run(start, steps).value, now, late)
    requires Run(start, steps).value.clock <= now
    requires var inputs := Inputs(steps, o); inputs != [] && inputs[|inputs| - 1].at + 300 + late < now
    ensures var inputs, outputs := Inputs(steps, o), Outputs(start, steps, o);
      outputs != [] && outputs[|outputs| - 1].event.version == inputs[|inputs| - 1].event.version
  {
    var s := Run(start, steps).value;
    RunIsSound(start, steps, o);
    TimePasses(GroupAt(s, o), Inputs(steps, o), Outputs(start, steps, o), s.clock, now);
    EndsOnLastVersion(GroupAt(s, o), Inputs(steps, o), Outputs(start, steps, o), now, late);
  }

  // ---- the counters ---------------------------------------------------------------------------

  /** How many of the steps brought an event that repeats its order's last version. */
  function Repeated(steps: seq<Step>): nat {
    if steps == [] then 0 else
    var front, last := steps[..|steps| - 1], steps[|steps| - 1];
    Repeated(front) + if last.Publish? && Repeats(Inputs(front, last.event.orderId), last.event) then 1 else 0
  }

  /** The orders with an event waiting in the throttle. */
  function Waiting(groups: map<OrderId, Group>): set<OrderId> {
    set o | o in groups && groups[o].waiting.Some?
  }

  lemma WaitingAfter(s: Stream, o: OrderId, g: Group)
    ensures |Waiting(s.groups[o := g])| + (if GroupAt(s, o).waiting.Some? then 1 else 0)
         == |Waiting(s.groups)| + (if g.waiting.Some? then 1 else 0)
  {
    var before, after := Waiting(s.groups), Waiting(s.groups[o := g]);
    assert before - {o} == after - {o};
    SizeWithout(before, o);
    SizeWithout(after, o);
  }

  lemma SizeWithout(orders: set<OrderId>, o: OrderId)
    ensures |orders| == |orders - {o}| + if o in orders then 1 else 0
  {
    if o in orders {
      assert orders == (orders - {o}) + {o};
    }
  }

  /** A step lets out, or leaves waiting, no more than was waiting or came in and was not dropped. */
  lemma EffectCounts(g: Group, inputs: seq<Timed>, outputs: seq<Timed>, clock: int, step: Step)
    requires GroupSound(g, inputs, outputs, clock)
    ensures var r := Effect(g, step);
      && (r.dropped <==> step.Publish? && Repeats(inputs, step.event))
      && (if r.out.Some? then 1 else 0) + (if r.group.waiting.Some? then 1 else 0)
         <= (if g.waiting.Some? then 1 else 0) + (if step.Publish? && !r.dropped then 1 else 0)
  {}

  /** `dedupDropped` counts what the distinct step drops, and no more goes out than came in and was kept. */
  lemma {:induction false} CountersAreRight(start: int, steps: seq<Step>)
    requires Run(start, steps).Some?
    ensures var s := Run(start, steps).value;
      && s.dedupDropped == Repeated(steps)
      && s.emitted + |Waiting(s.groups)| <= s.received - s.dedupDropped
  {
    if steps != [] {
      var front, last := steps[..|steps| - 1], steps[|steps| - 1];
      var before, o := Run(start, front).value, OrderOf(last);
      CountersAreRight(start, front);
      RunIsSound(start, front, o);
      EffectCounts(GroupAt(before, o), Inputs(front, o), Outputs(start, front, o), before.clock, last);
      WaitingAfter(before, o, Effect(GroupAt(before, o), last).group);
    }
  }

  /** Per order: how many events came in, how many of them are no repeats, and how many went out. */
  ghost function CameIn(groups: map<OrderId, Group>, steps: seq<Step>): map<OrderId, nat> {
    map o | o in groups :: |Inputs(steps, o)|
  }

  ghost function Kept(groups: map<OrderId, Group>, steps: seq<Step>): map<OrderId, nat> {
    map o | o in groups :: |Distinct(Inputs(steps, o))|
  }

  ghost function WentOut(groups: map<OrderId, Group>, start: int, steps: seq<Step>): map<OrderId, nat>
    requires Run(start, steps).Some?
  {
    map o | o in groups :: |Outputs(start, steps, o)|
  }

  /** An order without a group has seen nothing. */
  lemma {:induction false} NothingYet(start: int, steps: seq<Step>, o: OrderId)
    requires Run(start, steps).Some? && o !in Run(start, steps).value.groups
    ensures Inputs(steps, o) == [] && Outputs(start, steps, o) == []
  {
    if steps != [] {
      NothingYet(start, steps[..|steps| - 1], o);
    }
  }

  /** A step adds to its own order's sequences only. */
  lemma OthersStay(start: int, steps: seq<Step>, p: OrderId)
    requires steps != [] && Run(start, steps).Some? && p != OrderOf(steps[|steps| - 1])
    ensures var front := steps[..|steps| - 1];
      Inputs(steps, p) == Inputs(front, p) && Outputs(start, steps, p) == Outputs(start, front, p)
  {}

  lemma OneMoreStep(start: int, steps: seq<Step>)
    requires steps != [] && Run(start, steps).Some?
    ensures var front, last := steps[..|steps| - 1], steps[|steps| - 1];
      var before, o := Run(start, front).value, OrderOf(last);
      var r := Effect(GroupAt(before, o), last);
      && |Inputs(steps, o)| == |Inputs(front, o)| + (if last.Publish? then 1 else 0)
      && |Outputs(start, steps, o)| == |Outputs(start, front, o)| + (if r.out.Some? then 1 else 0)
      && |Distinct(Inputs(steps, o))| == |Distinct(Inputs(front, o))| + (if last.Publish? && !r.dropped then 1 else 0)
  {
    var front, last := steps[..|steps| - 1], steps[|steps| - 1];
    var before, o := Run(start, front).value, OrderOf(last);
    RunIsSound(start, front, o);
    if last.Publish? {
      ReceiveSound(GroupAt(before, o), Inputs(front, o), Outputs(start, front, o), before.clock, last.event, last.at);
    } else {
      assert Inputs(front, o) + [] == Inputs(front, o);
    }
  }

  lemma AllOthersStay(start: int, steps: seq<Step>)
    requires steps != [] && Run(start, steps).Some?
    ensures var front := steps[..|steps| - 1];
      forall p :: p != OrderOf(steps[|steps| - 1]) ==>
        Inputs(steps, p) == Inputs(front, p) && Outputs(start, steps, p) == Outputs(start, front, p)
  {
    forall p | p != OrderOf(steps[|steps| - 1])
      ensures var front := steps[..|steps| - 1];
        Inputs(steps, p) == Inputs(front, p) && Outputs(start, steps, p) == Outputs(start, front, p)
    {
      OthersStay(start, steps, p);
    }
  }

  lemma TallyStep(m: map<OrderId, nat>, after: map<OrderId, nat>, o: OrderId, d: nat)
    requires o in after && after == m[o := after[o]] && after[o] == d + if o in m then m[o] else 0
    ensures Total(after) == Total(m) + d
  {
    TotalUpdate(m, o, after[o]);
  }

  /** The group of a step's order is there after it. */
  lemma GroupsAfter(start: int, steps: seq<Step>)
    requires steps != [] && Run(start, steps).Some?
    ensures var before, after := Run(start, steps[..|steps| - 1]).value.groups, Run(start, steps).value.groups;
      after.Keys == before.Keys + {OrderOf(steps[|steps| - 1])}
  {}

  lemma CameInStep(start: int, steps: seq<Step>)
    requires steps != [] && Run(start, steps).Some?
    ensures var front, last := steps[..|steps| - 1], steps[|steps| - 1];
      Total(CameIn(Run(start, steps).value.groups, steps))
      == Total(CameIn(Run(start, front).value.groups, front)) + (if last.Publish? then 1 else 0)
  {
    var front, last := steps[..|steps| - 1], steps[|steps| - 1];
    var before, after, o := Run(start, front).value.groups, Run(start, steps).value.groups, OrderOf(last);
    OneMoreStep(start, steps);
    AllOthersStay(start, steps);
    GroupsAfter(start, steps);
    if o !in before {
      NothingYet(start, front, o);
    }
    TallyStep(CameIn(before, front), CameIn(after, steps), o, if last.Publish? then 1 else 0);
  }

  lemma KeptStep(start: int, steps: seq<Step>)
    requires steps != [] && Run(start, steps).Some?
    ensures var front, last := steps[..|steps| - 1], steps[|steps| - 1];
      var before := Run(start, front).value;
      Total(Kept(Run(start, steps).value.groups, steps))
      == Total(Kept(before.groups, front))
         + (if last.Publish? && !Effect(GroupAt(before, OrderOf(last)), last).dropped then 1 else 0)
  {
    var front, last := steps[..|steps| - 1], steps[|steps| - 1];
    var before, o := Run(start, front).value, OrderOf(last);
    OneMoreStep(start, steps);
    AllOthersStay(start, steps);
    GroupsAfter(start, steps);
    if o !in before.groups {
      NothingYet(start, front, o);
      assert Distinct([]) == [];
    }
    TallyStep(Kept(before.groups, front), Kept(Run(start, steps).value.groups, steps), o,
              if last.Publish? && !Effect(GroupAt(before, o), last).dropped then 1 else 0);
  }

  lemma WentOutAfter(start: int, steps: seq<Step>)
    requires steps != [] && Run(start, steps).Some?
    ensures var front, o := steps[..|steps| - 1], OrderOf(steps[|steps| - 1]);
      var before, after := Run(start, front).value.groups, Run(start, steps).value.groups;
      && o in after
      && WentOut(after, start, steps) == WentOut(before, start, front)[o := |Outputs(start, steps, o)|]
  {
    OneMoreStep(start, steps);
    AllOthersStay(start, steps);
    GroupsAfter(start, steps);
  }

  lemma OutputsStep(start: int, steps: seq<Step>)
    requires steps != [] && Run(start, steps).Some?
    ensures var front, last := steps[..|steps| - 1], steps[|steps| - 1];
      var before := Run(start, front).value;
      Total(WentOut(Run(start, steps).value.groups, start, steps))
      == Total(WentOut(before.groups, start, front))
         + (if Effect(GroupAt(before, OrderOf(last)), last).out.Some? then 1 else 0)
  {
    var front, last := steps[..|steps| - 1], steps[|steps| - 1];
    var before, o := Run(start, front).value, OrderOf(last);
    WentOutAfter(start, steps);
    OneMoreStep(start, steps);
    if o !in before.groups {
      NothingYet(start, front, o);
    }
    TallyStep(WentOut(before.groups, start, front), WentOut(Run(start, steps).value.groups, start, steps), o,
              if Effect(GroupAt(before, o), last).out.Some? then 1 else 0);
  }

  /**
     All three counters in full, summed over the orders: `received` is what came in, `emitted` is what went out, and
     `dedupDropped` is what came in and was a repeat.
   */
  lemma {:induction false} CountersInFull(start: int, steps: seq<Step>)
    requires Run(start, steps).Some?
    ensures var s := Run(start, steps).value;
      && s.received == Total(CameIn(s.groups, steps))
      && s.emitted == Total(WentOut(s.groups, start, steps))
      && s.received - s.dedupDropped == Total(Kept(s.groups, steps))
  {
    if steps == [] {
      assert CameIn(map[], steps) == map[] && Kept(map[], steps) == map[] && WentOut(map[], start, steps) == map[];
    } else {
      CountersInFull(start, steps[..|steps| - 1]);
      CameInStep(start, steps);
      KeptStep(start, steps);
      OutputsStep(start, steps);
      EffectDrops(GroupAt(Run(start, steps[..|steps| - 1]).value, OrderOf(steps[|steps| - 1])), steps[|steps| - 1]);
    }
  }

  lemma EffectDrops(g: Group, step: Step)
    ensures Effect(g, step).dropped ==> step.Publish?
  {}

  // ---- the service ----------------------------------------------------------------------------

  class OrdersEventsService {
    var received: nat
    var dedupDropped: nat
    var emitted: nat
    var groups: map<OrderId, Group>
    var clock: int

    constructor (start: int)
      ensures Abs() == Fresh.(clock := start)
    {
      received, dedupDropped, emitted, groups, clock := 0, 0, 0, map[], start;
    }

    ghost function Abs(): Stream
      reads this
    {
      Stream(groups, received, dedupDropped, emitted, clock)
    }

    /** The tap that counts, then distinctUntilChanged, then the throttle's leading edge. */
    method PublishStatusChanged(e: Event, now: int) returns (out: Option<Event>)
      requires clock <= now
      modifies this
      ensures Possible(old(Abs()), Publish(e, now)) && Abs() == Next(old(Abs()), Publish(e, now))
      ensures out == Receive(GroupAt(old(Abs()), e.orderId), e, now).out
    {
      received, clock := received + 1, now;
      var group := if e.orderId in groups then groups[e.orderId] else NewGroup;
      if group.lastVersion == Some(e.version) {
        dedupDropped := dedupDropped + 1;
      }
      group := group.(lastVersion := Some(e.version));
      out := None;
      if group.distinct.None? || group.distinct.value.version != e.version {
        group := group.(distinct := Some(e));
        if group.timer.None? {
          group := group.(timer := Some(now + ThrottleMs));
          out := Some(e);
          emitted := emitted + 1;
        } else {
          group := group.(waiting := Some(e));
        }
      }
      groups := groups[e.orderId := group];
    }

    /** The throttle's trailing edge, when the timer of one order's group runs out. */
    method TimerRunsOut(o: OrderId, now: int) returns (out: Option<Event>)
      requires clock <= now && o in groups && groups[o].timer.Some? && groups[o].timer.value <= now
      modifies this
      ensures Possible(old(Abs()), TimerFires(o, now)) && Abs() == Next(old(Abs()), TimerFires(o, now))
      ensures out == old(groups)[o].waiting
    {
      clock := now;
      var group := groups[o];
      out := group.waiting;
      if out.Some? {
        group := group.(waiting := None, timer := Some(now + ThrottleMs));
        emitted := emitted + 1;
      } else {
        group := group.(timer := None);
      }
      groups := groups[o := group];
    }
  }
}
