/** The governed execution scheduler: a bounded FIFO queue whose exclusive items and in-flight
    queued cancellations are barriers.  `Sched` is the scheduler's state, each `Step` is one
    JavaScript turn, and `Apply` is what that turn does.  SchedulerClass.dfy holds the mutable
    object, each of whose methods is tied to a function of this module. */
module GovernedScheduler {

  datatype ItemState = Queued | Running | Cancelling | Settled

  /** How far the item's own promise chain has got: not started, waiting for the port, or
      resolved but with its `finally` block still to run. */
  datatype Chain = NoChain | Awaiting | Closing

  datatype Item = Item(
    exclusive: bool,
    cancellable: bool,
    state: ItemState,
    chain: Chain,
    cancelled: bool,
    aborted: bool,
    resolved: nat)  // how often the caller's promise has been resolved

  datatype Metrics = Metrics(
    refused: nat,
    cancelled: nat,
    completed: nat,
    failed: nat,
    rejected: nat,
    started: nat)

  /** `starts`, `calls`, `withdrawn` and `halted` are history: the order in which items started,
      the number of `enqueue` calls, and the items that left the queue by cancellation or halt. */
  datatype Sched = Sched(
    maxConcurrency: nat,
    maxQueue: nat,
    items: seq<Item>,
    queue: seq<nat>,
    active: set<nat>,
    barriers: int,
    exclusiveRunning: bool,
    accepting: bool,
    drainWaiters: nat,
    metrics: Metrics,
    starts: seq<nat>,
    calls: nat,
    withdrawn: nat,
    halted: nat)

  datatype Request = Request(
    named: bool,         // the request is an object that names a tool
    signalShaped: bool,  // its signal, if any, has the AbortSignal shape
    exclusive: bool,
    cancellable: bool,
    aborted: bool)       // its signal has already fired

  datatype Step =
    | Enqueue(request: Request)
    | SignalAbort(item: nat)
    | HandleCancel(item: nat)
    | RunResolve(item: nat, ok: bool)
    | RunSettle(item: nat)
    | CancelResolve(item: nat, persisted: bool)
    | CancelSettle(item: nat)
    | Close(cancelQueued: bool)
    | CloseAbort(item: nat)
    | Drain

  function Init(maxConcurrency: nat, maxQueue: nat): Sched {
    Sched(maxConcurrency, maxQueue, [], [], {}, 0, false, true, 0, Metrics(0, 0, 0, 0, 0, 0), [], 0, 0, 0)
  }

  predicate Known(s: Sched) {
    && (forall k :: 0 <= k < |s.queue| ==> s.queue[k] < |s.items|)
    && (forall i <- s.active :: i < |s.items|)
  }

  function Start(s: Sched, i: nat): Sched
    requires i < |s.items|
  {
    s.(items := s.items[i := s.items[i].(state := Running, chain := Awaiting)],
       active := s.active + {i},
       exclusiveRunning := s.exclusiveRunning || s.items[i].exclusive,
       metrics := s.metrics.(started := s.metrics.started + 1),
       starts := s.starts + [i])
  }

  function ResolveDrain(s: Sched): Sched {
    if |s.queue| > 0 || s.active != {} then s else s.(drainWaiters := 0)
  }

  function Pump(s: Sched): Sched
    requires Known(s)
    decreases |s.queue|
  {
    if s.exclusiveRunning || s.barriers > 0 then s
    else PumpQueue(s)
  }

  function PumpQueue(s: Sched): Sched
    requires Known(s)
    decreases |s.queue|
  {
    if s.queue == [] then ResolveDrain(s)
    else
      var next := s.queue[0];
      if s.items[next].exclusive then
        if s.active != {} then s else Start(s.(queue := s.queue[1..]), next)
      else if |s.active| >= s.maxConcurrency then s
      else PumpQueue(Start(s.(queue := s.queue[1..]), next))
  }

  /** The queue without one item, as `splice` leaves it. */
  function Without(q: seq<nat>, i: nat): (r: seq<nat>)
    ensures forall k :: 0 <= k < |r| ==> r[k] in q
  {
    if q == [] then [] else if q[0] == i then q[1..] else [q[0]] + Without(q[1..], i)
  }

  function Withdraw(s: Sched, i: nat): Sched
    requires i < |s.items|
  {
    s.(queue := Without(s.queue, i),
       items := s.items[i := s.items[i].(state := Cancelling, chain := Awaiting, cancelled := true, aborted := true)],
       active := s.active + {i},
       barriers := s.barriers + 1,
       metrics := s.metrics.(cancelled := s.metrics.cancelled + 1),
       withdrawn := s.withdrawn + 1)
  }

  function Refuse(s: Sched): Sched {
    s.(metrics := s.metrics.(refused := s.metrics.refused + 1))
  }

  function Reject(s: Sched): Sched {
    s.(calls := s.calls + 1, metrics := s.metrics.(rejected := s.metrics.rejected + 1))
  }

  predicate Accepts(s: Sched, r: Request) {
    r.named && s.accepting && r.signalShaped && |s.queue| < s.maxQueue
  }

  function Push(s: Sched, r: Request): Sched {
    s.(calls := s.calls + 1,
       items := s.items + [Item(r.exclusive, r.cancellable, Queued, NoChain, false, false, 0)],
       queue := s.queue + [|s.items|])
  }

  function EnqueueSpec(s: Sched, r: Request): Sched
    requires Known(s)
  {
    if !Accepts(s, r) then Reject(s)
    else
      var pushed := Push(s, r);
      if !r.aborted then Pump(pushed)
      else if !r.cancellable then Pump(Refuse(pushed))
      else Withdraw(pushed, |s.items|)
  }

  function HaltedItem(item: Item, halted: bool): Item {
    if halted then item.(state := Settled, resolved := item.resolved + 1) else item
  }

  function HaltedItems(items: seq<Item>, q: seq<nat>): (r: seq<Item>)
    ensures |r| == |items|
  {
    seq(|items|, i requires 0 <= i < |items| => HaltedItem(items[i], i in q))
  }

  /** `_halt`: every queued item is settled and its promise resolved with a failure. */
  function Halt(s: Sched): Sched
    requires Known(s)
  {
    s.(accepting := false,
       items := HaltedItems(s.items, s.queue),
       queue := [],
       metrics := s.metrics.(rejected := s.metrics.rejected + |s.queue|),
       halted := s.halted + |s.queue|)
  }

  /** The first loop of `close`: withdraw each cancellable item of a copy of the queue. */
  function WithdrawAll(s: Sched, ids: seq<nat>): (r: Sched)
    requires Known(s) && forall k :: 0 <= k < |ids| ==> ids[k] < |s.items|
    ensures Known(r) && |r.items| == |s.items|
    decreases |ids|
  {
    if ids == [] then s
    else if s.items[ids[0]].cancellable then WithdrawAll(Withdraw(s, ids[0]), ids[1..])
    else WithdrawAll(Refuse(s), ids[1..])
  }

  function CloseSpec(s: Sched, cancelQueued: bool): Sched
    requires Known(s)
  {
    var closed := s.(accepting := false);
    if cancelQueued then Pump(WithdrawAll(closed, closed.queue)) else closed
  }

  /** Aborting a running item: the port is told, and nothing else changes. */
  function AbortRunning(s: Sched, i: nat): Sched
    requires i < |s.items|
  {
    s.(items := s.items[i := s.items[i].(cancelled := true, aborted := true)],
       metrics := s.metrics.(cancelled := s.metrics.cancelled + 1))
  }

  function SettleItem(s: Sched, i: nat): Sched
    requires i < |s.items|
  {
    s.(items := s.items[i := s.items[i].(state := Settled, chain := NoChain)], active := s.active - {i})
  }

  function RunSettled(s: Sched, i: nat): Sched
    requires i < |s.items|
  {
    SettleItem(s, i).(exclusiveRunning := s.exclusiveRunning && !s.items[i].exclusive)
  }

  function CancelSettled(s: Sched, i: nat): Sched
    requires i < |s.items|
  {
    SettleItem(s, i).(barriers := s.barriers - 1)
  }

  function Resolve(s: Sched, i: nat): Sched
    requires i < |s.items|
  {
    s.(items := s.items[i := s.items[i].(resolved := s.items[i].resolved + 1, chain := Closing)])
  }

  function RunSettleSpec(s: Sched, i: nat): Sched
    requires Known(s) && i < |s.items|
  {
    Pump(RunSettled(s, i))
  }

  function CancelSettleSpec(s: Sched, i: nat): Sched
    requires Known(s) && i < |s.items|
  {
    var settled := CancelSettled(s, i);
    if settled.accepting then Pump(settled) else ResolveDrain(settled)
  }

  predicate In(s: Sched, i: nat, state: ItemState, chain: Chain) {
    i < |s.items| && s.items[i].state == state && s.items[i].chain == chain
  }

  /** One turn.  A step that the state does not enable changes nothing. */
  function Apply(s: Sched, step: Step): Sched
    requires Known(s)
  {
    match step
    case Enqueue(r) => EnqueueSpec(s, r)
    case SignalAbort(i) =>
      if !In(s, i, Queued, NoChain) then s
      else if !s.items[i].cancellable then Refuse(s)
      else Withdraw(s, i)
    case HandleCancel(i) =>
      if i >= |s.items| || s.items[i].cancelled || s.items[i].state == Settled || s.items[i].aborted then s
      else if !s.items[i].cancellable then Refuse(s)
      else if s.items[i].state == Queued then Withdraw(s, i)
      else AbortRunning(s, i)
    case RunResolve(i, ok) =>
      if !In(s, i, Running, Awaiting) then s
      else if ok then Resolve(s, i).(metrics := s.metrics.(completed := s.metrics.completed + 1))
      else Resolve(s, i).(metrics := s.metrics.(failed := s.metrics.failed + 1))
    case RunSettle(i) => if In(s, i, Running, Closing) then RunSettleSpec(s, i) else s
    case CancelResolve(i, persisted) =>
      if !In(s, i, Cancelling, Awaiting) then s
      else if persisted then Resolve(s, i)
      else Halt(Resolve(s, i).(metrics := s.metrics.(failed := s.metrics.failed + 1)))
    case CancelSettle(i) => if In(s, i, Cancelling, Closing) then CancelSettleSpec(s, i) else s
    case Close(cancelQueued) => CloseSpec(s, cancelQueued)
    case CloseAbort(i) =>
      if s.accepting || i !in s.active || s.items[i].cancelled then s
      else if !s.items[i].cancellable then Refuse(s)
      else AbortRunning(s, i)
    case Drain => if s.queue == [] && s.active == {} then s else s.(drainWaiters := s.drainWaiters + 1)
  }

  // ---------------------------------------------------------------- what every turn keeps

  ghost predicate Increasing(q: seq<nat>) {
    forall i, j :: 0 <= i < j < |q| ==> q[i] < q[j]
  }

  ghost function InState(s: Sched, state: ItemState): set<nat> {
    set i | i in s.active && i < |s.items| && s.items[i].state == state
  }

  /** An accepted item is in exactly one of queue, active or settled, and its promise has been
      resolved exactly once when its chain has got that far. */
  ghost predicate ItemOk(s: Sched, i: nat)
    requires i < |s.items|
  {
    var item := s.items[i];
    match item.state
    case Queued =>
      i in s.queue && i !in s.active && i !in s.starts && item.chain == NoChain && item.resolved == 0
      && !item.cancelled && !item.aborted
    case Running =>
      i !in s.queue && i in s.active && i in s.starts
      && ((item.chain == Awaiting && item.resolved == 0) || (item.chain == Closing && item.resolved == 1))
    case Cancelling =>
      i !in s.queue && i in s.active && i !in s.starts && item.cancelled
      && ((item.chain == Awaiting && item.resolved == 0) || (item.chain == Closing && item.resolved == 1))
    case Settled =>
      i !in s.queue && i !in s.active && item.chain == NoChain && item.resolved == 1
  }

  ghost predicate ExclusiveOk(s: Sched) {
    if s.exclusiveRunning then
      && s.starts != []
      && var e := s.starts[|s.starts| - 1];
      && e < |s.items| && s.items[e].exclusive && InState(s, Running) == {e}
    else
      forall i :: i in InState(s, Running) ==> !s.items[i].exclusive
  }

  ghost predicate Accounted(s: Sched) {
    && s.calls + s.halted == s.metrics.rejected + |s.items|
    && |s.items| == |s.starts| + s.withdrawn + s.halted + |s.queue|
    && s.metrics.started == |s.starts|
  }

  ghost predicate Core(s: Sched) {
    && Known(s)
    && s.maxConcurrency >= 1
    && InOrder(s)
    && (forall i <- s.starts :: i < |s.items|)
    && (forall i :: 0 <= i < |s.items| ==> ItemOk(s, i))
    && s.barriers == |InState(s, Cancelling)|
    && |InState(s, Running)| <= s.maxConcurrency
    && ExclusiveOk(s)
    && Accounted(s)
    && |s.queue| <= s.maxQueue
  }

  /** The pump has nothing to do. */
  ghost predicate Quiescent(s: Sched)
    requires Known(s)
  {
    || s.queue == []
    || s.exclusiveRunning
    || s.barriers > 0
    || (if s.items[s.queue[0]].exclusive then s.active != {} else |s.active| >= s.maxConcurrency)
  }

  ghost predicate Inv(s: Sched) {
    && Core(s)
    && (s.accepting ==> Quiescent(s))
    && (s.queue == [] && s.active == {} ==> s.drainWaiters == 0)
  }

  lemma SubsetSize(a: set<nat>, b: set<nat>)
    requires a <= b
    ensures |a| <= |b|
  {
    if a != {} {
      var x :| x in a;
      SubsetSize(a - {x}, b - {x});
    }
  }

  /** The pump may start the head of the queue. */
  ghost predicate HeadReady(s: Sched) {
    && Core(s) && s.queue != [] && !s.exclusiveRunning && s.barriers == 0
    && if s.items[s.queue[0]].exclusive then s.active == {} else |s.active| < s.maxConcurrency
  }

  function StartHead(s: Sched): Sched
    requires Known(s) && s.queue != []
  {
    Start(s.(queue := s.queue[1..]), s.queue[0])
  }

  ghost predicate InOrder(s: Sched) {
    && Increasing(s.queue)
    && Increasing(s.starts)
    && (forall i, q :: i in s.starts && q in s.queue ==> i < q)
  }

  lemma {:induction false} StartKeepsOrder(s: Sched)
    requires HeadReady(s)
    ensures InOrder(StartHead(s))
  {
    var i, t := s.queue[0], StartHead(s);
    assert forall q :: q in t.queue ==> q in s.queue && i < q;
    forall a, b | 0 <= a < b < |t.starts| ensures t.starts[a] < t.starts[b] {
      if b == |s.starts| { assert s.starts[a] in s.starts && i in s.queue; }
    }
  }

  lemma {:induction false} StartKeepsItems(s: Sched)
    requires HeadReady(s)
    ensures forall k :: 0 <= k < |s.items| ==> ItemOk(StartHead(s), k)
  {
    var i, t := s.queue[0], StartHead(s);
    assert ItemOk(s, i);
    assert s.queue == [i] + s.queue[1..];
    forall k | 0 <= k < |t.items| ensures ItemOk(t, k) {
      assert ItemOk(s, k);
    }
  }

  lemma {:induction false} StartKeepsCore(s: Sched)
    requires HeadReady(s)
    ensures Core(StartHead(s))
  {
    var i, t := s.queue[0], StartHead(s);
    StartKeepsOrder(s);
    StartKeepsItems(s);
    assert ItemOk(s, i);
    SubsetSize(InState(s, Running), s.active);
    assert InState(t, Running) == InState(s, Running) + {i};
    assert InState(t, Cancelling) == InState(s, Cancelling);
    assert t.starts[|t.starts| - 1] == i;
  }

  /** The part of the invariant the object's methods rely on: queued items are exactly the items
      of the queue, once each. */
  ghost predicate Linked(s: Sched) {
    && Known(s)
    && Increasing(s.queue)
    && s.barriers >= 0
    && forall i :: 0 <= i < |s.items| ==> (i in s.queue <==> s.items[i].state == Queued)
  }

  /** Core speaks only of these fields. */
  lemma CoreFrame(s: Sched, t: Sched)
    requires Core(s) && Accounted(t)
    requires t.items == s.items && t.queue == s.queue && t.active == s.active && t.starts == s.starts
    requires t.barriers == s.barriers && t.exclusiveRunning == s.exclusiveRunning
    requires t.maxConcurrency == s.maxConcurrency && t.maxQueue == s.maxQueue
    ensures Core(t)
  {
    assert InState(t, Running) == InState(s, Running) && InState(t, Cancelling) == InState(s, Cancelling);
    forall k | 0 <= k < |t.items| ensures ItemOk(t, k) { assert ItemOk(s, k); }
  }

  lemma PumpQueueKeepsCore(s: Sched)
    requires Core(s) && !s.exclusiveRunning && s.barriers == 0
    ensures Core(PumpQueue(s)) && Quiescent(PumpQueue(s))
    decreases |s.queue|
  {
    if s.queue == [] {
      CoreFrame(s, ResolveDrain(s));
    } else {
      var next := s.queue[0];
      if s.items[next].exclusive {
        if s.active == {} { StartKeepsCore(s); }
      } else if |s.active| < s.maxConcurrency {
        StartKeepsCore(s);
        PumpQueueKeepsCore(Start(s.(queue := s.queue[1..]), next));
      }
    }
  }

  /** What pumping can change: it may only start queued items, in order, from the front. */
  lemma {:induction false} PumpQueueStarts(s: Sched)
    requires Core(s) && !s.exclusiveRunning && s.barriers == 0
    ensures var t := PumpQueue(s);
      && s.starts <= t.starts && |t.items| == |s.items| && t.accepting == s.accepting
      && (t.queue == [] && t.active == {} ==> t.drainWaiters == 0)
      && (t.queue != [] ==> t.active != {})
      && t.barriers == 0
    decreases |s.queue|
  {
    if s.queue != [] {
      var next := s.queue[0];
      if !s.items[next].exclusive && |s.active| < s.maxConcurrency {
        StartKeepsCore(s);
        var t := Start(s.(queue := s.queue[1..]), next);
        assert s.starts <= t.starts;
        PumpQueueStarts(t);
      }
    }
  }

  /** A busy flag is never left up by an idle scheduler, so pumping always ends unstranded. */
  lemma BusyMeansActive(s: Sched)
    requires Core(s)
    ensures s.exclusiveRunning || s.barriers > 0 ==> s.active != {}
    ensures s.barriers >= 0
  {
    if s.barriers > 0 {
      assert InState(s, Cancelling) != {};
    }
  }

  lemma PumpKeeps(s: Sched)
    requires Core(s)
    ensures Inv(Pump(s))
    ensures Pump(s).queue != [] ==> Pump(s).active != {}
  {
    BusyMeansActive(s);
    if !s.exclusiveRunning && s.barriers <= 0 {
      PumpQueueKeepsCore(s);
      PumpQueueStarts(s);
    }
  }

  lemma WithoutIncreasing(q: seq<nat>, i: nat)
    requires Increasing(q) && i in q
    ensures Increasing(Without(q, i)) && |Without(q, i)| == |q| - 1
    ensures forall x :: x in Without(q, i) <==> x in q && x != i
  {
    assert q == [q[0]] + q[1..];
    if q[0] == i {
      forall x | x in q[1..] ensures x != i {}
    } else {
      WithoutIncreasing(q[1..], i);
      var w := Without(q[1..], i);
      forall a, b | 0 <= a < b < |Without(q, i)| ensures Without(q, i)[a] < Without(q, i)[b] {
        if a == 0 { assert w[b - 1] in q[1..]; }
      }
    }
  }

  lemma {:induction false} WithdrawKeepsItems(s: Sched, i: nat)
    requires Core(s) && i < |s.items| && s.items[i].state == Queued
    ensures forall k :: 0 <= k < |s.items| ==> ItemOk(Withdraw(s, i), k)
  {
    var t := Withdraw(s, i);
    assert ItemOk(s, i);
    WithoutIncreasing(s.queue, i);
    forall k | 0 <= k < |t.items| ensures ItemOk(t, k) { assert ItemOk(s, k); }
  }

  lemma {:induction false} WithdrawKeepsOrder(s: Sched, i: nat)
    requires Known(s) && InOrder(s) && i in s.queue && i < |s.items|
    ensures InOrder(Withdraw(s, i)) && |Withdraw(s, i).queue| == |s.queue| - 1
  {
    WithoutIncreasing(s.queue, i);
  }

  lemma WithdrawMoves(s: Sched, i: nat)
    requires i < |s.items| && s.items[i].state == Queued && i !in s.active
    ensures InState(Withdraw(s, i), Running) == InState(s, Running)
    ensures InState(Withdraw(s, i), Cancelling) == InState(s, Cancelling) + {i} && i !in InState(s, Cancelling)
  {
    assert InState(Withdraw(s, i), Running) == InState(s, Running);
    assert InState(Withdraw(s, i), Cancelling) == InState(s, Cancelling) + {i};
  }

  lemma {:induction false} WithdrawKeepsCore(s: Sched, i: nat)
    requires Core(s) && i < |s.items| && s.items[i].state == Queued
    ensures Core(Withdraw(s, i)) && Withdraw(s, i).barriers > 0
  {
    assert ItemOk(s, i);
    WithdrawKeepsOrder(s, i);
    WithdrawKeepsItems(s, i);
    var t := Withdraw(s, i);
    WithdrawMoves(s, i);
    forall k | 0 <= k < |t.queue| ensures t.queue[k] < |t.items| { assert t.queue[k] in s.queue; }
  }

  lemma PushKeepsCore(s: Sched, r: Request)
    requires Core(s) && Accepts(s, r)
    ensures Core(Push(s, r)) && Push(s, r).items[|s.items|].state == Queued
  {
    var t := Push(s, r);
    assert InState(t, Running) == InState(s, Running);
    assert InState(t, Cancelling) == InState(s, Cancelling);
    assert |s.items| !in s.active;
    forall k | 0 <= k < |t.items| ensures ItemOk(t, k) {
      if k < |s.items| { assert ItemOk(s, k); }
      else { assert t.queue[|s.queue|] == k; }
    }
  }

  lemma HaltKeepsCore(s: Sched)
    requires Core(s)
    ensures Core(Halt(s))
  {
    var t := Halt(s);
    assert InState(t, Running) == InState(s, Running) by {
      forall i | i in s.active && i < |s.items| ensures t.items[i] == s.items[i] { assert ItemOk(s, i); }
    }
    assert InState(t, Cancelling) == InState(s, Cancelling) by {
      forall i | i in s.active && i < |s.items| ensures t.items[i] == s.items[i] { assert ItemOk(s, i); }
    }
    forall k | 0 <= k < |t.items| ensures ItemOk(t, k) { assert ItemOk(s, k); }
    if t.exclusiveRunning {
      var e := s.starts[|s.starts| - 1];
      assert ItemOk(s, e);
    }
  }

  lemma ResolveKeepsCore(s: Sched, i: nat)
    requires Core(s) && (In(s, i, Running, Awaiting) || In(s, i, Cancelling, Awaiting))
    ensures Core(Resolve(s, i))
  {
    var t := Resolve(s, i);
    assert InState(t, Running) == InState(s, Running);
    assert InState(t, Cancelling) == InState(s, Cancelling);
    forall k | 0 <= k < |t.items| ensures ItemOk(t, k) { assert ItemOk(s, k); }
  }

  lemma AbortKeepsCore(s: Sched, i: nat)
    requires Core(s) && i < |s.items| && s.items[i].state == Running
    ensures Core(AbortRunning(s, i))
  {
    var t := AbortRunning(s, i);
    assert InState(t, Running) == InState(s, Running);
    assert InState(t, Cancelling) == InState(s, Cancelling);
    forall k | 0 <= k < |t.items| ensures ItemOk(t, k) { assert ItemOk(s, k); }
  }

  lemma RunSettledKeepsCore(s: Sched, i: nat)
    requires Core(s) && In(s, i, Running, Closing)
    ensures Core(RunSettled(s, i))
  {
    var u := RunSettled(s, i);
    assert ItemOk(s, i);
    assert i in InState(s, Running);
    assert InState(u, Running) == InState(s, Running) - {i};
    assert InState(u, Cancelling) == InState(s, Cancelling);
    forall k | 0 <= k < |u.items| ensures ItemOk(u, k) { assert ItemOk(s, k); }
  }

  lemma CancelSettledKeepsCore(s: Sched, i: nat)
    requires Core(s) && In(s, i, Cancelling, Closing)
    ensures Core(CancelSettled(s, i))
  {
    var v := CancelSettled(s, i);
    assert ItemOk(s, i);
    assert i in InState(s, Cancelling);
    assert InState(v, Running) == InState(s, Running);
    assert InState(v, Cancelling) == InState(s, Cancelling) - {i};
    forall k | 0 <= k < |v.items| ensures ItemOk(v, k) { assert ItemOk(s, k); }
  }

  /** The ids still to be visited by the loop of `close` are queued, in order. */
  ghost predicate Pending(s: Sched, ids: seq<nat>) {
    Increasing(ids) && forall k :: 0 <= k < |ids| ==> ids[k] in s.queue
  }

  /** What the loop of `close` makes of its first id. */
  function WithdrawFirst(s: Sched, ids: seq<nat>): Sched
    requires ids != [] && ids[0] < |s.items|
  {
    if s.items[ids[0]].cancellable then Withdraw(s, ids[0]) else Refuse(s)
  }

  lemma {:induction false} WithdrawFirstKeepsCore(s: Sched, ids: seq<nat>)
    requires Core(s) && Pending(s, ids) && ids != []
    ensures ids[0] < |s.items| && s.items[ids[0]].state == Queued
    ensures Core(WithdrawFirst(s, ids)) && Pending(WithdrawFirst(s, ids), ids[1..])
  {
    var i := ids[0];
    assert i in s.queue;
    assert ItemOk(s, i);
    if s.items[i].cancellable {
      WithdrawKeepsCore(s, i);
      WithoutIncreasing(s.queue, i);
    } else {
      CoreFrame(s, Refuse(s));
    }
  }

  lemma {:induction false} WithdrawAllKeepsCore(s: Sched, ids: seq<nat>)
    requires Core(s) && Pending(s, ids)
    ensures Known(s) && (forall k :: 0 <= k < |ids| ==> ids[k] < |s.items|)
    ensures var t := WithdrawAll(s, ids);
      Core(t) && t.accepting == s.accepting && t.starts == s.starts && (s.active != {} ==> t.active != {})
      && (forall i :: 0 <= i < |s.items| && s.items[i].state == Settled ==> t.items[i] == s.items[i])
    decreases |ids|
  {
    if ids != [] {
      WithdrawFirstKeepsCore(s, ids);
      WithdrawAllKeepsCore(WithdrawFirst(s, ids), ids[1..]);
    }
  }

  lemma EnqueueKeepsInv(s: Sched, r: Request)
    requires Inv(s)
    ensures Inv(EnqueueSpec(s, r))
  {
    if !Accepts(s, r) {
      CoreFrame(s, Reject(s));
    } else {
      var pushed := Push(s, r);
      PushKeepsCore(s, r);
      if !r.aborted { PumpKeeps(pushed); }
      else if !r.cancellable {
        CoreFrame(pushed, Refuse(pushed));
        PumpKeeps(Refuse(pushed));
      } else {
        WithdrawKeepsCore(pushed, |s.items|);
        BusyMeansActive(Withdraw(pushed, |s.items|));
      }
    }
  }

  lemma CloseKeepsInv(s: Sched, cancelQueued: bool)
    requires Inv(s)
    ensures Inv(CloseSpec(s, cancelQueued))
  {
    var closed := s.(accepting := false);
    CoreFrame(s, closed);
    if cancelQueued {
      WithdrawAllKeepsCore(closed, closed.queue);
      PumpKeeps(WithdrawAll(closed, closed.queue));
    }
  }

  lemma RunResolveKeepsInv(s: Sched, i: nat, ok: bool)
    requires Inv(s)
    ensures Inv(Apply(s, RunResolve(i, ok)))
  {
    if In(s, i, Running, Awaiting) {
      ResolveKeepsCore(s, i);
      CoreFrame(Resolve(s, i), Apply(s, RunResolve(i, ok)));
    }
  }

  lemma CancelResolveKeepsInv(s: Sched, i: nat, persisted: bool)
    requires Inv(s)
    ensures Inv(Apply(s, CancelResolve(i, persisted)))
  {
    if In(s, i, Cancelling, Awaiting) {
      var r := Resolve(s, i);
      assert i in r.active by { assert ItemOk(s, i); }
      ResolveKeepsCore(s, i);
      if !persisted {
        var failed := r.(metrics := s.metrics.(failed := s.metrics.failed + 1));
        CoreFrame(r, failed);
        HaltKeepsCore(failed);
      }
    }
  }

  lemma SettleKeepsInv(s: Sched, step: Step, i: nat)
    requires Inv(s) && (step.RunSettle? || step.CancelSettle?) && step.item == i
    ensures Inv(Apply(s, step))
  {
    if step.RunSettle? && In(s, i, Running, Closing) {
      RunSettledKeepsCore(s, i);
      PumpKeeps(RunSettled(s, i));
    } else if step.CancelSettle? && In(s, i, Cancelling, Closing) {
      CancelSettledKeepsCore(s, i);
      var t := CancelSettled(s, i);
      if t.accepting { PumpKeeps(t); } else { CoreFrame(t, ResolveDrain(t)); }
    }
  }

  /** Every turn keeps the invariant, whatever the port answers and whoever aborts. */
  lemma StepKeepsInv(s: Sched, step: Step)
    requires Inv(s)
    ensures Inv(Apply(s, step))
  {
    match step
    case Enqueue(r) => EnqueueKeepsInv(s, r);
    case SignalAbort(i) => AbortKeepsInv(s, i, Apply(s, step));
    case HandleCancel(i) => AbortKeepsInv(s, i, Apply(s, step));
    case CloseAbort(i) =>
      if i in s.active { assert ItemOk(s, i); }
      AbortKeepsInv(s, i, Apply(s, step));
    case RunResolve(i, ok) => RunResolveKeepsInv(s, i, ok);
    case CancelResolve(i, persisted) => CancelResolveKeepsInv(s, i, persisted);
    case RunSettle(i) => SettleKeepsInv(s, step, i);
    case CancelSettle(i) => SettleKeepsInv(s, step, i);
    case Close(cancelQueued) => CloseKeepsInv(s, cancelQueued);
    case Drain => CoreFrame(s, Apply(s, step));
  }

  lemma AbortKeepsInv(s: Sched, i: nat, t: Sched)
    requires Inv(s)
    requires t == s || t == Refuse(s)
      || (i < |s.items| && s.items[i].state == Queued && t == Withdraw(s, i))
      || (i < |s.items| && s.items[i].state in {Running, Cancelling} && !s.items[i].cancelled && t == AbortRunning(s, i))
    ensures Inv(t)
  {
    if t == Refuse(s) { CoreFrame(s, t); }
    else if i < |s.items| && s.items[i].state == Queued && t == Withdraw(s, i) {
      WithdrawKeepsCore(s, i);
      BusyMeansActive(t);
    } else if t != s {
      assert ItemOk(s, i);
      AbortKeepsCore(s, i);
    }
  }

  // ---------------------------------------------------------------- whole runs

  function Run(maxConcurrency: nat, maxQueue: nat, steps: seq<Step>): (s: Sched)
    requires maxConcurrency >= 1
    ensures Inv(s)
  {
    if steps == [] then
      var s := Init(maxConcurrency, maxQueue);
      assert InState(s, Running) == {} && InState(s, Cancelling) == {};
      s
    else
      var before := Run(maxConcurrency, maxQueue, steps[..|steps| - 1]);
      StepKeepsInv(before, steps[|steps| - 1]);
      Apply(before, steps[|steps| - 1])
  }

  /** What a reachable scheduler promises: items start in enqueue order, every accepted item is in
      exactly one of queue, active and settled, no promise resolves twice and every settled item's
      has resolved, the concurrency bound and the exclusive barrier hold, every `enqueue` call is
      accounted for, and while the scheduler accepts work a non-empty queue has something active
      that will pump it. */
  lemma EveryRun(maxConcurrency: nat, maxQueue: nat, steps: seq<Step>)
    requires maxConcurrency >= 1
    ensures var s := Run(maxConcurrency, maxQueue, steps);
      && Increasing(s.starts)
      && (forall i :: 0 <= i < |s.items| ==>
            && (i in s.queue <==> s.items[i].state == Queued)
            && (i in s.active <==> s.items[i].state in {Running, Cancelling})
            && s.items[i].resolved <= 1
            && (s.items[i].state == Settled ==> s.items[i].resolved == 1))
      && |InState(s, Running)| <= maxConcurrency
      && (forall e :: e in InState(s, Running) && s.items[e].exclusive ==> InState(s, Running) == {e})
      && s.calls == s.metrics.rejected + s.metrics.started + s.withdrawn + |s.queue|
      && (s.accepting && s.queue != [] ==> s.active != {})
      && (s.queue == [] && s.active == {} ==> s.drainWaiters == 0)
  {
    var s := Run(maxConcurrency, maxQueue, steps);
    RunLimits(maxConcurrency, maxQueue, steps);
    BusyMeansActive(s);
    forall i | 0 <= i < |s.items|
      ensures (i in s.queue <==> s.items[i].state == Queued)
      ensures (i in s.active <==> s.items[i].state in {Running, Cancelling})
      ensures s.items[i].resolved <= 1 && (s.items[i].state == Settled ==> s.items[i].resolved == 1)
    {
      assert ItemOk(s, i);
    }
  }

  /** The limits never change. */
  lemma {:induction false} RunLimits(maxConcurrency: nat, maxQueue: nat, steps: seq<Step>)
    requires maxConcurrency >= 1
    ensures Run(maxConcurrency, maxQueue, steps).maxConcurrency == maxConcurrency
    ensures Run(maxConcurrency, maxQueue, steps).maxQueue == maxQueue
  {
    if steps != [] {
      RunLimits(maxConcurrency, maxQueue, steps[..|steps| - 1]);
      StepChanges(Run(maxConcurrency, maxQueue, steps[..|steps| - 1]), steps[|steps| - 1]);
    }
  }

  // ---------------------------------------------------------------- order and barriers

  /** Item i started between s and t, and nothing that should have been a barrier was unsettled:
      no queued cancellation was in flight, and if i or an earlier item j is exclusive, j had
      settled. */
  ghost predicate StartedBehindBarriers(s: Sched, t: Sched, i: nat) {
    && i < |t.items|
    && InState(t, Cancelling) == {}
    && forall j :: 0 <= j < i && (t.items[i].exclusive || t.items[j].exclusive) ==> t.items[j].state == Settled
  }

  /** t continues s: starts are appended, identities and settled items are kept. */
  ghost predicate Continues(s: Sched, t: Sched) {
    && s.starts <= t.starts
    && |s.items| <= |t.items|
    && t.maxConcurrency == s.maxConcurrency && t.maxQueue == s.maxQueue
    && (t.accepting ==> s.accepting)
    && (forall i :: 0 <= i < |s.items| ==>
          && t.items[i].exclusive == s.items[i].exclusive
          && t.items[i].cancellable == s.items[i].cancellable
          && (s.items[i].state == Settled ==> t.items[i] == s.items[i]))
    && (forall k :: |s.starts| <= k < |t.starts| ==> StartedBehindBarriers(s, t, t.starts[k]))
  }

  lemma ContinuesTransitively(s: Sched, t: Sched, u: Sched)
    requires Continues(s, t) && Continues(t, u)
    requires InState(u, Cancelling) == {} || t.starts == s.starts
    ensures Continues(s, u)
  {
    forall k | |s.starts| <= k < |u.starts| ensures StartedBehindBarriers(s, u, u.starts[k]) {
      if k < |t.starts| { assert StartedBehindBarriers(s, t, t.starts[k]) && u.starts[k] == t.starts[k]; }
      else { assert StartedBehindBarriers(t, u, u.starts[k]); }
    }
  }

  lemma StartContinues(s: Sched)
    requires Core(s) && s.queue != [] && !s.exclusiveRunning && s.barriers == 0
    requires s.items[s.queue[0]].exclusive ==> s.active == {}
    ensures var t := Start(s.(queue := s.queue[1..]), s.queue[0]);
      Continues(s, t) && InState(t, Cancelling) == {}
  {
    var next := s.queue[0];
    var t := Start(s.(queue := s.queue[1..]), next);
    assert ItemOk(s, next);
    HeadBehindBarriers(s);
    assert InState(s, Cancelling) == {};
    assert InState(t, Cancelling) == {};
    assert StartedBehindBarriers(s, t, next);
  }

  lemma {:induction false} PumpQueueContinues(s: Sched)
    requires Core(s) && !s.exclusiveRunning && s.barriers == 0
    ensures Continues(s, PumpQueue(s))
    ensures InState(PumpQueue(s), Cancelling) == {}
    decreases |s.queue|
  {
    if s.queue == [] {
      assert InState(PumpQueue(s), Cancelling) == InState(s, Cancelling) == {};
    } else {
      var next := s.queue[0];
      assert InState(s, Cancelling) == {};
      if s.items[next].exclusive {
        if s.active == {} { StartContinues(s); }
      } else if |s.active| < s.maxConcurrency {
        StartContinues(s);
        StartKeepsCore(s);
        var t := Start(s.(queue := s.queue[1..]), next);
        PumpQueueContinues(t);
        ContinuesTransitively(s, t, PumpQueue(t));
      }
    }
  }

  /** When the head may start, every earlier item it must wait for has settled. */
  lemma HeadBehindBarriers(s: Sched)
    requires Core(s) && s.queue != [] && !s.exclusiveRunning && s.barriers == 0
    requires s.items[s.queue[0]].exclusive ==> s.active == {}
    ensures forall j | 0 <= j < s.queue[0] && (s.items[s.queue[0]].exclusive || s.items[j].exclusive) ::
              s.items[j].state == Settled
  {
    assert InState(s, Cancelling) == {};
    forall j | 0 <= j < s.queue[0] && (s.items[s.queue[0]].exclusive || s.items[j].exclusive)
      ensures s.items[j].state == Settled
    {
      assert ItemOk(s, j);
      assert s.items[j].state == Running ==> j in InState(s, Running);
      assert s.items[j].state == Cancelling ==> j in InState(s, Cancelling);
    }
  }

  lemma PumpContinues(s: Sched)
    requires Core(s)
    ensures Continues(s, Pump(s))
  {
    BusyMeansActive(s);
    if !s.exclusiveRunning && s.barriers <= 0 { PumpQueueContinues(s); }
  }

  /** A change that starts nothing, followed by a pump. */
  lemma ThenPump(s: Sched, mid: Sched)
    requires Continues(s, mid) && mid.starts == s.starts && Core(mid)
    ensures Continues(s, Pump(mid))
  {
    PumpContinues(mid);
    ContinuesTransitively(s, mid, Pump(mid));
  }

  lemma {:induction false} WithdrawFirstContinues(s: Sched, ids: seq<nat>)
    requires Known(s) && ids != [] && ids[0] < |s.items| && s.items[ids[0]].state == Queued
    ensures Continues(s, WithdrawFirst(s, ids)) && WithdrawFirst(s, ids).starts == s.starts
  {}

  lemma {:induction false} WithdrawAllContinues(s: Sched, ids: seq<nat>)
    requires Core(s) && Pending(s, ids)
    ensures Known(s) && (forall k :: 0 <= k < |ids| ==> ids[k] < |s.items|)
    ensures Continues(s, WithdrawAll(s, ids)) && WithdrawAll(s, ids).starts == s.starts
    decreases |ids|
  {
    WithdrawAllKeepsCore(s, ids);
    if ids != [] {
      var first := WithdrawFirst(s, ids);
      WithdrawFirstKeepsCore(s, ids);
      WithdrawFirstContinues(s, ids);
      WithdrawAllContinues(first, ids[1..]);
      ContinuesBack(s, first, WithdrawAll(first, ids[1..]));
    }
  }

  /** Starting nothing first, continuing is transitive whatever is in flight at the end. */
  lemma ContinuesBack(s: Sched, t: Sched, u: Sched)
    requires Continues(s, t) && Continues(t, u) && t.starts == s.starts
    ensures Continues(s, u)
  {
    ContinuesTransitively(s, t, u);
  }

  lemma EnqueueChanges(s: Sched, r: Request)
    requires Inv(s)
    ensures Continues(s, EnqueueSpec(s, r))
  {
    if Accepts(s, r) {
      PushKeepsCore(s, r);
      if !r.aborted { ThenPump(s, Push(s, r)); }
      else if !r.cancellable {
        CoreFrame(Push(s, r), Refuse(Push(s, r)));
        ThenPump(s, Refuse(Push(s, r)));
      }
    }
  }

  lemma RunSettleChanges(s: Sched, i: nat)
    requires Inv(s)
    ensures Continues(s, Apply(s, RunSettle(i)))
  {
    if In(s, i, Running, Closing) {
      RunSettledKeepsCore(s, i);
      ThenPump(s, RunSettled(s, i));
    }
  }

  lemma CancelSettleChanges(s: Sched, i: nat)
    requires Inv(s)
    ensures Continues(s, Apply(s, CancelSettle(i)))
  {
    if In(s, i, Cancelling, Closing) && s.accepting {
      CancelSettledKeepsCore(s, i);
      ThenPump(s, CancelSettled(s, i));
    }
  }

  lemma CloseChanges(s: Sched, cancelQueued: bool)
    requires Inv(s)
    ensures Continues(s, CloseSpec(s, cancelQueued))
  {
    var closed := s.(accepting := false);
    CoreFrame(s, closed);
    if cancelQueued {
      WithdrawAllKeepsCore(closed, closed.queue);
      WithdrawAllContinues(closed, closed.queue);
      ThenPump(s, WithdrawAll(closed, closed.queue));
    }
  }

  lemma SignalChanges(s: Sched, i: nat)
    requires Inv(s)
    ensures Continues(s, Apply(s, SignalAbort(i)))
  {
    if In(s, i, Queued, NoChain) && s.items[i].cancellable { WithdrawContinues(s, i); }
  }

  lemma {:induction false} WithdrawContinues(s: Sched, i: nat)
    requires i < |s.items| && s.items[i].state == Queued
    ensures Continues(s, Withdraw(s, i))
  {}

  lemma {:induction false} AbortContinues(s: Sched, i: nat)
    requires i < |s.items| && s.items[i].state != Settled
    ensures Continues(s, AbortRunning(s, i))
  {}

  lemma {:induction false} HandleChanges(s: Sched, i: nat)
    requires Inv(s)
    ensures Continues(s, Apply(s, HandleCancel(i)))
  {
    if i < |s.items| && s.items[i].state != Settled {
      AbortContinues(s, i);
      if s.items[i].state == Queued { WithdrawContinues(s, i); }
    }
  }

  lemma CloseAbortChanges(s: Sched, i: nat)
    requires Inv(s)
    ensures Continues(s, Apply(s, CloseAbort(i)))
  {
    if i in s.active {
      assert ItemOk(s, i);
      AbortContinues(s, i);
    }
  }

  lemma RunResolveChanges(s: Sched, i: nat, ok: bool)
    requires Inv(s)
    ensures Continues(s, Apply(s, RunResolve(i, ok)))
  {}

  lemma HaltContinues(s: Sched)
    requires Core(s)
    ensures Continues(s, Halt(s))
  {
    forall k | 0 <= k < |s.items| ensures s.items[k].state == Settled ==> k !in s.queue { assert ItemOk(s, k); }
  }

  /** A cancellation that could not be persisted, before the queue is halted. */
  function Failed(s: Sched, i: nat): Sched
    requires i < |s.items|
  {
    Resolve(s, i).(metrics := s.metrics.(failed := s.metrics.failed + 1))
  }

  lemma {:induction false} FailedContinues(s: Sched, i: nat)
    requires Core(s) && In(s, i, Cancelling, Awaiting)
    ensures Core(Failed(s, i)) && Continues(s, Failed(s, i)) && Failed(s, i).starts == s.starts
  {
    ResolveKeepsCore(s, i);
    CoreFrame(Resolve(s, i), Failed(s, i));
  }

  lemma {:induction false} HaltChanges(s: Sched, i: nat, persisted: bool)
    requires Inv(s)
    ensures Continues(s, Apply(s, CancelResolve(i, persisted)))
  {
    if In(s, i, Cancelling, Awaiting) {
      if persisted {
        ResolveContinues(s, i);
      } else {
        FailedContinues(s, i);
        HaltContinues(Failed(s, i));
        ContinuesBack(s, Failed(s, i), Halt(Failed(s, i)));
      }
    }
  }

  lemma {:induction false} ResolveContinues(s: Sched, i: nat)
    requires Core(s) && i < |s.items| && s.items[i].state != Settled
    ensures Continues(s, Resolve(s, i))
  {}

  /** Any turn: whatever starts in it starts behind its barriers, and settled items stay as
      they are. */
  lemma StepChanges(s: Sched, step: Step)
    requires Inv(s)
    ensures Continues(s, Apply(s, step))
  {
    match step
    case Enqueue(r) => EnqueueChanges(s, r);
    case RunSettle(i) => RunSettleChanges(s, i);
    case CancelSettle(i) => CancelSettleChanges(s, i);
    case Close(cancelQueued) => CloseChanges(s, cancelQueued);
    case CancelResolve(i, persisted) => HaltChanges(s, i, persisted);
    case SignalAbort(i) => SignalChanges(s, i);
    case HandleCancel(i) => HandleChanges(s, i);
    case CloseAbort(i) => CloseAbortChanges(s, i);
    case RunResolve(i, ok) => RunResolveChanges(s, i, ok);
    case Drain =>
  }

  /** In any run, at the turn in which item i starts: if i is exclusive every earlier item has
      settled, and every earlier exclusive item has settled whatever i is. */
  lemma BarriersOverRuns(maxConcurrency: nat, maxQueue: nat, steps: seq<Step>, n: nat, i: nat, j: nat)
    requires maxConcurrency >= 1 && n < |steps| && j < i
    requires i !in Run(maxConcurrency, maxQueue, steps[..n]).starts
    requires i in Run(maxConcurrency, maxQueue, steps[..n + 1]).starts
    ensures var t := Run(maxConcurrency, maxQueue, steps[..n + 1]);
      i < |t.items| && (t.items[i].exclusive || t.items[j].exclusive ==> t.items[j].state == Settled)
  {
    RunPrefix(maxConcurrency, maxQueue, steps, n);
    var s, t := Run(maxConcurrency, maxQueue, steps[..n]), Run(maxConcurrency, maxQueue, steps[..n + 1]);
    StepChanges(s, steps[n]);
    var k :| 0 <= k < |t.starts| && t.starts[k] == i;
    assert forall m :: 0 <= m < |s.starts| ==> s.starts[m] == t.starts[m];
    assert StartedBehindBarriers(s, t, t.starts[k]);
  }

  // ---------------------------------------------------------------- stranded work after close

  /** Work is queued and nothing is left that would ever pump the queue. */
  predicate Stranded(s: Sched) {
    s.queue != [] && s.active == {}
  }

  lemma PumpUnstrands(s: Sched)
    requires Core(s)
    ensures !Stranded(Pump(s))
  {
    PumpKeeps(s);
  }

  lemma SettleStrands(s: Sched, i: nat)
    requires Inv(s) && !Stranded(s)
    ensures !Stranded(Apply(s, RunSettle(i)))
    ensures Stranded(Apply(s, CancelSettle(i))) <==>
      In(s, i, Cancelling, Closing) && !s.accepting && s.queue != [] && s.active == {i}
  {
    if In(s, i, Running, Closing) {
      RunSettledKeepsCore(s, i);
      PumpUnstrands(RunSettled(s, i));
    } else if In(s, i, Cancelling, Closing) {
      assert i in s.active by { assert ItemOk(s, i); }
      CancelSettledKeepsCore(s, i);
      PumpUnstrands(CancelSettled(s, i));
      assert CancelSettled(s, i).active == {} <==> s.active == {i};
    }
  }

  lemma CloseUnstranded(s: Sched, cancelQueued: bool)
    requires Inv(s) && (!Stranded(s) || cancelQueued)
    ensures !Stranded(CloseSpec(s, cancelQueued))
  {
    var closed := s.(accepting := false);
    CoreFrame(s, closed);
    if cancelQueued {
      WithdrawAllKeepsCore(closed, closed.queue);
      PumpUnstrands(WithdrawAll(closed, closed.queue));
    }
  }

  /** Exactly one turn strands work: the end of a queued cancellation, after `close`, when it was
      the last active item and something is still queued behind it. */
  lemma StrandsExactlyWhen(s: Sched, step: Step)
    requires Inv(s) && !Stranded(s)
    ensures Stranded(Apply(s, step)) <==>
      && step.CancelSettle?
      && In(s, step.item, Cancelling, Closing)
      && !s.accepting && s.queue != [] && s.active == {step.item}
  {
    match step
    case Enqueue(r) => EnqueueUnstranded(s, r);
    case RunSettle(i) => SettleStrands(s, i);
    case CancelSettle(i) => SettleStrands(s, i);
    case Close(cancelQueued) => CloseUnstranded(s, cancelQueued);
    case _ =>
  }

  lemma EnqueueUnstranded(s: Sched, r: Request)
    requires Inv(s) && !Stranded(s)
    ensures !Stranded(EnqueueSpec(s, r))
  {
    if Accepts(s, r) {
      PushKeepsCore(s, r);
      CoreFrame(Push(s, r), Refuse(Push(s, r)));
      PumpUnstrands(Push(s, r));
      PumpUnstrands(Refuse(Push(s, r)));
    }
  }

  /** Once non-cancellable work is stranded only a further `close` that withdraws queued work
      pumps it again. */
  lemma OnlyCloseRescues(s: Sched, step: Step)
    requires Inv(s) && Stranded(s) && forall k :: 0 <= k < |s.queue| ==> !s.items[s.queue[k]].cancellable
    ensures !Stranded(Apply(s, step)) <==> step == Close(true)
  {
    assert !s.accepting by { BusyMeansActive(s); }
    forall i | 0 <= i < |s.items| ensures s.items[i].state == Settled || (s.items[i].state == Queued && !s.items[i].cancellable) {
      assert ItemOk(s, i);
    }
    if step == Close(true) { CloseUnstranded(s, true); }
  }

  lemma RunPrefix(maxConcurrency: nat, maxQueue: nat, steps: seq<Step>, n: nat)
    requires maxConcurrency >= 1 && n < |steps|
    ensures Run(maxConcurrency, maxQueue, steps[..n + 1])
         == Apply(Run(maxConcurrency, maxQueue, steps[..n]), steps[n])
  {
    assert steps[..n + 1][..n] == steps[..n];
  }

  const Fired: Step := Enqueue(Request(true, true, false, true, true))
  const Stubborn: Step := Enqueue(Request(true, true, false, false, false))
  const StuckSteps: seq<Step> := [Fired, Stubborn, Close(false), Drain, CancelResolve(0, true), CancelSettle(0)]

  function Withdrawing(): Sched {
    Sched(1, 8, [Item(false, true, Cancelling, Awaiting, true, true, 0)], [], {0}, 1, false, true, 0,
          Metrics(0, 1, 0, 0, 0, 0), [], 1, 1, 0)
  }

  function Behind(accepting: bool, drainWaiters: nat, chain: Chain, resolved: nat): Sched {
    Sched(1, 8,
      [Item(false, true, Cancelling, chain, true, true, resolved), Item(false, false, Queued, NoChain, false, false, 0)],
      [1], {0}, 1, false, accepting, drainWaiters, Metrics(0, 1, 0, 0, 0, 0), [], 2, 1, 0)
  }

  lemma StuckQueues()
    ensures Apply(Init(1, 8), Fired) == Withdrawing()
    ensures Apply(Withdrawing(), Stubborn) == Behind(true, 0, Awaiting, 0)
  {
    assert Apply(Init(1, 8), Fired).items == Withdrawing().items;
    assert Apply(Withdrawing(), Stubborn).items == Behind(true, 0, Awaiting, 0).items;
  }

  lemma StuckCloses()
    ensures Apply(Behind(true, 0, Awaiting, 0), Close(false)) == Behind(false, 0, Awaiting, 0)
    ensures Apply(Behind(false, 0, Awaiting, 0), Drain) == Behind(false, 1, Awaiting, 0)
    ensures Apply(Behind(false, 1, Awaiting, 0), CancelResolve(0, true)) == Behind(false, 1, Closing, 1)
  {
    assert Apply(Behind(false, 1, Awaiting, 0), CancelResolve(0, true)).items == Behind(false, 1, Closing, 1).items;
  }

  lemma {:induction false} Follow(
      maxConcurrency: nat, maxQueue: nat, steps: seq<Step>, states: seq<Sched>, n: nat)
    requires maxConcurrency >= 1 && |states| == |steps| + 1 && n <= |steps|
    requires states[0] == Init(maxConcurrency, maxQueue)
    requires forall k :: 0 <= k < |steps| ==> Known(states[k]) && Apply(states[k], steps[k]) == states[k + 1]
    ensures Run(maxConcurrency, maxQueue, steps[..n]) == states[n]
  {
    if n > 0 {
      Follow(maxConcurrency, maxQueue, steps, states, n - 1);
      RunPrefix(maxConcurrency, maxQueue, steps, n - 1);
    }
  }

  lemma StuckEnds()
    ensures var s := Apply(Behind(false, 1, Closing, 1), CancelSettle(0));
      Stranded(s) && s.drainWaiters == 1 && !s.items[s.queue[0]].cancellable
  {
    assert Apply(Behind(false, 1, Closing, 1), CancelSettle(0)).active == {};
  }

  function StuckStates(): seq<Sched> {
    [Init(1, 8), Withdrawing(), Behind(true, 0, Awaiting, 0), Behind(false, 0, Awaiting, 0),
     Behind(false, 1, Awaiting, 0), Behind(false, 1, Closing, 1), Apply(Behind(false, 1, Closing, 1), CancelSettle(0))]
  }

  lemma StuckTurn(k: nat)
    requires k < |StuckSteps|
    ensures Known(StuckStates()[k]) && Apply(StuckStates()[k], StuckSteps[k]) == StuckStates()[k + 1]
  {
    StuckQueues();
    StuckCloses();
  }

  /** It happens: a request whose signal has already fired is withdrawn, a non-cancellable one
      queues behind it, and the scheduler is closed before the withdrawal ends.  The drain that
      `close` awaits never resolves. */
  lemma StuckTrace()
    ensures var s := Run(1, 8, StuckSteps);
      Stranded(s) && s.drainWaiters == 1 && !s.items[s.queue[0]].cancellable
  {
    var steps, states := StuckSteps, StuckStates();
    forall k | 0 <= k < |steps|
      ensures Known(states[k]) && Apply(states[k], steps[k]) == states[k + 1]
    {
      StuckTurn(k);
    }
    Follow(1, 8, steps, states, 6);
    assert steps[..6] == steps;
    StuckEnds();
  }
}
