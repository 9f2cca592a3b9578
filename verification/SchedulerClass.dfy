/** The scheduler object: its fields are updated in place, and every method's contract says which
    turn of GovernedScheduler it is. */
module GovernedSchedulerClass {
  import opened S = GovernedScheduler

  class GovernedExecutionScheduler {
    const maxConcurrency: nat
    const maxQueue: nat
    var items: seq<Item>  // every item ever accepted, by id
    var queue: seq<nat>
    var activeItems: set<nat>
    var cancellationBarriers: int
    var exclusiveRunning: bool
    var accepting: bool
    var drainWaiters: nat
    var metrics: Metrics
    ghost var starts: seq<nat>
    ghost var calls: nat
    ghost var withdrawn: nat
    ghost var halted: nat

    ghost function State(): Sched
      reads this
    {
      Sched(maxConcurrency, maxQueue, items, queue, activeItems, cancellationBarriers, exclusiveRunning,
            accepting, drainWaiters, metrics, starts, calls, withdrawn, halted)
    }

    constructor (maxConcurrency: nat, maxQueue: nat)
      requires maxConcurrency >= 1 && maxQueue >= 1
      ensures State() == Init(maxConcurrency, maxQueue) && Inv(State())
    {
      this.maxConcurrency, this.maxQueue := maxConcurrency, maxQueue;
      items, queue, activeItems := [], [], {};
      cancellationBarriers, exclusiveRunning, accepting, drainWaiters := 0, false, true, 0;
      metrics := Metrics(0, 0, 0, 0, 0, 0);
      starts, calls, withdrawn, halted := [], 0, 0, 0;
      new;
      assert State() == Run(maxConcurrency, maxQueue, []);
    }

    /** `_start` */
    method StartItem(i: nat)
      requires i < |items|
      modifies this
      ensures State() == S.Start(old(State()), i)
    {
      items := items[i := items[i].(state := Running, chain := Awaiting)];
      activeItems := activeItems + {i};
      if items[i].exclusive { exclusiveRunning := true; }
      metrics := metrics.(started := metrics.started + 1);
      starts := starts + [i];
    }

    method ResolveDrainWaiters()
      modifies this`drainWaiters
      ensures State() == S.ResolveDrain(old(State()))
    {
      if |queue| > 0 || activeItems != {} { return; }
      drainWaiters := 0;
    }

    method PumpItems()
      requires Known(State())
      modifies this
      ensures State() == S.Pump(old(State()))
    {
      if exclusiveRunning || cancellationBarriers > 0 { return; }
      while |queue| > 0
        invariant Known(State())
        invariant S.PumpQueue(State()) == S.PumpQueue(old(State()))
        decreases |queue|
      {
        var next := queue[0];
        if items[next].exclusive {
          if activeItems != {} { return; }
          queue := queue[1..];
          StartItem(next);
          return;
        }
        if |activeItems| >= maxConcurrency { return; }
        queue := queue[1..];
        StartItem(next);
      }
      ResolveDrainWaiters();
    }

    /** `queue.indexOf` and `queue.splice`. */
    method SpliceOut(i: nat) returns (rest: seq<nat>)
      requires i in queue
      ensures rest == S.Without(queue, i)
    {
      var q := queue;
      var index := 0;
      while q[index] != i
        invariant index < |q|
        invariant i in q[index..]
        invariant S.Without(q, i) == q[..index] + S.Without(q[index..], i)
        decreases |q| - index
      {
        SkipOne(q, index, i);
        index := index + 1;
      }
      FoundOne(q, index, i);
      rest := q[..index] + q[index + 1..];
    }

    /** `_cancelQueued` up to its promise chain, whose turns are CancelResolve and CancelSettle. */
    method CancelQueued(i: nat, pump: bool) returns (taken: bool)
      requires Linked(State()) && i < |items|
      modifies this
      ensures taken <==> old(items[i].state == Queued)
      ensures State() == if taken then S.Withdraw(old(State()), i) else old(State())
    {
      if i !in queue || items[i].state != Queued { return false; }
      ghost var before := State();
      queue := SpliceOut(i);
      items := items[i := items[i].(state := Cancelling, chain := Awaiting, cancelled := true, aborted := true)];
      metrics := metrics.(cancelled := metrics.cancelled + 1);
      activeItems := activeItems + {i};
      cancellationBarriers := cancellationBarriers + 1;
      withdrawn := withdrawn + 1;
      assert State() == S.Withdraw(before, i);
      if pump {
        assert forall k :: 0 <= k < |queue| ==> queue[k] in before.queue;
        PumpItems();
      }
      return true;
    }

    method EnqueueRequest(r: Request) returns (accepted: bool)
      requires Linked(State())
      modifies this
      ensures State() == S.EnqueueSpec(old(State()), r)
      ensures accepted <==> S.Accepts(old(State()), r)
    {
      ghost var before := State();
      calls := calls + 1;
      if !r.named || !accepting || !r.signalShaped || |queue| >= maxQueue {
        metrics := metrics.(rejected := metrics.rejected + 1);
        return false;
      }
      var i := |items|;
      items := items + [Item(r.exclusive, r.cancellable, Queued, NoChain, false, false, 0)];
      queue := queue + [i];
      assert State() == S.Push(before, r);
      PushKeepsLinked(before, r);
      if r.aborted {
        if !r.cancellable {
          metrics := metrics.(refused := metrics.refused + 1);
        } else {
          var _ := CancelQueued(i, true);
          return true;
        }
      }
      PumpItems();
      return true;
    }

    /** The caller's `cancel`: whether the cancellation was taken. */
    method CancelHandle(i: nat) returns (taken: bool)
      requires Linked(State()) && i < |items|
      modifies this
      ensures State() == Apply(old(State()), HandleCancel(i))
      ensures taken <==>
        old(!items[i].cancelled && items[i].state != Settled && !items[i].aborted && items[i].cancellable)
    {
      if items[i].cancelled || items[i].state == Settled || items[i].aborted { return false; }
      if !items[i].cancellable {
        metrics := metrics.(refused := metrics.refused + 1);
        return false;
      }
      if items[i].state == Queued {
        taken := CancelQueued(i, true);
        return;
      }
      items := items[i := items[i].(cancelled := true, aborted := true)];
      metrics := metrics.(cancelled := metrics.cancelled + 1);
      return true;
    }

    /** `_halt` */
    method HaltQueue()
      requires Known(State()) && Increasing(queue)
      modifies this
      ensures State() == S.Halt(old(State()))
    {
      accepting := false;
      var queuedItems := queue;
      queue := [];
      halted := halted + |queuedItems|;
      FailEach(queuedItems);
    }

    /** The loop of `_halt` over its copy of the queue. */
    method FailEach(queuedItems: seq<nat>)
      requires Increasing(queuedItems) && forall k :: 0 <= k < |queuedItems| ==> queuedItems[k] < |items|
      modifies this`items, this`metrics
      ensures items == HaltedItems(old(items), queuedItems)
      ensures metrics == old(metrics).(rejected := old(metrics.rejected) + |queuedItems|)
    {
      assert items == HaltedItems(items, queuedItems[..0]);
      for k := 0 to |queuedItems|
        invariant items == HaltedItems(old(items), queuedItems[..k])
        invariant metrics == old(metrics).(rejected := old(metrics.rejected) + k)
      {
        var i := queuedItems[k];
        HaltOne(old(items), queuedItems, k);
        items := items[i := items[i].(state := Settled, resolved := items[i].resolved + 1)];
        metrics := metrics.(rejected := metrics.rejected + 1);
      }
      assert queuedItems[..|queuedItems|] == queuedItems;
    }

    /** The `finally` block of a running item's chain. */
    method SettleRun(i: nat)
      requires Known(State()) && In(State(), i, Running, Closing)
      modifies this
      ensures State() == Apply(old(State()), RunSettle(i))
    {
      ghost var before := State();
      items := items[i := items[i].(state := Settled, chain := NoChain)];
      activeItems := activeItems - {i};
      if items[i].exclusive { exclusiveRunning := false; }
      assert State() == S.RunSettled(before, i);
      PumpItems();
    }

    /** The port's answer to a queued cancellation: a failure to persist it halts the queue. */
    method ResolveCancellation(i: nat, persisted: bool)
      requires Linked(State()) && In(State(), i, Cancelling, Awaiting)
      modifies this
      ensures State() == Apply(old(State()), CancelResolve(i, persisted))
    {
      ghost var before := State();
      items := items[i := items[i].(resolved := items[i].resolved + 1, chain := Closing)];
      assert State() == S.Resolve(before, i);
      if !persisted {
        metrics := metrics.(failed := metrics.failed + 1);
        ghost var mid := S.Resolve(before, i).(metrics := before.metrics.(failed := before.metrics.failed + 1));
        assert State() == mid;
        ResolveApplies(before, i);
        HaltQueue();
      }
    }

    /** The `finally` block of a queued cancellation: it pumps only while the scheduler accepts. */
    method SettleCancellation(i: nat)
      requires Known(State()) && In(State(), i, Cancelling, Closing)
      modifies this
      ensures State() == Apply(old(State()), CancelSettle(i))
    {
      ghost var before := State();
      items := items[i := items[i].(state := Settled, chain := NoChain)];
      activeItems := activeItems - {i};
      cancellationBarriers := cancellationBarriers - 1;
      assert State() == S.CancelSettled(before, i);
      if accepting { PumpItems(); } else { ResolveDrainWaiters(); }
    }

    /** The synchronous part of `close`: the aborts of running items are CloseAbort turns. */
    method CloseQueue(cancelQueued: bool)
      requires Linked(State())
      modifies this
      ensures State() == Apply(old(State()), Close(cancelQueued))
    {
      accepting := false;
      if cancelQueued {
        CancelEach(queue);
        PumpItems();
      }
    }

    /** The loop of `close` over its copy of the queue. */
    method CancelEach(queuedItems: seq<nat>)
      requires Linked(State()) && InQueue(State(), queuedItems)
      modifies this
      ensures State() == S.WithdrawAll(old(State()), queuedItems)
    {
      ghost var start, now := State(), State();
      assert queuedItems[0..] == queuedItems;
      for k := 0 to |queuedItems|
        invariant now == State() && Linked(now) && InQueue(now, queuedItems[k..])
        invariant S.WithdrawAll(now, queuedItems[k..]) == S.WithdrawAll(start, queuedItems)
      {
        var i := queuedItems[k];
        WithdrawOne(now, queuedItems[k..]);
        assert queuedItems[k..][1..] == queuedItems[k + 1..];
        CancelOrRefuse(i);
        now := if now.items[i].cancellable then S.Withdraw(now, i) else S.Refuse(now);
      }
    }

    method CancelOrRefuse(i: nat)
      requires Linked(State()) && i < |items| && items[i].state == Queued
      modifies this
      ensures State() == if old(items[i].cancellable) then S.Withdraw(old(State()), i) else S.Refuse(old(State()))
    {
      if !items[i].cancellable {
        metrics := metrics.(refused := metrics.refused + 1);
      } else {
        var _ := CancelQueued(i, false);
      }
    }
  }

  /** Every listed item is queued. */
  ghost predicate InQueue(s: Sched, ids: seq<nat>) {
    Increasing(ids) && forall m :: 0 <= m < |ids| ==> ids[m] in s.queue && ids[m] < |s.items|
  }

  lemma WithdrawOne(s: Sched, ids: seq<nat>)
    requires Linked(s) && InQueue(s, ids) && ids != []
    ensures s.items[ids[0]].state == Queued
    ensures var t := if s.items[ids[0]].cancellable then S.Withdraw(s, ids[0]) else S.Refuse(s);
      Linked(t) && InQueue(t, ids[1..]) && S.WithdrawAll(t, ids[1..]) == S.WithdrawAll(s, ids)
  {
    WithdrawKeepsLinked(s, ids[0]);
  }

  lemma HaltOne(items: seq<Item>, q: seq<nat>, k: nat)
    requires Increasing(q) && k < |q| && q[k] < |items|
    ensures var done := HaltedItems(items, q[..k]);
      HaltedItems(items, q[..k + 1])
        == done[q[k] := done[q[k]].(state := Settled, resolved := done[q[k]].resolved + 1)]
  {
    assert q[..k + 1] == q[..k] + [q[k]];
    assert q[k] !in q[..k];
  }

  lemma PushKeepsLinked(s: Sched, r: Request)
    requires Linked(s)
    ensures Linked(Push(s, r))
  {
    var t := Push(s, r);
    forall i | 0 <= i < |t.items| ensures i in t.queue <==> t.items[i].state == Queued {
      if i == |s.items| { assert t.queue[|s.queue|] == i; }
    }
  }

  lemma WithdrawKeepsLinked(s: Sched, i: nat)
    requires Linked(s) && i in s.queue
    ensures i < |s.items| && Linked(S.Withdraw(s, i))
    ensures forall j :: j in S.Withdraw(s, i).queue <==> j in s.queue && j != i
  {
    WithoutIncreasing(s.queue, i);
    var t := S.Withdraw(s, i);
    forall k | 0 <= k < |t.queue| ensures t.queue[k] < |t.items| { assert t.queue[k] in s.queue; }
  }

  /** What a refused queued cancellation comes to. */
  lemma ResolveApplies(s: Sched, i: nat)
    requires Linked(s) && In(s, i, Cancelling, Awaiting)
    ensures var mid := S.Resolve(s, i).(metrics := s.metrics.(failed := s.metrics.failed + 1));
      Known(mid) && mid.queue == s.queue && Apply(s, CancelResolve(i, false)) == S.Halt(mid)
  {
  }

  /** An entry that is not the one sought stays in front. */
  lemma SkipOne(q: seq<nat>, index: nat, i: nat)
    requires index < |q| && i in q[index..] && q[index] != i
    ensures index + 1 < |q| && i in q[index + 1..]
    ensures q[..index] + S.Without(q[index..], i) == q[..index + 1] + S.Without(q[index + 1..], i)
  {
    assert q[index..][0] == q[index] && q[index..][1..] == q[index + 1..];
    MoveHead(q, index, S.Without(q[index + 1..], i));
  }

  lemma MoveHead(q: seq<nat>, index: nat, rest: seq<nat>)
    requires index < |q|
    ensures q[..index] + ([q[index]] + rest) == q[..index + 1] + rest
  {}

  lemma FoundOne(q: seq<nat>, index: nat, i: nat)
    requires index < |q| && q[index] == i
    ensures S.Without(q[index..], i) == q[index + 1..]
  {
    assert q[index..][0] == i && q[index..][1..] == q[index + 1..];
  }
}
