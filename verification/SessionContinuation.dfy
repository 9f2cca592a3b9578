/** The request after a tool-call step: the driver builds it from the calls it made, the fold derives
    it from the log, and the two must be the same. */
module SessionContinuation {
  import opened Outcomes
  import opened SessionFold
  import opened SessionStream
  import opened SessionRows

  // ---------------------------------------------------------------- what durable facts point to

  /** Whatever a turn points to has been seen, and a call's execution is of that call. */
  ghost predicate TurnLinked(s: State, t: Turn, seen: set<Id>) {
    && (t.request.Some? ==> t.requestEvent in seen)
    && (forall i :: 0 <= i < |t.steps| && t.steps[i].terminal.Some? ==> t.steps[i].terminal.value in seen)
    && (forall i :: 0 <= i < |t.toolCompactions| ==> t.toolCompactions[i].event in seen)
    && (forall c :: c in t.executions ==> t.executions[c] in s.invocations && s.invocations[t.executions[c]].call == c)
  }

  ghost predicate Linked(s: State, seen: set<Id>) {
    && (forall t :: t in s.turns ==> TurnLinked(s, s.turns[t], seen))
    && (forall x :: x in s.invocations ==>
          s.invocations[x].invocation == x && (s.invocations[x].completedEvent.Some? ==> s.invocations[x].completedEvent.value in seen))
  }

  lemma LinkedMore(s: State, z: State, seen: set<Id>, more: set<Id>)
    requires Linked(s, seen) && seen <= more && z.turns == s.turns && z.invocations == s.invocations
    ensures Linked(z, more)
  {
    forall t | t in z.turns ensures TurnLinked(z, z.turns[t], more) { assert TurnLinked(s, s.turns[t], seen); }
  }

  lemma TurnRelinked(s: State, z: State, seen: set<Id>, more: set<Id>, id: Id, t: Turn)
    requires Linked(s, seen) && seen <= more && z.turns == s.turns[id := t] && z.invocations == s.invocations
    requires TurnLinked(s, t, more)
    ensures Linked(z, more)
  {
    forall x | x in z.turns ensures TurnLinked(z, z.turns[x], more) {
      if x != id { assert TurnLinked(s, s.turns[x], seen); }
    }
  }

  lemma TurnBodyLinked(k: Env, s: State, e: Event, seen: set<Id>)
    requires Linked(s, seen) && (e.body.TurnStarted? || e.body.Assembled? || e.body.StepStarted?) && ApplyBody(k, s, e).Some?
    ensures Linked(ApplyBody(k, s, e).value, seen + {e.id})
  {
    var z, id := ApplyBody(k, s, e).value, e.body.turn;
    if id in s.turns { assert TurnLinked(s, s.turns[id], seen); }
    TurnRelinked(s, z, seen, seen + {e.id}, id, z.turns[id]);
  }

  lemma CompactedLinked(k: Env, s: State, e: Event, seen: set<Id>)
    requires Linked(s, seen) && (e.body.ContextCompacted? || e.body.ToolsCompacted?) && ApplyBody(k, s, e).Some?
    ensures Linked(ApplyBody(k, s, e).value, seen + {e.id})
  {
    var z, id := ApplyBody(k, s, e).value, e.body.turn;
    assert TurnLinked(s, s.turns[id], seen);
    TurnRelinked(s, z, seen, seen + {e.id}, id, z.turns[id]);
  }

  lemma StreamedLinked(s: State, e: Event, seen: set<Id>)
    requires Linked(s, seen) && e.body.Streamed? && ApplyStreamed(s, e).Some? && TurnLinked(s, s.turns[e.body.turn], seen)
    ensures Linked(ApplyStreamed(s, e).value, seen + {e.id})
  {
    var z, id := ApplyStreamed(s, e).value, e.body.turn;
    var t := s.turns[id];
    if e.body.target.Some? {
      StepRelinked(s, t, StepIndex(t.steps, e.body.target.value), e, seen);
    } else {
      assert TurnLinked(s, t, seen) && TurnLinked(s, RecordStream(t, e), seen + {e.id});
    }
    TurnRelinked(s, z, seen, seen + {e.id}, id, z.turns[id]);
  }

  lemma StepRelinked(s: State, t: Turn, i: nat, e: Event, seen: set<Id>)
    requires i < |t.steps| && e.body.Streamed? && TurnLinked(s, t, seen)
    ensures TurnLinked(s, RecordStream(t, e).(steps := t.steps[i := PushEvent(t.steps[i], e.body.event, e.id)]), seen + {e.id})
  {
  }

  /** One execution is new or changed, and its call points to it. */
  lemma ExecutionRelinked(s: State, z: State, seen: set<Id>, more: set<Id>, id: Id, t: Turn, x: Execution)
    requires Linked(s, seen) && seen <= more && id in s.turns
    requires z.invocations == s.invocations[x.invocation := x] && z.turns == s.turns[id := t]
    requires t == s.turns[id].(executions := s.turns[id].executions[x.call := x.invocation])
    requires x.invocation in s.invocations ==> s.invocations[x.invocation].call == x.call
    requires x.completedEvent.Some? ==> x.completedEvent.value in more
    ensures Linked(z, more)
  {
    forall y | y in z.turns ensures TurnLinked(z, z.turns[y], more) {
      assert TurnLinked(s, s.turns[y], seen);
    }
  }

  lemma ToolBodyLinked(k: Env, s: State, e: Event, seen: set<Id>)
    requires Linked(s, seen) && (e.body.ToolStarted? || e.body.ToolCompleted?) && ApplyBody(k, s, e).Some?
    ensures Linked(ApplyBody(k, s, e).value, seen + {e.id})
  {
    var z, b := ApplyBody(k, s, e).value, e.body;
    var id := if b.ToolStarted? then b.invocation else b.outcome.invocation;
    ExecutionRelinked(s, z, seen, seen + {e.id}, b.turn, z.turns[b.turn], z.invocations[id]);
  }

  lemma BodyLinked(k: Env, s: State, e: Event, seen: set<Id>)
    requires Linked(s, seen) && ApplyBody(k, s, e).Some?
    ensures Linked(ApplyBody(k, s, e).value, seen + {e.id})
  {
    if e.body.TurnStarted? || e.body.Assembled? || e.body.StepStarted? {
      TurnBodyLinked(k, s, e, seen);
    } else if e.body.ContextCompacted? || e.body.ToolsCompacted? {
      CompactedLinked(k, s, e, seen);
    } else if e.body.Streamed? {
      assert TurnLinked(s, s.turns[e.body.turn], seen);
      StreamedLinked(s, e, seen);
    } else if e.body.ToolStarted? || e.body.ToolCompleted? {
      ToolBodyLinked(k, s, e, seen);
    } else {
      if !e.body.Created? { AsideKeeps(k, s, e); }
      LinkedMore(s, ApplyBody(k, s, e).value, seen, seen + {e.id});
    }
  }

  lemma {:induction false} EveryStateLinked(k: Env, log: seq<Event>)
    requires Accepted(k, log)
    ensures Linked(Replay(k, log).value, Replay(k, log).value.seen)
    decreases |log|
  {
    if log != [] {
      var n := |log| - 1;
      EveryStateLinked(k, log[..n]);
      EveryStateOk(k, log[..n]);
      ApplyLinked(k, Replay(k, log[..n]).value, log[n], n);
    }
  }

  lemma ApplyLinked(k: Env, s: State, e: Event, n: nat)
    requires Linked(s, s.seen) && StateOk(s) && HeadOk(s, n) && Apply(k, s, e).Ok?
    ensures Linked(Apply(k, s, e).value, Apply(k, s, e).value.seen)
  {
    LinkedMore(s, Enter(s, e), s.seen, s.seen);
    BodyLinked(k, Enter(s, e), e, s.seen);
    ApplyKeeps(k, s, e, n);
    var t := ApplyBody(k, Enter(s, e), e).value;
    LinkedMore(t, Apply(k, s, e).value, s.seen + {e.id}, s.seen + {e.id});
  }

  // ---------------------------------------------------------------- the driver

  /** What the driver has made sure of before it goes on: each call has its own execution, by name
      and input, and an outcome. */
  ghost predicate Executed(s: State, t: Turn, calls: seq<Call>) {
    forall i :: 0 <= i < |calls| ==>
      && calls[i].id in t.executions && t.executions[calls[i].id] in s.invocations
      && var x := s.invocations[t.executions[calls[i].id]];
         x.name == calls[i].name && x.input == calls[i].input && x.outcome.Some?
  }

  /** Tool messages as the driver writes them: by the call, not by the execution. */
  function DriverMessages(k: Env, s: State, t: Turn, calls: seq<Call>): (r: seq<Msg>)
    ensures |r| == |calls|
  {
    seq(|calls|, i requires 0 <= i < |calls| =>
      ToolResult(calls[i].name, calls[i].id,
                 if calls[i].id in t.executions && t.executions[calls[i].id] in s.invocations && s.invocations[t.executions[calls[i].id]].outcome.Some?
                 then k.render(s.invocations[t.executions[calls[i].id]].outcome.value) else ""))
  }

  function DriverIds(s: State, t: Turn, calls: seq<Call>): (r: seq<Id>)
    ensures |r| == |calls|
  {
    seq(|calls|, i requires 0 <= i < |calls| =>
      if calls[i].id in t.executions && t.executions[calls[i].id] in s.invocations && s.invocations[t.executions[calls[i].id]].completedEvent.Some?
      then s.invocations[t.executions[calls[i].id]].completedEvent.value else "")
  }

  /** The continuation the driver sends, with the compaction record it decided to use, if any. */
  function DriverContinuation(k: Env, s: State, t: Turn, step: ModelStep, calls: seq<Call>, record: Option<ToolCompaction>): Expected
    requires step.terminal.Some?
  {
    var head := step.request.messages + [Calls(ContentOf(step.events), calls)];
    if record.Some? then Expected(head + record.value.replacement, [step.terminal.value, record.value.event])
    else Expected(head + DriverMessages(k, s, t, calls), [step.terminal.value] + DriverIds(s, t, calls))
  }

  /** What the compaction provider makes of the tool results, and the names it is recorded under. */
  datatype Made = Made(compaction: Id, checkpoint: Id, provenance: Provenance, replacement: seq<Msg>)

  /** What decides about compaction: the context profile, the assessment of pressure, and what the
      provider makes; None when it fails and the full continuation fits as well. */
  datatype Policy = Policy(compact: bool, pressure: bool, made: Option<Made>)
  {
    predicate Compacts() { compact && pressure }
  }

  /** The record used: none without a compact profile or pressure; else one already durable for these
      outcomes, or the one just made. */
  function ChooseRecord(p: Policy, durable: Option<ToolCompaction>, made: Option<ToolCompaction>): Option<ToolCompaction> {
    if !p.Compacts() then None else if durable.Some? then durable else made
  }

  function DriverSources(k: Env, s: State, t: Turn, calls: seq<Call>): (r: seq<Source>)
    ensures |r| == |calls|
  {
    seq(|calls|, i requires 0 <= i < |calls| =>
      Source(DriverIds(s, t, calls)[i],
             if calls[i].id in t.executions && t.executions[calls[i].id] in s.invocations then s.invocations[t.executions[calls[i].id]].completedSequence else 0,
             DriverMessages(k, s, t, calls)[i]))
  }

  /** The event that records what was made. */
  function RecordEvent(k: Env, s: State, turn: Id, calls: seq<Call>, made: Made, id: Id, at: int): Event
    requires turn in s.turns
  {
    Event(id, if s.session.Some? then s.session.value else "", s.current + 1, at,
          ToolsCompacted(turn, made.compaction, made.checkpoint, made.provenance, DriverSources(k, s, s.turns[turn], calls), made.replacement))
  }

  /** The last step of a turn has asked for tools, and each of its calls has its outcome. */
  ghost predicate Continues(k: Env, s: State, turn: Id, calls: seq<Call>) {
    && s.ending.None? && turn in s.turns && s.turns[turn].steps != []
    && var t := s.turns[turn]; var step := t.steps[|t.steps| - 1];
       AsksForTools(step) && AssembledCalls(k, step.events) == Some(calls) && Executed(s, t, calls)
  }

  function Durable(s: State, turn: Id, calls: seq<Call>): Option<ToolCompaction>
    requires turn in s.turns
  {
    FindToolCompaction(s.turns[turn].toolCompactions, DriverIds(s, s.turns[turn], calls))
  }

  /** The log once the driver has decided about compaction: a record is made when there is to be one
      and none is durable. */
  function Recorded(k: Env, log: seq<Event>, s: State, turn: Id, calls: seq<Call>, p: Policy, id: Id, at: int): seq<Event>
    requires turn in s.turns
  {
    if p.Compacts() && Durable(s, turn, calls).None? && p.made.Some? then log + [RecordEvent(k, s, turn, calls, p.made.value, id, at)] else log
  }

  /** The continuation the driver sends from the state it then reads. */
  function Sent(k: Env, s: State, turn: Id, calls: seq<Call>, p: Policy): Expected
    requires turn in s.turns && s.turns[turn].steps != [] && s.turns[turn].steps[|s.turns[turn].steps| - 1].terminal.Some?
  {
    var t := s.turns[turn];
    DriverContinuation(k, s, t, t.steps[|t.steps| - 1], calls, ChooseRecord(p, Durable(s, turn, calls), None))
  }

  /** The names the driver gives to a new step and its request. */
  datatype Names = Names(event: Id, step: Id, request: Id)

  ghost predicate FreshNames(s: State, turn: Id, n: Names)
    requires turn in s.turns
  {
    n.event !in s.seen && StepIndex(s.turns[turn].steps, n.step) < 0 && FreshRequest(s.turns[turn], n.request) && |n.request| <= MAX_IDENTIFIER
  }

  /** The event that starts the next step. */
  function StartEvent(k: Env, s: State, turn: Id, calls: seq<Call>, p: Policy, n: Names, at: int): Event
    requires turn in s.turns && s.turns[turn].steps != [] && s.turns[turn].steps[|s.turns[turn].steps| - 1].terminal.Some?
  {
    var t := s.turns[turn];
    var sent := Sent(k, s, turn, calls, p);
    Event(n.event, if s.session.Some? then s.session.value else "", s.current + 1, at,
          StepStarted(turn, n.step, t.steps[|t.steps| - 1].request.(id := n.request, messages := sent.messages), sent.sources))
  }

  lemma {:induction false} ExecutionsFound(k: Env, s: State, t: Turn, calls: seq<Call>)
    requires Executed(s, t, calls) && TurnLinked(s, t, s.seen)
    requires forall x :: x in s.invocations ==> (s.invocations[x].outcome.Some? <==> s.invocations[x].completedEvent.Some?)
    ensures var xs := ExecutionsOf(s, t, calls);
      && xs.Some? && OutcomeMessages(k, xs.value) == DriverMessages(k, s, t, calls) && CompletedIds(xs.value) == DriverIds(s, t, calls)
      && forall i :: 0 <= i < |calls| ==> xs.value[i] == s.invocations[t.executions[calls[i].id]]
    decreases |calls|
  {
    if calls != [] {
      var n := |calls| - 1;
      forall i | 0 <= i < n
        ensures calls[..n][i].id in t.executions && t.executions[calls[..n][i].id] in s.invocations
        ensures var x := s.invocations[t.executions[calls[..n][i].id]]; x.name == calls[..n][i].name && x.input == calls[..n][i].input && x.outcome.Some?
      {
        assert calls[..n][i] == calls[i];
      }
      ExecutionsFound(k, s, t, calls[..n]);
      assert calls[n].id in t.executions;
      var xs := ExecutionsOf(s, t, calls).value;
      forall i | 0 <= i < |calls| ensures xs[i] == s.invocations[t.executions[calls[i].id]] {
        if i < n { assert calls[..n][i] == calls[i]; }
      }
      forall i | 0 <= i < |calls|
        ensures OutcomeMessages(k, xs)[i] == DriverMessages(k, s, t, calls)[i] && CompletedIds(xs)[i] == DriverIds(s, t, calls)[i]
      {
        assert s.invocations[t.executions[calls[i].id]].call == calls[i].id;
      }
    }
  }

  /** A state of a stored log in which the turn continues. */
  ghost predicate Ready(k: Env, s: State, log: seq<Event>, turn: Id, calls: seq<Call>) {
    && Continues(k, s, turn, calls) && UniqueIds(log)
    && StateOk(s) && HeadOk(s, |log|) && Linked(s, s.seen) && Rows(s, log)
  }

  lemma StoredIsReady(k: Env, log: seq<Event>, turn: Id, calls: seq<Call>)
    requires Stored(k, log) && Continues(k, Replay(k, log).value, turn, calls)
    ensures Ready(k, Replay(k, log).value, log, turn, calls)
  {
    EveryStateOk(k, log);
    EveryStateLinked(k, log);
    EveryRow(k, log);
  }

  function LastStep(s: State, turn: Id): ModelStep
    requires turn in s.turns && s.turns[turn].steps != []
  {
    s.turns[turn].steps[|s.turns[turn].steps| - 1]
  }

  /** What such a state says. */
  lemma ContinuesFacts(k: Env, s: State, log: seq<Event>, turn: Id, calls: seq<Call>)
    requires Ready(k, s, log, turn, calls)
    ensures var t, step := s.turns[turn], LastStep(s, turn); var xs := ExecutionsOf(s, t, calls);
      && step.terminal.Some? && RequestOk(step.request) && Serves(s, step.request) && t.request.Some? && s.session.Some? && s.current > 0
      && xs.Some? && OutcomeMessages(k, xs.value) == DriverMessages(k, s, t, calls) && CompletedIds(xs.value) == DriverIds(s, t, calls)
      && DriverSources(k, s, t, calls) == OutcomeSources(k, xs.value)
  {
    var t := s.turns[turn];
    var step := LastStep(s, turn);
    assert TurnLinked(s, t, s.seen) && TurnOk(turn, t) && StepOk(step) && TurnRows(s, log, turn, t);
    AsksEnds(step);
    forall x | x in s.invocations ensures s.invocations[x].outcome.Some? <==> s.invocations[x].completedEvent.Some? {
      assert ExecutionOk(s, x, s.invocations[x]);
    }
    ExecutionsFound(k, s, t, calls);
    SameSources(k, s, t, calls);
  }

  lemma SameSources(k: Env, s: State, t: Turn, calls: seq<Call>)
    requires Executed(s, t, calls)
    requires var xs := ExecutionsOf(s, t, calls);
      && xs.Some? && OutcomeMessages(k, xs.value) == DriverMessages(k, s, t, calls) && CompletedIds(xs.value) == DriverIds(s, t, calls)
      && forall i :: 0 <= i < |calls| ==> xs.value[i] == s.invocations[t.executions[calls[i].id]]
    ensures DriverSources(k, s, t, calls) == OutcomeSources(k, ExecutionsOf(s, t, calls).value)
  {
    var xs := ExecutionsOf(s, t, calls).value;
    forall i | 0 <= i < |calls| ensures DriverSources(k, s, t, calls)[i] == OutcomeSources(k, xs)[i] {
      assert OutcomeMessages(k, xs)[i] == DriverMessages(k, s, t, calls)[i] && CompletedIds(xs)[i] == DriverIds(s, t, calls)[i];
    }
  }

  /** The ids that a continuation points to are of different rows. */
  lemma SourcesDiffer(k: Env, s: State, log: seq<Event>, turn: Id, calls: seq<Call>)
    requires Ready(k, s, log, turn, calls) && LastStep(s, turn).terminal.Some?
    ensures var t, ids := s.turns[turn], DriverIds(s, s.turns[turn], calls);
      && Distinct([LastStep(s, turn).terminal.value] + ids)
      && forall i :: 0 <= i < |t.toolCompactions| ==>
           t.toolCompactions[i].event !in ids && t.toolCompactions[i].event != LastStep(s, turn).terminal.value
  {
    var t, end := s.turns[turn], LastStep(s, turn).terminal.value;
    assert TurnRows(s, log, turn, t) && StreamRow(log, end);
    forall x | x in s.invocations ensures ExecutionOk(s, x, s.invocations[x]) { }
    CallsDistinct(k, LastStep(s, turn).events);
    IdsDiffer(s, log, t, calls, end);
    forall i | 0 <= i < |t.toolCompactions|
      ensures t.toolCompactions[i].event !in DriverIds(s, t, calls) && t.toolCompactions[i].event != end
    {
      RowsApart(log, end, t.toolCompactions[i].event, "", "");
      NotCompleted(s, log, t, calls, t.toolCompactions[i].event);
    }
  }

  lemma IdsDiffer(s: State, log: seq<Event>, t: Turn, calls: seq<Call>, end: Id)
    requires Executed(s, t, calls) && ToolRows(s, log) && UniqueIds(log) && StreamRow(log, end)
    requires forall x :: x in s.invocations ==> ExecutionOk(s, x, s.invocations[x])
    requires forall c :: c in t.executions ==> t.executions[c] in s.invocations && s.invocations[t.executions[c]].call == c
    requires forall i, j :: 0 <= i < j < |calls| ==> calls[i].id != calls[j].id
    ensures Distinct([end] + DriverIds(s, t, calls))
  {
    var ids := DriverIds(s, t, calls);
    forall i | 0 <= i < |ids| ensures end != ids[i] {
      CompletedHere(s, log, t, calls, i);
      RowsApart(log, end, ids[i], t.executions[calls[i].id], "");
    }
    forall i, j | 0 <= i < j < |ids| ensures ids[i] != ids[j] {
      CompletedHere(s, log, t, calls, i);
      CompletedHere(s, log, t, calls, j);
      RowsApart(log, ids[i], ids[j], t.executions[calls[i].id], t.executions[calls[j].id]);
    }
  }

  lemma NotCompleted(s: State, log: seq<Event>, t: Turn, calls: seq<Call>, c: Id)
    requires Executed(s, t, calls) && ToolRows(s, log) && UniqueIds(log) && CompactionRow(log, c)
    requires forall x :: x in s.invocations ==> ExecutionOk(s, x, s.invocations[x])
    ensures c !in DriverIds(s, t, calls)
  {
    forall j | 0 <= j < |calls| ensures DriverIds(s, t, calls)[j] != c {
      CompletedHere(s, log, t, calls, j);
      RowsApart(log, c, DriverIds(s, t, calls)[j], t.executions[calls[j].id], "");
    }
  }

  lemma CompletedHere(s: State, log: seq<Event>, t: Turn, calls: seq<Call>, i: nat)
    requires i < |calls| && Executed(s, t, calls) && ToolRows(s, log)
    requires forall x :: x in s.invocations ==> ExecutionOk(s, x, s.invocations[x])
    ensures CompletedRow(log, DriverIds(s, t, calls)[i], t.executions[calls[i].id])
  {
    assert ExecutionOk(s, t.executions[calls[i].id], s.invocations[t.executions[calls[i].id]]);
  }

  lemma {:induction false} CallsDistinct(k: Env, events: seq<ModelEvent>)
    requires AssembledCalls(k, events).Some?
    ensures forall i, j :: 0 <= i < j < |AssembledCalls(k, events).value| ==> AssembledCalls(k, events).value[i].id != AssembledCalls(k, events).value[j].id
  {
    GatherDistinct(events);
  }

  lemma {:induction false} GatherDistinct(events: seq<ModelEvent>)
    requires GatherAll(events).Some?
    ensures forall i, j :: 0 <= i < j < |GatherAll(events).value| ==> GatherAll(events).value[i].id != GatherAll(events).value[j].id
    decreases |events|
  {
    if events != [] { GatherDistinct(events[..|events| - 1]); }
  }

  lemma MatchesIff(k: Env, s: State, log: seq<Event>, turn: Id, calls: seq<Call>, p: Policy)
    requires Ready(k, s, log, turn, calls)
    ensures LastStep(s, turn).terminal.Some?
    ensures Continuation(k, s, s.turns[turn], LastStep(s, turn)) == Some(Sent(k, s, turn, calls, p)) <==> p.Compacts() || Durable(s, turn, calls).None?
    ensures Distinct(Sent(k, s, turn, calls, p).sources)
  {
    ContinuesFacts(k, s, log, turn, calls);
    SourcesDiffer(k, s, log, turn, calls);
    FoundIsThere(s.turns[turn].toolCompactions, DriverIds(s, s.turns[turn], calls));
    MatchIff(k, s, s.turns[turn], LastStep(s, turn), calls, ChooseRecord(p, Durable(s, turn, calls), None));
  }

  /** The driver's continuation is the fold's exactly when it compacts, or nothing is compacted yet for
      these outcomes.  It differs when a record is durable and the profile or the assessment of
      pressure is not what it was when the record was made. */
  lemma DriverMatchesFoldIff(k: Env, log: seq<Event>, turn: Id, calls: seq<Call>, p: Policy)
    requires Stored(k, log) && Continues(k, Replay(k, log).value, turn, calls)
    ensures var s := Replay(k, log).value;
      && LastStep(s, turn).terminal.Some?
      && (Continuation(k, s, s.turns[turn], LastStep(s, turn)) == Some(Sent(k, s, turn, calls, p)) <==>
            p.Compacts() || Durable(s, turn, calls).None?)
  {
    StoredIsReady(k, log, turn, calls);
    MatchesIff(k, Replay(k, log).value, log, turn, calls, p);
  }

  /** What the log holds once the driver has decided about compaction. */
  lemma {:induction false} AfterRecord(k: Env, log: seq<Event>, turn: Id, calls: seq<Call>, p: Policy, id: Id, at: int)
    requires Stored(k, log) && Continues(k, Replay(k, log).value, turn, calls)
    requires Stored(k, Recorded(k, log, Replay(k, log).value, turn, calls, p, id, at))
    ensures var s, more := Replay(k, log).value, Recorded(k, log, Replay(k, log).value, turn, calls, p, id, at);
      var z := Replay(k, more).value;
      && Continues(k, z, turn, calls) && z.turns[turn].steps == s.turns[turn].steps
      && (if more == log then Durable(z, turn, calls) == Durable(s, turn, calls)
          else Durable(z, turn, calls) == Some(ToolCompaction(id, DriverSources(k, s, s.turns[turn], calls), p.made.value.replacement)))
  {
    var s, more := Replay(k, log).value, Recorded(k, log, Replay(k, log).value, turn, calls, p, id, at);
    if more != log {
      var e := RecordEvent(k, s, turn, calls, p.made.value, id, at);
      ReplayPush(k, log, e);
      RecordApplies(k, s, turn, calls, e);
    }
  }

  lemma RecordApplies(k: Env, s: State, turn: Id, calls: seq<Call>, e: Event)
    requires Continues(k, s, turn, calls) && Durable(s, turn, calls).None? && Apply(k, s, e).Ok?
    requires e.body.ToolsCompacted? && e.body.turn == turn && e.body.results == DriverSources(k, s, s.turns[turn], calls)
    ensures var z := Apply(k, s, e).value;
      && Continues(k, z, turn, calls) && z.turns[turn].steps == s.turns[turn].steps
      && Durable(z, turn, calls) == Some(ToolCompaction(e.id, e.body.results, e.body.replacement))
  {
    ToolsCompactedIs(k, Enter(s, e), e);
    var z, t := Apply(k, s, e).value, s.turns[turn];
    var c := ToolCompaction(e.id, e.body.results, e.body.replacement);
    assert z.turns[turn] == WithCompaction(t, c) && z.invocations == s.invocations;
    assert DriverIds(z, z.turns[turn], calls) == DriverIds(s, t, calls);
    assert SourceIds(c.sources) == DriverIds(s, t, calls);
    FindLast(t.toolCompactions, c, DriverIds(s, t, calls));
  }

  lemma {:induction false} FindLast(cs: seq<ToolCompaction>, c: ToolCompaction, ids: seq<Id>)
    requires FindToolCompaction(cs, ids).None? && SourceIds(c.sources) == ids
    ensures FindToolCompaction(cs + [c], ids) == Some(c)
  {
    if cs != [] {
      FindLast(cs[1..], c, ids);
      assert (cs + [c])[1..] == cs[1..] + [c];
    }
  }

  /** The next step the driver starts, after it has recorded what it compacted, is taken by the ledger
      exactly when the driver compacts or no compaction of these outcomes was durable before. */
  lemma {:induction false} DriverStepTakenIff(k: Env, log: seq<Event>, turn: Id, calls: seq<Call>, p: Policy, id: Id, n: Names, at: int)
    requires Stored(k, log) && Continues(k, Replay(k, log).value, turn, calls)
    requires var more := Recorded(k, log, Replay(k, log).value, turn, calls, p, id, at);
      Stored(k, more) && turn in Replay(k, more).value.turns && FreshNames(Replay(k, more).value, turn, n)
    ensures var s, more := Replay(k, log).value, Recorded(k, log, Replay(k, log).value, turn, calls, p, id, at);
      var z := Replay(k, more).value;
      && Continues(k, z, turn, calls) && z.turns[turn].steps[|z.turns[turn].steps| - 1].terminal.Some?
      && (Stored(k, more + [StartEvent(k, z, turn, calls, p, n, at)]) <==> p.Compacts() || Durable(s, turn, calls).None?)
  {
    AfterRecord(k, log, turn, calls, p, id, at);
    StepTakenIff(k, Recorded(k, log, Replay(k, log).value, turn, calls, p, id, at), turn, calls, p, n, at);
  }

  /** While the profile stays and the assessment repeats, what was compacted once is compacted again,
      and every step the driver starts is taken. */
  lemma RepeatedAssessmentTaken(k: Env, log: seq<Event>, turn: Id, calls: seq<Call>, p: Policy, id: Id, n: Names, at: int)
    requires Stored(k, log) && Continues(k, Replay(k, log).value, turn, calls)
    requires Durable(Replay(k, log).value, turn, calls).Some? ==> p.Compacts()
    requires var more := Recorded(k, log, Replay(k, log).value, turn, calls, p, id, at);
      Stored(k, more) && turn in Replay(k, more).value.turns && FreshNames(Replay(k, more).value, turn, n)
    ensures var more := Recorded(k, log, Replay(k, log).value, turn, calls, p, id, at); var z := Replay(k, more).value;
      && Continues(k, z, turn, calls) && LastStep(z, turn).terminal.Some?
      && Stored(k, more + [StartEvent(k, z, turn, calls, p, n, at)])
  {
    DriverStepTakenIff(k, log, turn, calls, p, id, n, at);
  }

  lemma {:induction false} StepTakenIff(k: Env, log: seq<Event>, turn: Id, calls: seq<Call>, p: Policy, n: Names, at: int)
    requires Stored(k, log) && Continues(k, Replay(k, log).value, turn, calls) && FreshNames(Replay(k, log).value, turn, n)
    ensures var s := Replay(k, log).value;
      && LastStep(s, turn).terminal.Some?
      && (Stored(k, log + [StartEvent(k, s, turn, calls, p, n, at)]) <==> p.Compacts() || Durable(s, turn, calls).None?)
  {
    var s := Replay(k, log).value;
    StoredIsReady(k, log, turn, calls);
    MatchesIff(k, s, log, turn, calls, p);
    var e := StartEvent(k, s, turn, calls, p, n, at);
    StoredPush(k, log, e);
    StartsIff(k, s, log, turn, calls, p, n, at);
  }

  lemma {:induction false} StartsIff(k: Env, s: State, log: seq<Event>, turn: Id, calls: seq<Call>, p: Policy, n: Names, at: int)
    requires Ready(k, s, log, turn, calls) && FreshNames(s, turn, n) && LastStep(s, turn).terminal.Some?
    ensures Apply(k, s, StartEvent(k, s, turn, calls, p, n, at)).Ok? <==> p.Compacts() || Durable(s, turn, calls).None?
  {
    MatchesIff(k, s, log, turn, calls, p);
    ContinuesFacts(k, s, log, turn, calls);
    var e := StartEvent(k, s, turn, calls, p, n, at);
    if p.Compacts() || Durable(s, turn, calls).None? {
      ContinuationExtends(k, s, s.turns[turn], LastStep(s, turn));
      assert TurnLinked(s, s.turns[turn], s.seen);
      SourcesSeen(k, s, s.turns[turn], LastStep(s, turn));
      StartTaken(k, s, e);
    } else {
      StartRefused(k, s, e);
    }
  }

  /** A step whose request is not the continuation is refused. */
  lemma StartRefused(k: Env, s: State, e: Event)
    requires e.body.StepStarted? && e.body.turn in s.turns && s.turns[e.body.turn].steps != []
    requires var t := s.turns[e.body.turn];
      Continuation(k, s, t, t.steps[|t.steps| - 1]) != Some(Expected(e.body.request.messages, e.body.sources))
    ensures Apply(k, s, e).Err?
  {
    var t := s.turns[e.body.turn];
    SameContinuation(k, s, Enter(s, e), t, t.steps[|t.steps| - 1]);
  }

  lemma {:induction false} FoundIsThere(cs: seq<ToolCompaction>, ids: seq<Id>)
    ensures var f := FindToolCompaction(cs, ids);
      (f.Some? ==> f.value in cs && SourceIds(f.value.sources) == ids) && (f.None? ==> forall i :: 0 <= i < |cs| ==> SourceIds(cs[i].sources) != ids)
  {
    if cs != [] && SourceIds(cs[0].sources) != ids { FoundIsThere(cs[1..], ids); }
  }

  lemma TailDiffers(head: seq<Msg>, a: seq<Msg>, b: seq<Msg>)
    ensures head + a == head + b <==> a == b
  {
    if head + a == head + b {
      assert a == (head + a)[|head|..] && b == (head + b)[|head|..];
    }
  }

  lemma MatchIff(k: Env, s: State, t: Turn, step: ModelStep, calls: seq<Call>, record: Option<ToolCompaction>)
    requires step.terminal.Some? && AssembledCalls(k, step.events) == Some(calls)
    requires var xs := ExecutionsOf(s, t, calls);
      xs.Some? && OutcomeMessages(k, xs.value) == DriverMessages(k, s, t, calls) && CompletedIds(xs.value) == DriverIds(s, t, calls)
    requires forall i :: 0 <= i < |t.toolCompactions| ==> t.toolCompactions[i].event !in DriverIds(s, t, calls)
    requires record.Some? ==> record.value in t.toolCompactions && SourceIds(record.value.sources) == DriverIds(s, t, calls)
    ensures var durable := FindToolCompaction(t.toolCompactions, DriverIds(s, t, calls));
      Continuation(k, s, t, step) == Some(DriverContinuation(k, s, t, step, calls, record)) <==>
        if record.Some? then durable.Some? && durable.value.event == record.value.event && durable.value.replacement == record.value.replacement
        else durable.None?
  {
    var ids := DriverIds(s, t, calls);
    FoundIsThere(t.toolCompactions, ids);
    var durable := FindToolCompaction(t.toolCompactions, ids);
    var head := step.request.messages + [Calls(ContentOf(step.events), calls)];
    var fold, driver := Continuation(k, s, t, step).value, DriverContinuation(k, s, t, step, calls, record);
    if record.Some? {
      assert durable.Some?;
      TailDiffers(head, durable.value.replacement, record.value.replacement);
      assert fold.sources == [step.terminal.value] + [durable.value.event] == [step.terminal.value, durable.value.event];
      assert fold.sources[1] == durable.value.event && driver.sources[1] == record.value.event;
    } else if durable.Some? {
      assert fold.sources == [step.terminal.value] + [durable.value.event] && driver.sources == [step.terminal.value] + ids;
      assert durable.value.event !in ids && durable.value.event in [durable.value.event];
      assert ([step.terminal.value] + ids)[1..] == ids && ([step.terminal.value] + [durable.value.event])[1..] == [durable.value.event];
    }
  }

  /** A continuation that says what the fold expects is taken, under new ids and with distinct
      sources; the fold has seen every event it points to. */
  lemma ContinuationTaken(k: Env, log: seq<Event>, e: Event)
    requires Accepted(k, log) && e.body.StepStarted? && e.body.turn in Replay(k, log).value.turns
    requires var s := Replay(k, log).value; var t := s.turns[e.body.turn];
      && e.sequence == s.current + 1 && Some(e.session) == s.session && s.ending.None? && s.spec.Some?
      && t.steps != [] && AsksForTools(t.steps[|t.steps| - 1])
    requires var s := Replay(k, log).value; var t := s.turns[e.body.turn]; var step := t.steps[|t.steps| - 1];
      var next := Continuation(k, s, t, step);
      && next.Some? && Distinct(next.value.sources) && e.body.sources == next.value.sources
      && e.body.request == step.request.(id := e.body.request.id, messages := next.value.messages)
      && |e.body.request.id| <= MAX_IDENTIFIER && StepIndex(t.steps, e.body.step) < 0 && FreshRequest(t, e.body.request.id)
      && step.request.provider == s.spec.value.provider && step.request.model == s.spec.value.model
    ensures Accepted(k, log + [e])
  {
    EveryStateOk(k, log);
    EveryStateLinked(k, log);
    var s := Replay(k, log).value;
    var t := s.turns[e.body.turn];
    assert TurnOk(e.body.turn, t) && TurnLinked(s, t, s.seen) && StepOk(t.steps[|t.steps| - 1]);
    ContinuationExtends(k, s, t, t.steps[|t.steps| - 1]);
    SourcesSeen(k, s, t, t.steps[|t.steps| - 1]);
    StartTaken(k, s, e);
    ReplayPush(k, log, e);
  }

  lemma StartTaken(k: Env, s: State, e: Event)
    requires e.body.StepStarted? && e.body.turn in s.turns
    requires e.sequence == s.current + 1 && s.current > 0 && Some(e.session) == s.session && s.ending.None? && s.spec.Some?
    requires var t := s.turns[e.body.turn];
      && t.request.Some? && t.steps != [] && AsksForTools(t.steps[|t.steps| - 1]) && RequestOk(t.steps[|t.steps| - 1].request)
    requires var t := s.turns[e.body.turn]; var step := t.steps[|t.steps| - 1];
      var next := Continuation(k, s, t, step);
      && next.Some? && Distinct(next.value.sources) && e.body.sources == next.value.sources != []
      && (forall i :: 0 <= i < |next.value.sources| ==> next.value.sources[i] in s.seen)
      && e.body.request == step.request.(id := e.body.request.id, messages := next.value.messages)
      && |e.body.request.id| <= MAX_IDENTIFIER && StepIndex(t.steps, e.body.step) < 0 && FreshRequest(t, e.body.request.id)
      && step.request.provider == s.spec.value.provider && step.request.model == s.spec.value.model
    ensures Apply(k, s, e).Ok?
  {
    var t := s.turns[e.body.turn];
    SameContinuation(k, s, Enter(s, e), t, t.steps[|t.steps| - 1]);
    assert ApplyStepStarted(k, Enter(s, e), e) == Some(StartStep(Enter(s, e), e, t));
    AppliesStart(k, s, e);
  }

  lemma {:induction false} SameExecutions(s: State, z: State, t: Turn, calls: seq<Call>)
    requires z.invocations == s.invocations
    ensures ExecutionsOf(z, t, calls) == ExecutionsOf(s, t, calls)
  {
    if calls != [] { SameExecutions(s, z, t, calls[..|calls| - 1]); }
  }

  lemma SameContinuation(k: Env, s: State, z: State, t: Turn, step: ModelStep)
    requires z.invocations == s.invocations
    ensures Continuation(k, z, t, step) == Continuation(k, s, t, step)
  {
    var calls := AssembledCalls(k, step.events);
    if calls.Some? { SameExecutions(s, z, t, calls.value); }
  }

  lemma {:induction false} ExecutionsSeen(s: State, t: Turn, calls: seq<Call>)
    requires Linked(s, s.seen) && ExecutionsOf(s, t, calls).Some?
    ensures forall i :: 0 <= i < |calls| ==> CompletedIds(ExecutionsOf(s, t, calls).value)[i] in s.seen
  {
    if calls != [] {
      var n := |calls| - 1;
      ExecutionsSeen(s, t, calls[..n]);
      var xs, rest := ExecutionsOf(s, t, calls).value, ExecutionsOf(s, t, calls[..n]).value;
      forall i | 0 <= i < |calls| ensures CompletedIds(xs)[i] in s.seen {
        if i < n { assert xs[i] == rest[i] && CompletedIds(rest)[i] in s.seen; }
      }
    }
  }

  lemma SourcesSeen(k: Env, s: State, t: Turn, step: ModelStep)
    requires Linked(s, s.seen) && TurnLinked(s, t, s.seen) && Continuation(k, s, t, step).Some?
    requires step.terminal.Some? ==> step.terminal.value in s.seen
    ensures forall i :: 0 <= i < |Continuation(k, s, t, step).value.sources| ==> Continuation(k, s, t, step).value.sources[i] in s.seen
  {
    var calls := AssembledCalls(k, step.events).value;
    ExecutionsSeen(s, t, calls);
    var ids := CompletedIds(ExecutionsOf(s, t, calls).value);
    FoundIsThere(t.toolCompactions, ids);
  }

  lemma AppliesStart(k: Env, s: State, e: Event)
    requires s.ending.None? && e.body.StepStarted? && e.sequence == s.current + 1 && Some(e.session) == s.session && e.sequence > 1
    ensures Apply(k, s, e) == match ApplyStepStarted(k, Enter(s, e), e)
      case Some(t) => Ok(t.(seen := t.seen + {e.id}))
      case None => Err(Refused)
  {
  }
}
