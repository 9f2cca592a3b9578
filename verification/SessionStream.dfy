/** What every accepted session log keeps: the stream bounds of its model steps, and how the steps of
    a turn continue one another. */
module SessionStream {
  import opened Outcomes
  import opened SessionFold

  // ---------------------------------------------------------------- one step's stream

  function Joined(events: seq<ModelEvent>): string {
    if events == [] then ""
    else
      var n := |events| - 1;
      if n == 0 then events[0].text else Joined(events[..n]) + "," + events[n].text
  }

  /** The canonical JSON array of a step's events. */
  function ArrayText(events: seq<ModelEvent>): string { "[" + Joined(events) + "]" }

  ghost predicate StepOk(step: ModelStep) {
    && RequestOk(step.request)
    && step.bytes == |ArrayText(step.events)|
    && |step.eventIds| == |step.events| <= MAX_MODEL_EVENTS_PER_STEP
    && step.bytes <= MAX_MODEL_STREAM_BYTES_PER_STEP
    && (forall i :: 0 <= i < |step.events| ==>
          && step.events[i].sequence == i && step.events[i].request == step.request.id && step.events[i].provider == step.request.provider
          && (Ends(step.events[i]) ==> i == |step.events| - 1))
    && (!HasEnd(step.events) ==>
          && step.terminal.None? && |step.events| < MAX_MODEL_EVENTS_PER_STEP
          && step.bytes <= MAX_MODEL_STREAM_BYTES_PER_STEP - MODEL_TERMINAL_RESERVE_BYTES)
    && (HasEnd(step.events) ==> step.events != [] && step.terminal == Some(step.eventIds[|step.events| - 1]))
  }

  lemma JoinedPush(events: seq<ModelEvent>, m: ModelEvent)
    ensures |ArrayText(events + [m])| == |ArrayText(events)| + (if events == [] then 0 else 1) + |m.text|
  {
    assert (events + [m])[..|events|] == events;
  }

  /** An event the fold takes keeps the step in its bounds, and its byte count exact. */
  lemma PushKeepsStep(step: ModelStep, m: ModelEvent, id: Id)
    requires StepOk(step) && !HasEnd(step.events) && InBounds(step, m)
    requires m.request == step.request.id && m.provider == step.request.provider && m.sequence == |step.events|
    ensures StepOk(PushEvent(step, m, id)) && (HasEnd(PushEvent(step, m, id).events) <==> Ends(m))
  {
    JoinedPush(step.events, m);
    var next := PushEvent(step, m, id);
    assert next.events[|step.events|] == m;
    assert forall i :: 0 <= i < |step.events| ==> next.events[i] == step.events[i] && !Ends(step.events[i]);
  }

  lemma FreshStepOk(id: Id, r: Request, event: Id, sources: seq<Id>)
    requires RequestOk(r)
    ensures StepOk(ModelStep(id, r, event, sources, [], [], 2, None))
  {
  }

  // ---------------------------------------------------------------- one turn

  /** Each step after the first continues a step that asked for tools, and says everything that step
      said before. */
  ghost predicate ChainOk(t: Turn) {
    && (t.steps != [] ==> t.request.Some? && t.steps[0].request == t.request.value)
    && (forall i :: 0 < i < |t.steps| ==> Follows(t.steps[i - 1], t.steps[i]))
    && (forall i, j :: 0 <= i < j < |t.steps| ==> t.steps[i].id != t.steps[j].id && t.steps[i].request.id != t.steps[j].request.id)
  }

  ghost predicate Follows(previous: ModelStep, next: ModelStep) {
    && AsksForTools(previous)
    && |previous.request.messages| < |next.request.messages|
    && next.request.messages[..|previous.request.messages|] == previous.request.messages
    && next.request.(id := previous.request.id, messages := previous.request.messages) == previous.request
    && previous.terminal.Some? && previous.terminal.value in next.sources
  }

  ghost predicate TurnOk(id: Id, t: Turn) {
    && t.id == id && ChainOk(t)
    && (forall i :: 0 <= i < |t.steps| ==> StepOk(t.steps[i]))
    && (t.events != [] ==> t.request.Some?)
    && (t.request.Some? ==> RequestOk(t.request.value))
    && |t.eventIds| == |t.events| == |t.eventSequences|
  }

  ghost predicate ExecutionOk(s: State, id: Id, x: Execution) {
    && x.invocation == id && x.turn in s.turns
    && (x.outcome.Some? <==> x.completedEvent.Some?)
  }

  ghost predicate StateOk(s: State) {
    && (forall t :: t in s.turns ==> TurnOk(t, s.turns[t]))
    && (forall x :: x in s.invocations ==> ExecutionOk(s, x, s.invocations[x]))
    && (forall t :: t in s.order <==> t in s.turns)
  }

  ghost predicate SameHead(s: State, t: State) {
    t.session == s.session && t.current == s.current && t.seen == s.seen && t.spec == s.spec && t.ending == s.ending
  }

  /** Turns, executions and compactions are as they were. */
  ghost predicate SameWork(s: State, t: State) {
    t.turns == s.turns && t.invocations == s.invocations && t.order == s.order && t.compactions == s.compactions
  }

  lemma TurnStays(s: State, id: Id, t: Turn)
    requires StateOk(s) && id in s.turns && TurnOk(id, t)
    ensures StateOk(s.(turns := s.turns[id := t]))
  {
    var z := s.(turns := s.turns[id := t]);
    forall x | x in z.invocations ensures ExecutionOk(z, x, z.invocations[x]) {
      assert ExecutionOk(s, x, s.invocations[x]);
    }
  }

  lemma TurnStartedKeeps(s: State, e: Event)
    requires StateOk(s) && e.body.TurnStarted? && ApplyTurnStarted(s, e).Some?
    ensures StateOk(ApplyTurnStarted(s, e).value)
  {
    var z := ApplyTurnStarted(s, e).value;
    assert TurnOk(e.body.turn, z.turns[e.body.turn]);
    forall x | x in z.invocations ensures ExecutionOk(z, x, z.invocations[x]) {
      assert ExecutionOk(s, x, s.invocations[x]);
    }
  }

  lemma AssembledKeeps(k: Env, s: State, e: Event)
    requires StateOk(s) && e.body.Assembled? && ApplyAssembled(k, s, e).Some?
    ensures StateOk(ApplyAssembled(k, s, e).value)
  {
    var t := s.turns[e.body.turn];
    assert TurnOk(e.body.turn, t);
    var next := t.(request := Some(e.body.request), requestEvent := e.id, budget := e.body.budget);
    TurnStays(s, e.body.turn, next);
  }

  lemma ContinuationExtends(k: Env, s: State, t: Turn, previous: ModelStep)
    requires Continuation(k, s, t, previous).Some?
    ensures var next := Continuation(k, s, t, previous).value;
      && |previous.request.messages| < |next.messages| && next.messages[..|previous.request.messages|] == previous.request.messages
      && previous.terminal.Some? && next.sources != [] && next.sources[0] == previous.terminal.value
  {
  }

  lemma StartKeepsChain(t: Turn, step: ModelStep)
    requires ChainOk(t) && t.request.Some? && StepIndex(t.steps, step.id) < 0 && FreshRequest(t, step.request.id)
    requires if t.steps == [] then step.request == t.request.value else Follows(t.steps[|t.steps| - 1], step)
    ensures ChainOk(t.(steps := t.steps + [step]))
  {
    var next := t.(steps := t.steps + [step]);
    forall i | 0 < i < |next.steps| ensures Follows(next.steps[i - 1], next.steps[i]) {
      if i < |t.steps| { assert Follows(t.steps[i - 1], t.steps[i]); }
    }
  }

  lemma StartKeepsTurn(s: State, e: Event, t: Turn, step: ModelStep)
    requires StateOk(s) && e.body.StepStarted? && e.body.turn in s.turns && t == s.turns[e.body.turn]
    requires step == ModelStep(e.body.step, e.body.request, e.id, e.body.sources, [], [], 2, None)
    requires RequestOk(step.request) && ChainOk(t.(steps := t.steps + [step]))
    ensures StateOk(StartStep(s, e, t))
  {
    assert TurnOk(e.body.turn, t);
    FreshStepOk(e.body.step, e.body.request, e.id, e.body.sources);
    TurnStays(s, e.body.turn, t.(steps := t.steps + [step]));
  }

  lemma StepStartedKeeps(k: Env, s: State, e: Event)
    requires StateOk(s) && e.body.StepStarted? && ApplyStepStarted(k, s, e).Some?
    ensures StateOk(ApplyStepStarted(k, s, e).value)
  {
    var t := s.turns[e.body.turn];
    assert TurnOk(e.body.turn, t);
    var step := ModelStep(e.body.step, e.body.request, e.id, e.body.sources, [], [], 2, None);
    if t.steps != [] { ContinuationExtends(k, s, t, t.steps[|t.steps| - 1]); }
    StartKeepsChain(t, step);
    StartKeepsTurn(s, e, t, step);
  }

  lemma StreamedKeeps(s: State, e: Event)
    requires StateOk(s) && e.body.Streamed? && ApplyStreamed(s, e).Some?
    ensures StateOk(ApplyStreamed(s, e).value)
  {
    var b := e.body;
    var t := s.turns[b.turn];
    assert TurnOk(b.turn, t);
    match b.target
    case None => TurnStays(s, b.turn, RecordStream(t, e));
    case Some(id) =>
      var i := StepIndex(t.steps, id);
      PushKeepsStep(t.steps[i], b.event, e.id);
      var next := RecordStream(t, e).(steps := t.steps[i := PushEvent(t.steps[i], b.event, e.id)]);
      StreamKeepsChain(t, i, b.event, e.id);
      assert TurnOk(b.turn, next);
      TurnStays(s, b.turn, next);
  }

  lemma AsksEnds(step: ModelStep)
    ensures AsksForTools(step) ==> HasEnd(step.events)
  {
    assert AsksForTools(step) ==> Ends(step.events[|step.events| - 1]);
  }

  /** Only an open step takes events, and only the last step of a turn is open. */
  lemma StreamKeepsChain(t: Turn, i: nat, m: ModelEvent, id: Id)
    requires ChainOk(t) && i < |t.steps| && !HasEnd(t.steps[i].events)
    ensures ChainOk(t.(steps := t.steps[i := PushEvent(t.steps[i], m, id)])) && i == |t.steps| - 1
  {
    AsksEnds(t.steps[i]);
    assert i < |t.steps| - 1 ==> Follows(t.steps[i + 1 - 1], t.steps[i + 1]);
    var next := t.(steps := t.steps[i := PushEvent(t.steps[i], m, id)]);
    forall j | 0 < j < |next.steps| ensures Follows(next.steps[j - 1], next.steps[j]) {
      assert Follows(t.steps[j - 1], t.steps[j]);
    }
  }

  lemma ToolStartedKeeps(k: Env, s: State, e: Event)
    requires StateOk(s) && e.body.ToolStarted? && ApplyToolStarted(k, s, e).Some?
    ensures StateOk(ApplyToolStarted(k, s, e).value)
  {
    var z := ApplyToolStarted(k, s, e).value;
    var t := s.turns[e.body.turn];
    assert TurnOk(e.body.turn, t);
    TurnStays(s, e.body.turn, t.(executions := t.executions[e.body.call := e.body.invocation]));
    forall x | x in z.invocations ensures ExecutionOk(z, x, z.invocations[x]) {
      if x != e.body.invocation { assert ExecutionOk(s, x, s.invocations[x]); }
    }
  }

  lemma ExecutionStays(s: State, id: Id, x: Execution)
    requires StateOk(s) && ExecutionOk(s, id, x)
    ensures StateOk(s.(invocations := s.invocations[id := x]))
  {
    var z := s.(invocations := s.invocations[id := x]);
    forall y | y in z.invocations ensures ExecutionOk(z, y, z.invocations[y]) {
      if y != id { assert ExecutionOk(s, y, s.invocations[y]); }
    }
  }

  lemma ToolCompletedKeeps(s: State, e: Event)
    requires StateOk(s) && e.body.ToolCompleted? && ApplyToolCompleted(s, e).Some?
    ensures StateOk(ApplyToolCompleted(s, e).value)
  {
    var o := e.body.outcome;
    var t, x := s.turns[e.body.turn], s.invocations[o.invocation];
    assert TurnOk(e.body.turn, t) && ExecutionOk(s, o.invocation, x);
    var mid := s.(turns := s.turns[e.body.turn := t.(executions := t.executions[x.call := x.invocation])]);
    TurnStays(s, e.body.turn, t.(executions := t.executions[x.call := x.invocation]));
    ExecutionStays(mid, x.invocation, x.(outcome := Some(o), completedEvent := Some(e.id), completedSequence := e.sequence));
  }

  lemma ContextCompactedKeeps(k: Env, s: State, e: Event)
    requires StateOk(s) && e.body.ContextCompacted? && ApplyContextCompacted(k, s, e).Some?
    ensures StateOk(ApplyContextCompacted(k, s, e).value)
  {
    var t := s.turns[e.body.turn];
    assert TurnOk(e.body.turn, t);
    var next := t.(contextCompaction := Some(ContextCompaction(e.id, e.body.provenance, e.body.record)));
    assert TurnOk(e.body.turn, next);
    TurnStays(s, e.body.turn, next);
  }

  lemma ToolsCompactedKeeps(k: Env, s: State, e: Event)
    requires StateOk(s) && e.body.ToolsCompacted? && ApplyToolsCompacted(k, s, e).Some?
    ensures StateOk(ApplyToolsCompacted(k, s, e).value)
  {
    var t := s.turns[e.body.turn];
    assert TurnOk(e.body.turn, t);
    var next := t.(toolCompactions := t.toolCompactions + [ToolCompaction(e.id, e.body.results, e.body.replacement)]);
    assert TurnOk(e.body.turn, next);
    TurnStays(s, e.body.turn, next);
  }

  /** All other events leave turns and executions alone. */
  predicate Aside(b: Body) {
    !(b.TurnStarted? || b.Assembled? || b.StepStarted? || b.Streamed? || b.ToolStarted? || b.ToolCompleted? || b.ContextCompacted? || b.ToolsCompacted?)
  }

  lemma WorkflowKeeps(s: State, e: Event)
    ensures e.body.Reserved? && ApplyReserved(s, e).Some? ==> SameWork(s, ApplyReserved(s, e).value) && SameHead(s, ApplyReserved(s, e).value)
    ensures e.body.Reclaimed? && ApplyReclaimed(s, e).Some? ==> SameWork(s, ApplyReclaimed(s, e).value) && SameHead(s, ApplyReclaimed(s, e).value)
    ensures e.body.Released? && ApplyReleased(s, e).Some? ==> SameWork(s, ApplyReleased(s, e).value) && SameHead(s, ApplyReleased(s, e).value)
  {
  }

  lemma PhaseKeeps(s: State, e: Event)
    requires e.body.PhaseCheckpointed?
    ensures ApplyPhase(s, e).Some? ==> SameWork(s, ApplyPhase(s, e).value) && SameHead(s, ApplyPhase(s, e).value)
  {
  }

  predicate IsEnding(b: Body) { b.SessionCancelled? || b.SessionFailed? || b.SessionCompleted? }

  lemma EndingKeeps(s: State, e: Event)
    requires IsEnding(e.body)
    ensures ApplyEnding(s, e).Some? ==> SameWork(s, ApplyEnding(s, e).value) && ApplyEnding(s, e).value == s.(ending := ApplyEnding(s, e).value.ending)
  {
  }

  lemma LinkKeeps(s: State, e: Event)
    ensures e.body.OperationLinked? && ApplyOperationLinked(s, e).Some? ==>
      SameWork(s, ApplyOperationLinked(s, e).value) && SameHead(s, ApplyOperationLinked(s, e).value)
    ensures e.body.ChildAttached? && ApplyChildAttached(s, e).Some? ==>
      SameWork(s, ApplyChildAttached(s, e).value) && SameHead(s, ApplyChildAttached(s, e).value)
  {
  }

  predicate OfWorkflow(b: Body) { b.Reserved? || b.Reclaimed? || b.Released? || b.PhaseCheckpointed? }

  lemma OfWorkflowKeeps(k: Env, s: State, e: Event)
    requires OfWorkflow(e.body) && ApplyBody(k, s, e).Some?
    ensures SameWork(s, ApplyBody(k, s, e).value) && SameHead(s, ApplyBody(k, s, e).value)
  {
    WorkflowKeeps(s, e);
    if e.body.PhaseCheckpointed? { PhaseKeeps(s, e); }
  }

  lemma IsEndingKeeps(k: Env, s: State, e: Event)
    requires IsEnding(e.body) && ApplyBody(k, s, e).Some?
    ensures SameWork(s, ApplyBody(k, s, e).value) && ApplyBody(k, s, e).value == s.(ending := ApplyBody(k, s, e).value.ending)
  {
    EndingKeeps(s, e);
  }

  lemma LinkedKeeps(k: Env, s: State, e: Event)
    requires (e.body.OperationLinked? || e.body.ChildAttached?) && ApplyBody(k, s, e).Some?
    ensures SameWork(s, ApplyBody(k, s, e).value) && SameHead(s, ApplyBody(k, s, e).value)
  {
    LinkKeeps(s, e);
  }

  lemma RestKeeps(k: Env, s: State, e: Event)
    requires e.body.Forked? || e.body.Resumed? || e.body.SubagentRequested? || e.body.LegacyCheckpointed? || e.body.CancelRequested?
    requires ApplyBody(k, s, e).Some?
    ensures SameWork(s, ApplyBody(k, s, e).value) && SameHead(s, ApplyBody(k, s, e).value)
  {
  }

  lemma AsideKeeps(k: Env, s: State, e: Event)
    requires Aside(e.body) && !e.body.Created? && ApplyBody(k, s, e).Some?
    ensures SameWork(s, ApplyBody(k, s, e).value)
    ensures if IsEnding(e.body) then ApplyBody(k, s, e).value == s.(ending := ApplyBody(k, s, e).value.ending) else SameHead(s, ApplyBody(k, s, e).value)
  {
    if OfWorkflow(e.body) {
      OfWorkflowKeeps(k, s, e);
    } else if IsEnding(e.body) {
      IsEndingKeeps(k, s, e);
    } else if e.body.OperationLinked? || e.body.ChildAttached? {
      LinkedKeeps(k, s, e);
    } else {
      RestKeeps(k, s, e);
    }
  }

  lemma TurnHead(k: Env, s: State, e: Event)
    ensures e.body.TurnStarted? && ApplyTurnStarted(s, e).Some? ==> SameHead(s, ApplyTurnStarted(s, e).value)
    ensures e.body.Assembled? && ApplyAssembled(k, s, e).Some? ==> SameHead(s, ApplyAssembled(k, s, e).value)
    ensures e.body.StepStarted? && ApplyStepStarted(k, s, e).Some? ==> SameHead(s, ApplyStepStarted(k, s, e).value)
  {
  }

  lemma StreamHead(k: Env, s: State, e: Event)
    ensures e.body.Streamed? && ApplyStreamed(s, e).Some? ==> SameHead(s, ApplyStreamed(s, e).value)
    ensures e.body.ToolStarted? && ApplyToolStarted(k, s, e).Some? ==> SameHead(s, ApplyToolStarted(k, s, e).value)
    ensures e.body.ToolCompleted? && ApplyToolCompleted(s, e).Some? ==> SameHead(s, ApplyToolCompleted(s, e).value)
  {
  }

  lemma CompactedHead(k: Env, s: State, e: Event)
    ensures e.body.ContextCompacted? && ApplyContextCompacted(k, s, e).Some? ==> SameHead(s, ApplyContextCompacted(k, s, e).value)
    ensures e.body.ToolsCompacted? && ApplyToolsCompacted(k, s, e).Some? ==> SameHead(s, ApplyToolsCompacted(k, s, e).value)
  {
  }

  lemma BodyKeeps(k: Env, s: State, e: Event)
    requires StateOk(s) && ApplyBody(k, s, e).Some?
    ensures StateOk(ApplyBody(k, s, e).value)
  {
    if OfTurn(e.body) {
      OfTurnKeeps(k, s, e);
    } else if !Aside(e.body) {
      OfToolKeeps(k, s, e);
    } else {
      if !e.body.Created? { AsideKeeps(k, s, e); }
      SameWorkOk(s, ApplyBody(k, s, e).value);
    }
  }

  predicate OfTurn(b: Body) { b.TurnStarted? || b.Assembled? || b.StepStarted? || b.Streamed? }

  lemma OfTurnKeeps(k: Env, s: State, e: Event)
    requires StateOk(s) && OfTurn(e.body) && ApplyBody(k, s, e).Some?
    ensures StateOk(ApplyBody(k, s, e).value)
  {
    match e.body
    case TurnStarted(_, _) => TurnStartedKeeps(s, e);
    case Assembled(_, _, _, _, _) => AssembledKeeps(k, s, e);
    case StepStarted(_, _, _, _) => StepStartedKeeps(k, s, e);
    case Streamed(_, _, _, _) => StreamedKeeps(s, e);
  }

  lemma OfToolKeeps(k: Env, s: State, e: Event)
    requires StateOk(s) && !OfTurn(e.body) && !Aside(e.body) && ApplyBody(k, s, e).Some?
    ensures StateOk(ApplyBody(k, s, e).value)
  {
    match e.body
    case ToolStarted(_, _, _, _, _, _) => ToolStartedKeeps(k, s, e);
    case ToolCompleted(_, _, _) => ToolCompletedKeeps(s, e);
    case ContextCompacted(_, _, _, _, _) => ContextCompactedKeeps(k, s, e);
    case ToolsCompacted(_, _, _, _, _, _) => ToolsCompactedKeeps(k, s, e);
  }

  lemma SameWorkOk(s: State, z: State)
    requires StateOk(s) && SameWork(s, z)
    ensures StateOk(z)
  {
    forall x | x in z.invocations ensures ExecutionOk(z, x, z.invocations[x]) { assert ExecutionOk(s, x, s.invocations[x]); }
  }

  // ---------------------------------------------------------------- every accepted log

  /** The session is known once it has begun, and its sequence is its length. */
  ghost predicate HeadOk(s: State, n: nat) {
    && s.current == n && (s.session.Some? <==> n > 0) && (s.spec.Some? <==> n > 0)
  }

  lemma BodyHead(k: Env, s: State, e: Event)
    requires ApplyBody(k, s, e).Some?
    ensures var t := ApplyBody(k, s, e).value;
      if e.body.Created? then t == s.(spec := Some(e.body.spec))
      else if IsEnding(e.body) then t == s.(ending := t.ending)
      else SameHead(s, t)
  {
    match e.body
    case TurnStarted(_, _) => TurnHead(k, s, e);
    case Assembled(_, _, _, _, _) => TurnHead(k, s, e);
    case StepStarted(_, _, _, _) => TurnHead(k, s, e);
    case Streamed(_, _, _, _) => StreamHead(k, s, e);
    case ToolStarted(_, _, _, _, _, _) => StreamHead(k, s, e);
    case ToolCompleted(_, _, _) => StreamHead(k, s, e);
    case ContextCompacted(_, _, _, _, _) => CompactedHead(k, s, e);
    case ToolsCompacted(_, _, _, _, _, _) => CompactedHead(k, s, e);
    case Created(_) =>
    case _ => AsideKeeps(k, s, e);
  }

  lemma ApplyKeeps(k: Env, s: State, e: Event, n: nat)
    requires StateOk(s) && HeadOk(s, n) && Apply(k, s, e).Ok?
    ensures StateOk(Apply(k, s, e).value) && HeadOk(Apply(k, s, e).value, n + 1)
    ensures Apply(k, s, e).value.seen == s.seen + {e.id}
  {
    var entered := Enter(s, e);
    SameWorkOk(s, entered);
    BodyKeeps(k, entered, e);
    BodyHead(k, entered, e);
    SameWorkOk(ApplyBody(k, entered, e).value, Apply(k, s, e).value);
  }

  lemma {:induction false} EveryStateOk(k: Env, log: seq<Event>)
    requires Accepted(k, log)
    ensures StateOk(Replay(k, log).value) && HeadOk(Replay(k, log).value, |log|)
    decreases |log|
  {
    if log != [] {
      var n := |log| - 1;
      EveryStateOk(k, log[..n]);
      ApplyKeeps(k, Replay(k, log[..n]).value, log[n], n);
    }
  }

  // ---------------------------------------------------------------- main results

  /** The byte count kept as events arrive is the length of the canonical JSON array of the step's
      events, and no step exceeds its bounds. */
  lemma StreamBytesAreExact(k: Env, log: seq<Event>, turn: Id, i: nat)
    requires Accepted(k, log) && turn in Replay(k, log).value.turns && i < |Replay(k, log).value.turns[turn].steps|
    ensures var step := Replay(k, log).value.turns[turn].steps[i];
      && step.bytes == |ArrayText(step.events)| <= MAX_MODEL_STREAM_BYTES_PER_STEP
      && |step.events| <= MAX_MODEL_EVENTS_PER_STEP
  {
    EveryStateOk(k, log);
    assert TurnOk(turn, Replay(k, log).value.turns[turn]);
  }

  /** An open step always has a slot and room for one terminal event of up to 8191 bytes. */
  lemma TerminalAlwaysFits(k: Env, log: seq<Event>, turn: Id, i: nat, m: ModelEvent)
    requires Accepted(k, log) && turn in Replay(k, log).value.turns && i < |Replay(k, log).value.turns[turn].steps|
    requires !HasEnd(Replay(k, log).value.turns[turn].steps[i].events)
    requires Ends(m) && |m.text| < MODEL_TERMINAL_RESERVE_BYTES
    ensures InBounds(Replay(k, log).value.turns[turn].steps[i], m)
  {
    EveryStateOk(k, log);
    assert TurnOk(turn, Replay(k, log).value.turns[turn]);
  }

  /** The reserve is tight: on a step filled up to it, a terminal event fits exactly when it has at
      most 8191 bytes.  A longer one, such as a failure with a long message, is refused there. */
  lemma ReserveIsTight(step: ModelStep, m: ModelEvent)
    requires StepOk(step) && !HasEnd(step.events) && Ends(m) && step.events != []
    requires step.bytes == MAX_MODEL_STREAM_BYTES_PER_STEP - MODEL_TERMINAL_RESERVE_BYTES
    ensures InBounds(step, m) <==> |m.text| <= 8191
  {
  }

  /** The driver's own caps on a stream are never looser than the fold's. */
  predicate DriverAllows(maxEvents: int, maxBytes: int, step: ModelStep, m: ModelEvent) {
    var next := step.bytes + |m.text| + (if step.events == [] then 0 else 1);
    && |step.events| < maxEvents
    && (!Ends(m) ==> |step.events| < maxEvents - 1)
    && next <= maxBytes
    && (!Ends(m) ==> next <= maxBytes - MODEL_TERMINAL_RESERVE_BYTES)
  }

  lemma DriverStaysInBounds(maxEvents: int, maxBytes: int, step: ModelStep, m: ModelEvent)
    requires maxEvents <= MAX_MODEL_EVENTS_PER_STEP && maxBytes <= MAX_MODEL_STREAM_BYTES_PER_STEP
    ensures DriverAllows(maxEvents, maxBytes, step, m) ==> InBounds(step, m)
    ensures maxEvents == MAX_MODEL_EVENTS_PER_STEP && maxBytes == MAX_MODEL_STREAM_BYTES_PER_STEP ==>
      (DriverAllows(maxEvents, maxBytes, step, m) <==> InBounds(step, m))
  {
  }

  /** An event that continues the stream of an open step, as the driver makes it. */
  predicate Continuing(s: State, e: Event, i: nat) {
    && e.sequence == s.current + 1 && s.current > 0 && s.session == Some(e.session) && s.ending.None?
    && e.body.Streamed? && e.body.turn in s.turns && s.turns[e.body.turn].request.Some?
    && var steps, m := s.turns[e.body.turn].steps, e.body.event;
       && i < |steps| && e.body.target == Some(steps[i].id) && StepIndex(steps, steps[i].id) == i && e.body.provider == m.provider
       && m.request == steps[i].request.id && m.provider == steps[i].request.provider && m.sequence == |steps[i].events|
       && !HasEnd(steps[i].events)
  }

  lemma StreamedTakenIff(k: Env, s: State, e: Event, i: nat)
    requires Continuing(s, e, i)
    ensures Apply(k, s, e).Ok? <==> InBounds(s.turns[e.body.turn].steps[i], e.body.event)
  {
  }

  /** The fold takes every event that the driver lets through, and with the widest caps no other. */
  lemma DriverEventTaken(k: Env, log: seq<Event>, e: Event, i: nat, maxEvents: int, maxBytes: int)
    requires Accepted(k, log) && Continuing(Replay(k, log).value, e, i)
    requires maxEvents <= MAX_MODEL_EVENTS_PER_STEP && maxBytes <= MAX_MODEL_STREAM_BYTES_PER_STEP
    ensures var step := Replay(k, log).value.turns[e.body.turn].steps[i];
      && (DriverAllows(maxEvents, maxBytes, step, e.body.event) ==> Accepted(k, log + [e]))
      && (maxEvents == MAX_MODEL_EVENTS_PER_STEP && maxBytes == MAX_MODEL_STREAM_BYTES_PER_STEP ==>
            (DriverAllows(maxEvents, maxBytes, step, e.body.event) <==> Accepted(k, log + [e])))
  {
    var s := Replay(k, log).value;
    ReplayPush(k, log, e);
    StreamedTakenIff(k, s, e, i);
    DriverStaysInBounds(maxEvents, maxBytes, s.turns[e.body.turn].steps[i], e.body.event);
  }

  /** In every accepted log the steps of a turn are a chain from the assembled request: each request
      says all that the one before it said and more, follows a step that asked for tools, and only
      the last step can be open. */
  lemma StepsFormAChain(k: Env, log: seq<Event>, turn: Id, i: nat, j: nat)
    requires Accepted(k, log) && turn in Replay(k, log).value.turns
    requires i < j < |Replay(k, log).value.turns[turn].steps|
    ensures var t := Replay(k, log).value.turns[turn];
      && t.request.Some? && t.steps[0].request == t.request.value
      && HasEnd(t.steps[i].events) && AsksForTools(t.steps[i])
      && |t.steps[i].request.messages| < |t.steps[j].request.messages|
      && t.steps[j].request.messages[..|t.steps[i].request.messages|] == t.steps[i].request.messages
      && t.steps[i].request.id != t.steps[j].request.id && t.steps[i].request.provider == t.steps[j].request.provider
  {
    EveryStateOk(k, log);
    var t := Replay(k, log).value.turns[turn];
    assert TurnOk(turn, t);
    Chained(t, i, j);
    assert Follows(t.steps[i + 1 - 1], t.steps[i + 1]);
    assert Ends(t.steps[i].events[|t.steps[i].events| - 1]);
  }

  lemma {:induction false} Chained(t: Turn, i: nat, j: nat)
    requires ChainOk(t) && i < j < |t.steps|
    ensures |t.steps[i].request.messages| < |t.steps[j].request.messages|
    ensures t.steps[j].request.messages[..|t.steps[i].request.messages|] == t.steps[i].request.messages
    ensures t.steps[i].request.provider == t.steps[j].request.provider
    decreases j
  {
    assert Follows(t.steps[j - 1], t.steps[j]);
    if i < j - 1 {
      Chained(t, i, j - 1);
      var a, b, c := t.steps[i].request.messages, t.steps[j - 1].request.messages, t.steps[j].request.messages;
      assert c[..|a|] == c[..|b|][..|a|];
    }
  }
}
