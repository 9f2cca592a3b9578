/** The session log: `replaySessionEvents` folds events into a session's state and refuses a log
    that no run of the kernel could have written. */
module SessionFold {
  import opened Outcomes
  import B = ContextBudget

  type Id = string

  const MAX_MODEL_EVENTS_PER_STEP := 4096
  const MAX_MODEL_STREAM_BYTES_PER_STEP := 16_777_216
  const MODEL_TERMINAL_RESERVE_BYTES := 8192

  // ---------------------------------------------------------------- requests and streams

  datatype Call = Call(id: Id, name: Id, input: string)

  /** A message of a request: plain, an assistant's tool calls, or a tool's result. */
  datatype Msg =
    | Plain(message: B.Message)
    | Calls(content: string, calls: seq<Call>)
    | ToolResult(name: Id, call: Id, content: string)

  /** `frame` is the rest of the request: session, turn, tools and parameters. */
  datatype Request = Request(id: Id, provider: Id, model: Id, frame: string, messages: seq<Msg>)

  const MAX_IDENTIFIER := 160

  /** The request's identifiers are within their schema. */
  predicate RequestOk(r: Request) { |r.id| <= MAX_IDENTIFIER && |r.provider| <= MAX_IDENTIFIER }

  datatype FinishReason = Stop | ToolCalls | Length | CancelledByRuntime

  datatype Kind =
    | Content(text: string)
    | Reasoning(text: string)
    | ToolDelta(call: Id, name: Option<Id>, arguments: string)
    | Usage
    | Completed(reason: FinishReason, ref: string)
    | Failed(code: Id, message: string, retryable: bool)

  /** `text` is the event's canonical JSON, one character for each byte. */
  datatype ModelEvent = ModelEvent(provider: Id, request: Id, sequence: int, kind: Kind, text: string)

  predicate Ends(e: ModelEvent) { e.kind.Completed? || e.kind.Failed? }

  predicate HasEnd(events: seq<ModelEvent>) { exists i :: 0 <= i < |events| && Ends(events[i]) }

  datatype ModelStep = ModelStep(
    id: Id,
    request: Request,
    requestEvent: Id,
    sources: seq<Id>,
    events: seq<ModelEvent>,
    eventIds: seq<Id>,
    bytes: nat,
    terminal: Option<Id>)

  // ---------------------------------------------------------------- tools, compactions, turns

  datatype Outcome = Outcome(invocation: Id, turn: Id, call: Id, name: Id, status: Id, operation: Option<Id>, body: string)

  datatype Execution = Execution(
    invocation: Id,
    turn: Id,
    step: Id,
    call: Id,
    name: Id,
    input: string,
    startedEvent: Id,
    outcome: Option<Outcome>,
    completedEvent: Option<Id>,
    completedSequence: int)

  datatype Provenance = Provenance(provider: Id, checkpoint: Id, manifest: Id)

  datatype Source = Source(id: Id, sequence: int, message: Msg)

  /** What replaced tool results; its sources stand for their digest. */
  datatype ToolCompaction = ToolCompaction(event: Id, sources: seq<Source>, replacement: seq<Msg>)

  datatype ContextCompaction = ContextCompaction(event: Id, provenance: Provenance, record: B.Record)

  datatype Turn = Turn(
    id: Id,
    input: B.Message,
    inputEvent: Id,
    inputSequence: int,
    request: Option<Request>,
    requestEvent: Id,
    budget: Option<Provenance>,
    events: seq<ModelEvent>,
    eventIds: seq<Id>,
    eventSequences: seq<int>,
    steps: seq<ModelStep>,
    executions: map<Id, Id>,  // tool call to invocation
    contextCompaction: Option<ContextCompaction>,
    toolCompactions: seq<ToolCompaction>)

  // ---------------------------------------------------------------- workflows

  datatype Reservation = Reservation(
    workflow: Id,
    definition: Id,
    claim: Id,
    claimExpires: int,
    claimEvent: Id,
    stepCount: nat,
    children: seq<Id>,
    released: Option<RunStatus>)

  datatype RunStatus = RunCompleted | RunCancelled | RunFailed

  datatype Checkpoint = Checkpoint(workflow: Id, steps: Option<seq<Id>>, event: Id)

  datatype Workflow = Workflow(definition: Id, phases: seq<Id>)

  // ---------------------------------------------------------------- the log

  datatype Limits = Limits(duration: int, toolCalls: int, children: int, workflowSteps: int)

  datatype Spec = Spec(session: Id, parent: Option<Id>, kernel: bool, provider: Id, model: Id, limits: Limits)

  datatype CancelSource = ByUser | ByDeadline | ByDispose

  datatype Cancellation = Cancellation(reason: string, cascade: bool, source: CancelSource)

  datatype Body =
    | Created(spec: Spec)
    | Forked(parent: Id, sequence: int)
    | Resumed(from: int)
    | TurnStarted(turn: Id, input: B.Message)
    | Assembled(turn: Id, request: Request, refs: set<Id>, compact: bool, budget: Option<Provenance>)
    | StepStarted(turn: Id, step: Id, request: Request, sources: seq<Id>)
    | Streamed(turn: Id, target: Option<Id>, provider: Id, event: ModelEvent)
    | ToolStarted(turn: Id, step: Id, invocation: Id, call: Id, name: Id, arguments: string)
    | ToolCompleted(turn: Id, step: Id, outcome: Outcome)
    | OperationLinked(turn: Id, call: Id, operation: Id)
    | ContextCompacted(turn: Id, compaction: Id, checkpoint: Id, provenance: Provenance, record: B.Record)
    | ToolsCompacted(turn: Id, compaction: Id, checkpoint: Id, provenance: Provenance, results: seq<Source>, replacement: seq<Msg>)
    | ChildAttached(child: Id)
    | SubagentRequested
    | Reserved(workflow: Id, definition: Id, claim: Id, claimExpires: int, stepCount: nat, children: seq<Id>)
    | Reclaimed(workflow: Id, definition: Id, claim: Id, claimExpires: int, priorEvent: Id)
    | Released(workflow: Id, definition: Id, claimEvent: Id, status: RunStatus)
    | LegacyCheckpointed(workflow: Id)
    | PhaseCheckpointed(workflow: Id, definition: Id, claimEvent: Id, phase: Id, steps: seq<Id>, children: seq<Id>)
    | CancelRequested(cancellation: Cancellation)
    | SessionCancelled(reason: string, cascade: bool)
    | SessionFailed(code: Id, message: string)
    | SessionCompleted(ref: string)

  datatype Event = Event(id: Id, session: Id, sequence: int, at: int, body: Body)

  datatype Ending = EndCancelled | EndFailed | EndCompleted

  /** Compactions seen: their id, checkpoint, and what each was of. */
  datatype Seen = Seen(compaction: Id, checkpoint: Id, turn: Id, context: bool, sources: seq<Id>)

  datatype State = State(
    session: Option<Id>,
    spec: Option<Spec>,
    current: int,
    forked: bool,
    turns: map<Id, Turn>,
    order: seq<Id>,
    operations: seq<Id>,
    children: seq<Id>,
    subagent: bool,
    compactions: seq<Seen>,
    checkpoints: seq<Checkpoint>,
    workflows: map<Id, Workflow>,
    reservations: map<Id, Reservation>,
    reserved: seq<Id>,  // workflow ids in order of reservation
    cancellation: Option<Cancellation>,
    invocations: map<Id, Execution>,
    ending: Option<Ending>,
    seen: set<Id>)

  /** What the fold leaves to others: parsing a JSON object, rendering a tool's outcome or the event
      that cancels a stream, and naming an event as a source. */
  datatype Env = Env(
    parse: string -> Option<string>,
    render: Outcome -> string,
    cancel: (Request, nat) -> string,
    eventRef: Id -> Id)

  datatype Error = BadSequence | BadIdentity | AlreadyTerminal | BadCreation | Refused

  const Start := State(None, None, 0, false, map[], [], [], [], false, [], [], map[], map[], [], None, map[], None, {})

  // ---------------------------------------------------------------- tool calls of a step

  datatype Partial = Partial(id: Id, name: Option<Id>, arguments: string)

  function IndexOf(calls: seq<Partial>, id: Id): (i: int)
    ensures -1 <= i < |calls| && (i >= 0 ==> calls[i].id == id) && (i < 0 ==> forall k :: 0 <= k < |calls| ==> calls[k].id != id)
  {
    if calls == [] then -1
    else if calls[|calls| - 1].id == id then |calls| - 1
    else IndexOf(calls[..|calls| - 1], id)
  }

  /** One delta added to the calls gathered so far; None when a call changes its name. */
  function Gather(calls: seq<Partial>, k: Kind): Option<seq<Partial>>
    requires k.ToolDelta?
  {
    var i := IndexOf(calls, k.call);
    var call := if i < 0 then Partial(k.call, None, "") else calls[i];
    if k.name.Some? && call.name.Some? && call.name != k.name then None
    else
      var next := Partial(call.id, if k.name.Some? then k.name else call.name, call.arguments + k.arguments);
      Some(if i < 0 then calls + [next] else calls[i := next])
  }

  function GatherAll(events: seq<ModelEvent>): Option<seq<Partial>>
    decreases |events|
  {
    if events == [] then Some([])
    else
      var n := |events| - 1;
      var calls := GatherAll(events[..n]);
      if calls.None? || !events[n].kind.ToolDelta? then calls else Gather(calls.value, events[n].kind)
  }

  function ParseCalls(k: Env, calls: seq<Partial>): (r: Option<seq<Call>>)
    ensures r.Some? ==> |r.value| == |calls| && forall i :: 0 <= i < |calls| ==> r.value[i].id == calls[i].id
  {
    if calls == [] then Some([])
    else
      var n := |calls| - 1;
      var rest := ParseCalls(k, calls[..n]);
      var c := calls[n];
      var input := k.parse(c.arguments);
      if rest.None? || input.None? || c.name.None? || c.name.value == "" then None
      else Some(rest.value + [Call(c.id, c.name.value, input.value)])
  }

  /** `assembledToolCalls` */
  function AssembledCalls(k: Env, events: seq<ModelEvent>): Option<seq<Call>> {
    var calls := GatherAll(events);
    if calls.None? then None else ParseCalls(k, calls.value)
  }

  /** The content deltas of a stream, joined. */
  function ContentOf(events: seq<ModelEvent>): string {
    if events == [] then ""
    else
      var n := |events| - 1;
      ContentOf(events[..n]) + (if events[n].kind.Content? then events[n].kind.text else "")
  }

  // ---------------------------------------------------------------- durable history

  function FirstCompleted(events: seq<ModelEvent>): (i: int)
    ensures -1 <= i < |events|
  {
    if events == [] then -1
    else
      var i := FirstCompleted(events[..|events| - 1]);
      if i >= 0 then i else if events[|events| - 1].kind.Completed? then |events| - 1 else -1
  }

  /** What a turn adds to the history of those after it. */
  function HistoryOf(k: Env, t: Turn): seq<B.Entry> {
    var input := [B.Entry(t.inputEvent, k.eventRef(t.inputEvent), t.inputSequence, t.input)];
    var i := FirstCompleted(t.events);
    if i < 0 || ContentOf(t.events[..i]) == "" || i >= |t.eventIds| || i >= |t.eventSequences| then input
    else input + [B.Entry(t.eventIds[i], k.eventRef(t.eventIds[i]), t.eventSequences[i], B.Message(B.Assistant, ContentOf(t.events[..i])))]
  }

  /** `durableHistory`: the turns before the given one, in the order they began. */
  function DurableHistory(k: Env, s: State, order: seq<Id>, current: Id): seq<B.Entry> {
    if order == [] || order[0] == current then []
    else (if order[0] in s.turns then HistoryOf(k, s.turns[order[0]]) else []) + DurableHistory(k, s, order[1..], current)
  }

  // ---------------------------------------------------------------- turns and requests

  function ApplyTurnStarted(s: State, e: Event): Option<State>
    requires e.body.TurnStarted?
  {
    var b := e.body;
    if b.turn in s.turns || b.input.role != B.User then None
    else
      var turn := Turn(b.turn, b.input, e.id, e.sequence, None, "", None, [], [], [], [], map[], None, []);
      Some(s.(turns := s.turns[b.turn := turn], order := s.order + [b.turn]))
  }

  function PlainMessages(ms: seq<Msg>): Option<seq<B.Message>> {
    if ms == [] then Some([])
    else
      var rest := PlainMessages(ms[1..]);
      if rest.None? || !ms[0].Plain? then None else Some([ms[0].message] + rest.value)
  }

  /** `slice(1, -1)` */
  function Inner<T>(xs: seq<T>): seq<T> { if |xs| < 2 then [] else xs[1..|xs| - 1] }

  function ApplyAssembled(k: Env, s: State, e: Event): Option<State>
    requires e.body.Assembled?
  {
    var b := e.body;
    if b.turn !in s.turns || s.spec.None? then None
    else
      var t, r := s.turns[b.turn], b.request;
      if t.request.Some? || !s.spec.value.kernel || !RequestOk(r) || r.provider != s.spec.value.provider || r.model != s.spec.value.model then None
      else if r.messages == [] || r.messages[|r.messages| - 1] != Plain(t.input) || k.eventRef(t.inputEvent) !in b.refs then None
      else if b.compact && t.contextCompaction.Some? && b.budget != Some(t.contextCompaction.value.provenance) then None
      else
        var inner := PlainMessages(Inner(r.messages));
        var durable := DurableHistory(k, s, s.order, b.turn);
        var c := t.contextCompaction;
        if inner.None? then None
        else if !B.ContextOk(durable, B.Visible(inner.value), b.refs, if c.Some? then Some(c.value.record) else None,
                             if c.Some? then k.eventRef(c.value.event) else "")
        then None
        else
          var turn := t.(request := Some(r), requestEvent := e.id, budget := b.budget);
          Some(s.(turns := s.turns[b.turn := turn]))
  }

  function StepIndex(steps: seq<ModelStep>, id: Id): (i: int)
    ensures -1 <= i < |steps| && (i >= 0 ==> steps[i].id == id) && (i < 0 ==> forall k :: 0 <= k < |steps| ==> steps[k].id != id)
  {
    if steps == [] then -1
    else if steps[|steps| - 1].id == id then |steps| - 1
    else StepIndex(steps[..|steps| - 1], id)
  }

  /** The last event of a step says it finished with tool calls. */
  predicate AsksForTools(step: ModelStep) {
    step.events != [] && step.events[|step.events| - 1].kind.Completed? && step.events[|step.events| - 1].kind.reason == ToolCalls
  }

  function ExecutionsOf(s: State, t: Turn, calls: seq<Call>): (r: Option<seq<Execution>>)
    ensures r.Some? ==> |r.value| == |calls|
  {
    if calls == [] then Some([])
    else
      var n := |calls| - 1;
      var rest := ExecutionsOf(s, t, calls[..n]);
      var id := calls[n].id;
      if rest.None? || id !in t.executions || t.executions[id] !in s.invocations then None
      else
        var x := s.invocations[t.executions[id]];
        if x.outcome.None? || x.completedEvent.None? then None else Some(rest.value + [x])
  }

  function CompletedIds(xs: seq<Execution>): (r: seq<Id>)
    ensures |r| == |xs|
  {
    seq(|xs|, i requires 0 <= i < |xs| => if xs[i].completedEvent.Some? then xs[i].completedEvent.value else "")
  }

  function OutcomeMessage(k: Env, x: Execution): Msg {
    ToolResult(x.name, x.call, if x.outcome.Some? then k.render(x.outcome.value) else "")
  }

  function OutcomeMessages(k: Env, xs: seq<Execution>): (r: seq<Msg>)
    ensures |r| == |xs|
  {
    seq(|xs|, i requires 0 <= i < |xs| => OutcomeMessage(k, xs[i]))
  }

  function SourceIds(sources: seq<Source>): (r: seq<Id>)
    ensures |r| == |sources|
  {
    seq(|sources|, i requires 0 <= i < |sources| => sources[i].id)
  }

  function FindToolCompaction(cs: seq<ToolCompaction>, ids: seq<Id>): Option<ToolCompaction> {
    if cs == [] then None else if SourceIds(cs[0].sources) == ids then Some(cs[0]) else FindToolCompaction(cs[1..], ids)
  }

  /** What the request after a tool-call step must be: its messages and its sources. */
  datatype Expected = Expected(messages: seq<Msg>, sources: seq<Id>)

  /** The continuation that durable facts call for; None while some tool outcome is missing. */
  function Continuation(k: Env, s: State, t: Turn, previous: ModelStep): Option<Expected> {
    var calls := AssembledCalls(k, previous.events);
    if calls.None? || previous.terminal.None? then None
    else
      var xs := ExecutionsOf(s, t, calls.value);
      if xs.None? then None
      else
        var c := FindToolCompaction(t.toolCompactions, CompletedIds(xs.value));
        var head := previous.request.messages + [Calls(ContentOf(previous.events), calls.value)];
        Some(Expected(
          head + (if c.Some? then c.value.replacement else OutcomeMessages(k, xs.value)),
          [previous.terminal.value] + (if c.Some? then [c.value.event] else CompletedIds(xs.value))))
  }

  predicate Distinct(ids: seq<Id>) { forall i, j :: 0 <= i < j < |ids| ==> ids[i] != ids[j] }

  predicate FreshRequest(t: Turn, id: Id) { forall i :: 0 <= i < |t.steps| ==> t.steps[i].request.id != id }

  function ApplyStepStarted(k: Env, s: State, e: Event): Option<State>
    requires e.body.StepStarted?
  {
    var b := e.body;
    if b.turn !in s.turns || s.spec.None? || b.sources == [] || !Distinct(b.sources) then None
    else
      var t, r := s.turns[b.turn], b.request;
      if t.request.None? || !RequestOk(r) || StepIndex(t.steps, b.step) >= 0 || !FreshRequest(t, r.id)
        || r.provider != s.spec.value.provider || r.model != s.spec.value.model
        || exists i :: 0 <= i < |b.sources| && b.sources[i] !in s.seen
      then None
      else if t.steps == [] then
        if r != t.request.value || b.sources != [t.requestEvent] then None else Some(StartStep(s, e, t))
      else
        var previous := t.steps[|t.steps| - 1];
        var next := Continuation(k, s, t, previous);
        if !AsksForTools(previous) || next.None? || r.messages != next.value.messages || b.sources != next.value.sources
          || r.(id := previous.request.id, messages := previous.request.messages) != previous.request
        then None
        else Some(StartStep(s, e, t))
  }

  function StartStep(s: State, e: Event, t: Turn): State
    requires e.body.StepStarted?
  {
    var b := e.body;
    var step := ModelStep(b.step, b.request, e.id, b.sources, [], [], 2, None);
    s.(turns := s.turns[b.turn := t.(steps := t.steps + [step])])
  }

  // ---------------------------------------------------------------- model streams

  /** The bytes of a step's stream with one more event. */
  function NextBytes(step: ModelStep, m: ModelEvent): nat {
    step.bytes + (if step.events == [] then 0 else 1) + |m.text|
  }

  /** The cumulative bounds of a step: the last slot and the reserve are for a terminal event. */
  predicate InBounds(step: ModelStep, m: ModelEvent) {
    && |step.events| < MAX_MODEL_EVENTS_PER_STEP
    && (!Ends(m) ==> |step.events| < MAX_MODEL_EVENTS_PER_STEP - 1)
    && NextBytes(step, m) <= MAX_MODEL_STREAM_BYTES_PER_STEP
    && (!Ends(m) ==> NextBytes(step, m) <= MAX_MODEL_STREAM_BYTES_PER_STEP - MODEL_TERMINAL_RESERVE_BYTES)
  }

  function PushEvent(step: ModelStep, m: ModelEvent, id: Id): ModelStep {
    step.(events := step.events + [m], eventIds := step.eventIds + [id], bytes := NextBytes(step, m),
          terminal := if Ends(m) then Some(id) else step.terminal)
  }

  function RecordStream(t: Turn, e: Event): Turn
    requires e.body.Streamed?
  {
    t.(events := t.events + [e.body.event], eventIds := t.eventIds + [e.id], eventSequences := t.eventSequences + [e.sequence])
  }

  function ApplyStreamed(s: State, e: Event): Option<State>
    requires e.body.Streamed?
  {
    var b := e.body;
    var m := b.event;
    if b.turn !in s.turns || b.provider != m.provider then None
    else
      var t := s.turns[b.turn];
      if t.request.None? then None
      else match b.target
        case None =>
          if m.request != t.request.value.id || m.provider != t.request.value.provider || m.sequence != |t.events| || HasEnd(t.events) then None
          else Some(s.(turns := s.turns[b.turn := RecordStream(t, e)]))
        case Some(id) =>
          var i := StepIndex(t.steps, id);
          if i < 0 then None
          else
            var step := t.steps[i];
            if m.request != step.request.id || m.provider != step.request.provider || m.sequence != |step.events| || HasEnd(step.events)
              || !InBounds(step, m)
            then None
            else Some(s.(turns := s.turns[b.turn := RecordStream(t, e).(steps := t.steps[i := PushEvent(step, m, e.id)])]))
  }

  // ---------------------------------------------------------------- tools

  function FindCall(calls: seq<Call>, id: Id): Option<Call> {
    if calls == [] then None else if calls[0].id == id then Some(calls[0]) else FindCall(calls[1..], id)
  }

  function ApplyToolStarted(k: Env, s: State, e: Event): Option<State>
    requires e.body.ToolStarted?
  {
    var b := e.body;
    if b.turn !in s.turns || s.spec.None? then None
    else
      var t := s.turns[b.turn];
      var i := StepIndex(t.steps, b.step);
      if i < 0 || !AsksForTools(t.steps[i]) || b.invocation in s.invocations || b.call in t.executions then None
      else
        var calls := AssembledCalls(k, t.steps[i].events);
        if calls.None? || FindCall(calls.value, b.call) != Some(Call(b.call, b.name, b.arguments)) then None
        else if |s.invocations| >= s.spec.value.limits.toolCalls then None
        else
          var x := Execution(b.invocation, b.turn, b.step, b.call, b.name, b.arguments, e.id, None, None, 0);
          Some(s.(turns := s.turns[b.turn := t.(executions := t.executions[b.call := b.invocation])],
                  invocations := s.invocations[b.invocation := x]))
  }

  /** The outcome's turn must be known; that it is the execution's turn is not asked. */
  function ApplyToolCompleted(s: State, e: Event): Option<State>
    requires e.body.ToolCompleted?
  {
    var b := e.body;
    var o := b.outcome;
    if b.turn !in s.turns || o.turn != b.turn || o.invocation !in s.invocations then None
    else
      var t, x := s.turns[b.turn], s.invocations[o.invocation];
      if x.outcome.Some? || x.step != b.step || x.call != o.call || x.name != o.name then None
      else
        var done := x.(outcome := Some(o), completedEvent := Some(e.id), completedSequence := e.sequence);
        Some(s.(turns := s.turns[b.turn := t.(executions := t.executions[x.call := x.invocation])],
                invocations := s.invocations[x.invocation := done]))
  }

  function ApplyOperationLinked(s: State, e: Event): Option<State>
    requires e.body.OperationLinked?
  {
    var b := e.body;
    if b.turn !in s.turns || b.operation in s.operations then None
    else
      var t := s.turns[b.turn];
      var x := if b.call in t.executions && t.executions[b.call] in s.invocations then Some(s.invocations[t.executions[b.call]]) else None;
      if x.Some? && (x.value.outcome.None? || x.value.outcome.value.operation != Some(b.operation)) then None
      else Some(s.(operations := s.operations + [b.operation]))
  }

  // ---------------------------------------------------------------- compactions

  predicate Duplicates(s: State, c: Seen) {
    exists i :: 0 <= i < |s.compactions| &&
      (s.compactions[i].compaction == c.compaction || s.compactions[i].checkpoint == c.checkpoint
       || (s.compactions[i].turn == c.turn && s.compactions[i].context == c.context && s.compactions[i].sources == c.sources))
  }

  function ApplyContextCompacted(k: Env, s: State, e: Event): Option<State>
    requires e.body.ContextCompacted?
  {
    var b := e.body;
    if b.turn !in s.turns then None
    else
      var t := s.turns[b.turn];
      var c := Seen(b.compaction, b.checkpoint, b.turn, true, B.Ids(b.record.sources));
      if Duplicates(s, c) || t.request.Some? || t.contextCompaction.Some? || b.record.sources == [] then None
      else if !B.LineageOk(DurableHistory(k, s, s.order, b.turn), b.record) then None
      else Some(s.(turns := s.turns[b.turn := t.(contextCompaction := Some(ContextCompaction(e.id, b.provenance, b.record)))],
                   compactions := s.compactions + [c]))
  }

  function OutcomeSources(k: Env, xs: seq<Execution>): (r: seq<Source>)
    ensures |r| == |xs|
  {
    seq(|xs|, i requires 0 <= i < |xs| =>
      Source(if xs[i].completedEvent.Some? then xs[i].completedEvent.value else "", xs[i].completedSequence, OutcomeMessage(k, xs[i])))
  }

  function ApplyToolsCompacted(k: Env, s: State, e: Event): Option<State>
    requires e.body.ToolsCompacted?
  {
    var b := e.body;
    if b.turn !in s.turns then None
    else
      var t := s.turns[b.turn];
      var c := Seen(b.compaction, b.checkpoint, b.turn, false, SourceIds(b.results));
      if Duplicates(s, c) || t.steps == [] || !AsksForTools(t.steps[|t.steps| - 1]) then None
      else
        var calls := AssembledCalls(k, t.steps[|t.steps| - 1].events);
        if calls.None? then None
        else
          var xs := ExecutionsOf(s, t, calls.value);
          if xs.None? || b.results != OutcomeSources(k, xs.value) || |b.replacement| != |calls.value|
            || (exists i :: 0 <= i < |calls.value| && !(b.replacement[i].ToolResult? && b.replacement[i].call == calls.value[i].id))
          then None
          else if t.request.Some? && t.budget != Some(b.provenance) then None
          else Some(s.(turns := s.turns[b.turn := t.(toolCompactions := t.toolCompactions + [ToolCompaction(e.id, b.results, b.replacement)])],
                       compactions := s.compactions + [c]))
  }

  // ---------------------------------------------------------------- children and workflows

  function ApplyChildAttached(s: State, e: Event): Option<State>
    requires e.body.ChildAttached?
  {
    var c := e.body.child;
    if s.spec.None? || c == e.session || c in s.children || |s.children| >= s.spec.value.limits.children then None
    else Some(s.(children := s.children + [c]))
  }

  /** The steps of the reservations, in order. */
  function ReservedSteps(s: State, ids: seq<Id>): nat {
    if ids == [] then 0
    else
      var n := |ids| - 1;
      ReservedSteps(s, ids[..n]) + (if ids[n] in s.reservations then s.reservations[ids[n]].stepCount else 0)
  }

  /** Steps of checkpoints without a reservation. */
  function LegacySteps(s: State, cs: seq<Checkpoint>): nat {
    if cs == [] then 0
    else
      var n := |cs| - 1;
      var c := cs[n];
      LegacySteps(s, cs[..n])
        + (if c.workflow in s.reservations then 0 else if c.steps.Some? && c.steps.value != [] then |c.steps.value| else 1)
  }

  function NewChildren(s: State, ids: seq<Id>): nat {
    if ids == [] then 0 else NewChildren(s, ids[1..]) + (if ids[0] in s.children then 0 else 1)
  }

  predicate Active(r: Reservation) { r.released.None? }

  function ApplyReserved(s: State, e: Event): Option<State>
    requires e.body.Reserved?
  {
    var b := e.body;
    if s.spec.None? || b.stepCount == 0 || b.stepCount != |b.children| || !Distinct(b.children) || b.workflow in s.reservations then None
    else if ReservedSteps(s, s.reserved) + LegacySteps(s, s.checkpoints) + b.stepCount > s.spec.value.limits.workflowSteps then None
    else if |s.children| + NewChildren(s, b.children) > s.spec.value.limits.children then None
    else if exists w :: w in s.reservations && Active(s.reservations[w]) then None
    else
      var r := Reservation(b.workflow, b.definition, b.claim, b.claimExpires, e.id, b.stepCount, b.children, None);
      Some(s.(reservations := s.reservations[b.workflow := r], reserved := s.reserved + [b.workflow]))
  }

  function ApplyReclaimed(s: State, e: Event): Option<State>
    requires e.body.Reclaimed?
  {
    var b := e.body;
    if b.workflow !in s.reservations then None
    else
      var r := s.reservations[b.workflow];
      if r.released.Some? || r.definition != b.definition || r.claimEvent != b.priorEvent || e.at <= r.claimExpires then None
      else Some(s.(reservations := s.reservations[b.workflow := r.(claim := b.claim, claimExpires := b.claimExpires, claimEvent := e.id)]))
  }

  function ApplyReleased(s: State, e: Event): Option<State>
    requires e.body.Released?
  {
    var b := e.body;
    if b.workflow !in s.reservations then None
    else
      var r := s.reservations[b.workflow];
      if r.released.Some? || r.definition != b.definition || r.claimEvent != b.claimEvent then None
      else Some(s.(reservations := s.reservations[b.workflow := r.(released := Some(b.status))]))
  }

  /** Steps checkpointed by phases of one workflow. */
  function PhaseSteps(cs: seq<Checkpoint>, workflow: Id): nat {
    if cs == [] then 0
    else
      var n := |cs| - 1;
      PhaseSteps(cs[..n], workflow) + (if cs[n].workflow == workflow && cs[n].steps.Some? then |cs[n].steps.value| else 0)
  }

  /** A released workflow still takes phases under its last claim. */
  function ApplyPhase(s: State, e: Event): Option<State>
    requires e.body.PhaseCheckpointed?
  {
    var b := e.body;
    if b.workflow !in s.reservations || s.reservations[b.workflow].claimEvent != b.claimEvent then None
    else if b.steps == [] || |b.steps| != |b.children| || !Distinct(b.steps) || !Distinct(b.children) then None
    else if exists i :: 0 <= i < |b.children| && b.children[i] !in s.children then None
    else
      var w := if b.workflow in s.workflows then s.workflows[b.workflow] else Workflow(b.definition, []);
      if w.definition != b.definition || b.phase in w.phases then None
      else if PhaseSteps(s.checkpoints, b.workflow) + |b.steps| > s.reservations[b.workflow].stepCount then None
      else Some(s.(workflows := s.workflows[b.workflow := w.(phases := w.phases + [b.phase])],
                   checkpoints := s.checkpoints + [Checkpoint(b.workflow, Some(b.steps), e.id)]))
  }

  // ---------------------------------------------------------------- endings

  predicate StepsEnded(t: Turn) { forall i :: 0 <= i < |t.steps| ==> HasEnd(t.steps[i].events) }

  predicate LegacyOpen(t: Turn) { t.steps == [] && t.events != [] && !HasEnd(t.events) }

  /** `assertStartedWorkSettled` */
  predicate Settled(s: State) {
    && (forall t :: t in s.turns ==> StepsEnded(s.turns[t]) && !LegacyOpen(s.turns[t]))
    && (forall x :: x in s.invocations ==> s.invocations[x].outcome.Some?)
  }

  function FirstEnd(events: seq<ModelEvent>): Option<ModelEvent> {
    if events == [] then None else if Ends(events[0]) then Some(events[0]) else FirstEnd(events[1..])
  }

  predicate Stopped(s: State) {
    s.order != [] && s.order[|s.order| - 1] in s.turns
    && var t := s.turns[s.order[|s.order| - 1]];
       var last := FirstEnd(if t.steps != [] then t.steps[|t.steps| - 1].events else t.events);
       last.Some? && last.value.kind.Completed? && last.value.kind.reason == Stop
  }

  function ApplyEnding(s: State, e: Event): Option<State>
    requires e.body.SessionCancelled? || e.body.SessionFailed? || e.body.SessionCompleted?
  {
    if !Settled(s) then None
    else match e.body
      case SessionCancelled(reason, cascade) =>
        if s.cancellation.None? || s.cancellation.value.source == ByDeadline
          || reason != s.cancellation.value.reason || cascade != s.cancellation.value.cascade
        then None
        else Some(s.(ending := Some(EndCancelled)))
      case SessionFailed(_, _) => Some(s.(ending := Some(EndFailed)))
      case _ => if !Stopped(s) then None else Some(s.(ending := Some(EndCompleted)))
  }

  // ---------------------------------------------------------------- the fold

  function ApplyBody(k: Env, s: State, e: Event): Option<State> {
    match e.body
    case Created(spec) => if spec.session != e.session then None else Some(s.(spec := Some(spec)))
    case Forked(parent, _) =>
      if e.sequence != 2 || s.forked || s.spec.None? || s.spec.value.parent != Some(parent) then None else Some(s.(forked := true))
    case Resumed(from) => if from != e.sequence - 1 then None else Some(s)
    case TurnStarted(_, _) => ApplyTurnStarted(s, e)
    case Assembled(_, _, _, _, _) => ApplyAssembled(k, s, e)
    case StepStarted(_, _, _, _) => ApplyStepStarted(k, s, e)
    case Streamed(_, _, _, _) => ApplyStreamed(s, e)
    case ToolStarted(_, _, _, _, _, _) => ApplyToolStarted(k, s, e)
    case ToolCompleted(_, _, _) => ApplyToolCompleted(s, e)
    case OperationLinked(_, _, _) => ApplyOperationLinked(s, e)
    case ContextCompacted(_, _, _, _, _) => ApplyContextCompacted(k, s, e)
    case ToolsCompacted(_, _, _, _, _, _) => ApplyToolsCompacted(k, s, e)
    case ChildAttached(_) => ApplyChildAttached(s, e)
    case SubagentRequested => if s.subagent || s.order != [] then None else Some(s.(subagent := true))
    case Reserved(_, _, _, _, _, _) => ApplyReserved(s, e)
    case Reclaimed(_, _, _, _, _) => ApplyReclaimed(s, e)
    case Released(_, _, _, _) => ApplyReleased(s, e)
    case LegacyCheckpointed(w) => Some(s.(checkpoints := s.checkpoints + [Checkpoint(w, None, e.id)]))
    case PhaseCheckpointed(_, _, _, _, _, _) => ApplyPhase(s, e)
    case CancelRequested(c) => if s.cancellation.Some? then None else Some(s.(cancellation := Some(c)))
    case SessionCancelled(_, _) => ApplyEnding(s, e)
    case SessionFailed(_, _) => ApplyEnding(s, e)
    case SessionCompleted(_) => ApplyEnding(s, e)
  }

  function Admit(s: State, e: Event): Result<(), Error> {
    if e.sequence != s.current + 1 then Err(BadSequence)
    else if s.session.Some? && s.session.value != e.session then Err(BadIdentity)
    else if s.ending.Some? then Err(AlreadyTerminal)
    else if (e.sequence == 1) != e.body.Created? then Err(BadCreation)
    else Ok(())
  }

  function Enter(s: State, e: Event): State { s.(session := Some(e.session), current := e.sequence) }

  /** One turn of the replay loop. */
  function Apply(k: Env, s: State, e: Event): Result<State, Error> {
    var _ :- Admit(s, e);
    var t := ApplyBody(k, Enter(s, e), e);
    if t.None? then Err(Refused) else Ok(t.value.(seen := t.value.seen + {e.id}))
  }

  /** `replaySessionEvents` */
  function Replay(k: Env, log: seq<Event>): Result<State, Error>
    decreases |log|
  {
    if log == [] then Ok(Start)
    else
      var s :- Replay(k, log[..|log| - 1]);
      Apply(k, s, log[|log| - 1])
  }

  predicate Accepted(k: Env, log: seq<Event>) { Replay(k, log).Ok? }

  lemma {:induction false} ReplayPush(k: Env, log: seq<Event>, e: Event)
    ensures Replay(k, log + [e]) == match Replay(k, log) case Ok(s) => Apply(k, s, e) case Err(x) => Err(x)
  {
    assert (log + [e])[..|log + [e]| - 1] == log;
  }

  /** `Replay(k, log) == Ok(z)`, whatever `depth` is (`ReachesIs`).  The recursion bounds nothing: it only
      keeps the equation from being unfolded where just the states matter. */
  ghost predicate Reaches(k: Env, log: seq<Event>, z: State, depth: nat) {
    if depth > 0 then Reaches(k, log, z, depth - 1) else Replay(k, log) == Ok(z)
  }

  /** The depth at which these two predicates are used; any number would do. */
  const SEAL: nat := 8

  lemma {:induction false} ReachesIs(k: Env, log: seq<Event>, z: State, depth: nat)
    ensures Reaches(k, log, z, depth) <==> Replay(k, log) == Ok(z)
  {
    if depth > 0 { ReachesIs(k, log, z, depth - 1); }
  }

  lemma ReachPush(k: Env, log: seq<Event>, s: State, e: Event, z: State)
    requires Reaches(k, log, s, SEAL) && Apply(k, s, e) == Ok(z)
    ensures Reaches(k, log + [e], z, SEAL)
  {
    ReachesIs(k, log, s, SEAL);
    ReplayPush(k, log, e);
    ReachesIs(k, log + [e], z, SEAL);
  }

  /** `Replay(k, log) == Err(x)`, likewise. */
  ghost predicate Refuses(k: Env, log: seq<Event>, x: Error, depth: nat) {
    if depth > 0 then Refuses(k, log, x, depth - 1) else Replay(k, log) == Err(x)
  }

  lemma {:induction false} RefusesIs(k: Env, log: seq<Event>, x: Error, depth: nat)
    ensures Refuses(k, log, x, depth) <==> Replay(k, log) == Err(x)
  {
    if depth > 0 { RefusesIs(k, log, x, depth - 1); }
  }

  lemma RefusePush(k: Env, log: seq<Event>, s: State, e: Event, x: Error)
    requires Reaches(k, log, s, SEAL) && Apply(k, s, e) == Err(x)
    ensures Refuses(k, log + [e], x, SEAL)
  {
    ReachesIs(k, log, s, SEAL);
    ReplayPush(k, log, e);
    RefusesIs(k, log + [e], x, SEAL);
  }
}
