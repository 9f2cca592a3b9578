/** Where the durable facts of a session's state come from: the rows of its log.  On a ledger an event
    id is given to one row only, so what a fact points to is that row. */
module SessionRows {
  import opened Outcomes
  import opened SessionFold
  import opened SessionStream
  import B = ContextBudget

  // ---------------------------------------------------------------- the ledger

  ghost predicate UniqueIds(log: seq<Event>) { forall i, j :: 0 <= i < j < |log| ==> log[i].id != log[j].id }

  /** What a session's stream on the ledger can hold: it folds, and each event has its own id. */
  ghost predicate Stored(k: Env, log: seq<Event>) { Accepted(k, log) && UniqueIds(log) }

  /** The ledger takes an event that folds, under an id it has not seen. */
  predicate Takes(k: Env, s: State, e: Event) { Apply(k, s, e).Ok? && e.id !in s.seen }

  lemma {:induction false} SeenIds(k: Env, log: seq<Event>)
    requires Accepted(k, log)
    ensures forall id :: id in Replay(k, log).value.seen <==> exists p :: RowOf(log, p, id)
    decreases |log|
  {
    if log != [] {
      var n := |log| - 1;
      SeenIds(k, log[..n]);
      EveryStateOk(k, log[..n]);
      SeenPush(k, Replay(k, log[..n]).value, log[n], log[..n], log);
    }
  }

  lemma SeenPush(k: Env, s: State, e: Event, log: seq<Event>, all: seq<Event>)
    requires StateOk(s) && HeadOk(s, |log|) && Apply(k, s, e).Ok?
    requires |all| == |log| + 1 && all[..|log|] == log && all[|log|] == e
    requires forall id :: id in s.seen <==> exists p :: RowOf(log, p, id)
    ensures forall id :: id in Apply(k, s, e).value.seen <==> exists p :: RowOf(all, p, id)
  {
    ApplyKeeps(k, s, e, |log|);
    forall id | id in s.seen + {e.id} ensures exists p :: RowOf(all, p, id) {
      if id in s.seen {
        var p :| RowOf(log, p, id);
        assert RowOf(all, p, id);
      } else {
        assert RowOf(all, |log|, id);
      }
    }
    forall id, p | RowOf(all, p, id) ensures id in s.seen + {e.id} {
      if p < |log| { assert RowOf(log, p, id); }
    }
  }

  /** A stream grows by what the ledger takes, and by nothing else. */
  lemma StoredPush(k: Env, log: seq<Event>, e: Event)
    requires Accepted(k, log)
    ensures Stored(k, log + [e]) <==> Stored(k, log) && Takes(k, Replay(k, log).value, e)
  {
    ReplayPush(k, log, e);
    SeenIds(k, log);
    var all, n := log + [e], |log|;
    if e.id in Replay(k, log).value.seen {
      var p :| RowOf(log, p, e.id);
      assert all[p].id == all[n].id;
      assert !UniqueIds(all);
    } else if UniqueIds(log) {
      forall i, j | 0 <= i < j < |all| ensures all[i].id != all[j].id {
        if j == n { assert RowOf(log, i, log[i].id); }
      }
    } else {
      var i, j :| 0 <= i < j < n && log[i].id == log[j].id;
      assert all[i].id == all[j].id;
      assert !UniqueIds(all);
    }
  }

  // ---------------------------------------------------------------- rows

  predicate RowOf(log: seq<Event>, p: int, id: Id) { 0 <= p < |log| && log[p].id == id }

  ghost predicate StreamRow(log: seq<Event>, id: Id) { exists p :: RowOf(log, p, id) && log[p].body.Streamed? }

  ghost predicate CompactionRow(log: seq<Event>, id: Id) { exists p :: RowOf(log, p, id) && log[p].body.ToolsCompacted? }

  /** The row in which an execution was completed. */
  ghost predicate CompletedRow(log: seq<Event>, id: Id, x: Id) {
    exists p :: RowOf(log, p, id) && log[p].body.ToolCompleted? && log[p].body.outcome.invocation == x
  }

  /** With unique ids, rows of different kinds have different ids. */
  lemma RowsApart(log: seq<Event>, a: Id, b: Id, x: Id, y: Id)
    requires UniqueIds(log)
    ensures StreamRow(log, a) && CompactionRow(log, b) ==> a != b
    ensures StreamRow(log, a) && CompletedRow(log, b, x) ==> a != b
    ensures CompactionRow(log, a) && CompletedRow(log, b, x) ==> a != b
    ensures CompletedRow(log, a, x) && CompletedRow(log, b, y) && x != y ==> a != b
  {
  }

  lemma RowsStay(log: seq<Event>, all: seq<Event>, id: Id, x: Id)
    requires log <= all
    ensures StreamRow(log, id) ==> StreamRow(all, id)
    ensures CompactionRow(log, id) ==> CompactionRow(all, id)
    ensures CompletedRow(log, id, x) ==> CompletedRow(all, id, x)
  {
    if StreamRow(log, id) {
      var p :| RowOf(log, p, id) && log[p].body.Streamed?;
      assert RowOf(all, p, id) && all[p] == log[p];
    }
    if CompactionRow(log, id) {
      var p :| RowOf(log, p, id) && log[p].body.ToolsCompacted?;
      assert RowOf(all, p, id) && all[p] == log[p];
    }
    if CompletedRow(log, id, x) {
      var p :| RowOf(log, p, id) && log[p].body.ToolCompleted? && log[p].body.outcome.invocation == x;
      assert RowOf(all, p, id) && all[p] == log[p];
    }
  }

  // ---------------------------------------------------------------- what a turn holds

  /** The turn's input and its stream stand in the log where the turn says. */
  ghost predicate TurnPlaced(log: seq<Event>, id: Id, t: Turn) {
    && t.input.role == B.User
    && RowOf(log, t.inputSequence - 1, t.inputEvent) && log[t.inputSequence - 1].body.TurnStarted? && log[t.inputSequence - 1].body.turn == id
    && |t.eventIds| == |t.events| == |t.eventSequences|
    && (forall i :: 0 <= i < |t.eventIds| ==> Placed(log, id, t.eventIds[i], t.eventSequences[i]))
  }

  predicate Placed(log: seq<Event>, turn: Id, id: Id, sequence: int) {
    RowOf(log, sequence - 1, id) && log[sequence - 1].body.Streamed? && log[sequence - 1].body.turn == turn
  }

  /** Its requests are for the session's provider and model. */
  ghost predicate TurnServed(s: State, t: Turn) {
    && (t.request.Some? ==> Serves(s, t.request.value))
    && (forall i :: 0 <= i < |t.steps| ==> Serves(s, t.steps[i].request))
  }

  predicate Serves(s: State, r: Request) { s.spec.Some? && r.provider == s.spec.value.provider && r.model == s.spec.value.model }

  ghost predicate Compacted(s: State, id: Id, ids: seq<Id>) {
    exists i :: 0 <= i < |s.compactions| && s.compactions[i].turn == id && !s.compactions[i].context && s.compactions[i].sources == ids
  }

  /** Its tool compactions are known to the session, and no two are of the same outcomes. */
  ghost predicate TurnCompactions(s: State, id: Id, t: Turn) {
    && (forall i :: 0 <= i < |t.toolCompactions| ==> Compacted(s, id, SourceIds(t.toolCompactions[i].sources)))
    && (forall i, j :: 0 <= i < j < |t.toolCompactions| ==> SourceIds(t.toolCompactions[i].sources) != SourceIds(t.toolCompactions[j].sources))
  }

  ghost predicate TurnEnds(log: seq<Event>, t: Turn) {
    && (forall i :: 0 <= i < |t.steps| && t.steps[i].terminal.Some? ==> StreamRow(log, t.steps[i].terminal.value))
    && (forall i :: 0 <= i < |t.toolCompactions| ==> CompactionRow(log, t.toolCompactions[i].event))
  }

  ghost predicate TurnRows(s: State, log: seq<Event>, id: Id, t: Turn) {
    TurnPlaced(log, id, t) && TurnServed(s, t) && TurnCompactions(s, id, t) && TurnEnds(log, t)
  }

  ghost predicate ToolRows(s: State, log: seq<Event>) {
    forall x :: x in s.invocations && s.invocations[x].completedEvent.Some? ==> CompletedRow(log, s.invocations[x].completedEvent.value, x)
  }

  ghost predicate Rows(s: State, log: seq<Event>) {
    && (forall id :: id in s.turns ==> TurnRows(s, log, id, s.turns[id]))
    && ToolRows(s, log)
    && Distinct(s.order)
  }

  // ---------------------------------------------------------------- one more event

  lemma TurnRowsStay(s: State, z: State, log: seq<Event>, all: seq<Event>, id: Id, t: Turn)
    requires TurnRows(s, log, id, t) && log <= all && s.compactions <= z.compactions && (s.spec.Some? ==> z.spec == s.spec)
    ensures TurnRows(z, all, id, t)
  {
    forall i | 0 <= i < |t.toolCompactions|
      ensures Compacted(z, id, SourceIds(t.toolCompactions[i].sources)) && CompactionRow(all, t.toolCompactions[i].event)
    {
      var ids := SourceIds(t.toolCompactions[i].sources);
      assert Compacted(s, id, ids);
      var j :| 0 <= j < |s.compactions| && s.compactions[j].turn == id && !s.compactions[j].context && s.compactions[j].sources == ids;
      assert z.compactions[j] == s.compactions[j];
      RowsStay(log, all, t.toolCompactions[i].event, "");
    }
    forall i | 0 <= i < |t.steps| && t.steps[i].terminal.Some? ensures StreamRow(all, t.steps[i].terminal.value) {
      RowsStay(log, all, t.steps[i].terminal.value, "");
    }
    forall i | 0 <= i < |t.eventIds| ensures Placed(all, id, t.eventIds[i], t.eventSequences[i]) {
      assert Placed(log, id, t.eventIds[i], t.eventSequences[i]);
    }
    forall i | 0 <= i < |t.steps| ensures Serves(z, t.steps[i].request) { assert Serves(s, t.steps[i].request); }
  }

  lemma ToolRowsStay(s: State, z: State, log: seq<Event>, all: seq<Event>)
    requires ToolRows(s, log) && log <= all && z.invocations == s.invocations
    ensures ToolRows(z, all)
  {
    forall x | x in z.invocations && z.invocations[x].completedEvent.Some? ensures CompletedRow(all, z.invocations[x].completedEvent.value, x) {
      RowsStay(log, all, s.invocations[x].completedEvent.value, x);
    }
  }

  /** One turn is new or changed. */
  lemma TurnRowsMore(s: State, z: State, log: seq<Event>, all: seq<Event>, id: Id, t: Turn)
    requires Rows(s, log) && log <= all && s.compactions <= z.compactions && z.spec == s.spec
    requires z.turns == s.turns[id := t] && TurnRows(z, all, id, t)
    ensures forall x :: x in z.turns ==> TurnRows(z, all, x, z.turns[x])
  {
    forall x | x in z.turns ensures TurnRows(z, all, x, z.turns[x]) {
      if x != id { TurnRowsStay(s, z, log, all, x, s.turns[x]); }
    }
  }

  /** Nothing of turns or tools has changed. */
  lemma AsideRows(s: State, z: State, log: seq<Event>, all: seq<Event>)
    requires Rows(s, log) && log <= all && SameWork(s, z) && (s.spec.Some? ==> z.spec == s.spec)
    ensures Rows(z, all)
  {
    forall x | x in z.turns ensures TurnRows(z, all, x, z.turns[x]) { TurnRowsStay(s, z, log, all, x, s.turns[x]); }
    ToolRowsStay(s, z, log, all);
  }

  /** Event `e`, not yet counted, is the next row. */
  ghost predicate NextRow(s: State, log: seq<Event>, e: Event, all: seq<Event>) {
    && all == log + [e] && e.sequence == |all| && s.spec.Some?
    && StateOk(s) && Rows(s, log)
  }

  lemma TurnStartedRows(s: State, log: seq<Event>, e: Event, all: seq<Event>)
    requires NextRow(s, log, e, all) && e.body.TurnStarted? && ApplyTurnStarted(s, e).Some?
    ensures Rows(ApplyTurnStarted(s, e).value, all)
  {
    var z, id := ApplyTurnStarted(s, e).value, e.body.turn;
    assert RowOf(all, |log|, e.id);
    TurnRowsMore(s, z, log, all, id, z.turns[id]);
    ToolRowsStay(s, z, log, all);
  }

  /** One turn changed, in a way that keeps what it says of rows. */
  lemma TurnChangedRows(s: State, z: State, log: seq<Event>, all: seq<Event>, id: Id, t: Turn)
    requires Rows(s, log) && log <= all && id in s.turns && z.turns == s.turns[id := t]
    requires z.invocations == s.invocations && s.compactions <= z.compactions && z.order == s.order && z.spec == s.spec
    requires TurnRows(z, all, id, s.turns[id]) ==> TurnRows(z, all, id, t)
    ensures Rows(z, all)
  {
    TurnRowsStay(s, z, log, all, id, s.turns[id]);
    TurnRowsMore(s, z, log, all, id, t);
    ToolRowsStay(s, z, log, all);
  }

  lemma AssembledIs(k: Env, s: State, e: Event)
    requires e.body.Assembled? && ApplyAssembled(k, s, e).Some?
    ensures var b := e.body;
      && b.turn in s.turns && s.spec.Some? && b.request.provider == s.spec.value.provider && b.request.model == s.spec.value.model
      && ApplyAssembled(k, s, e).value
         == s.(turns := s.turns[b.turn := s.turns[b.turn].(request := Some(b.request), requestEvent := e.id, budget := b.budget)])
  {
  }

  lemma AssembledRows(k: Env, s: State, log: seq<Event>, e: Event, all: seq<Event>)
    requires NextRow(s, log, e, all) && e.body.Assembled? && ApplyAssembled(k, s, e).Some?
    ensures Rows(ApplyAssembled(k, s, e).value, all)
  {
    AssembledIs(k, s, e);
    RequestRows(s, log, e, all);
  }

  lemma RequestRows(s: State, log: seq<Event>, e: Event, all: seq<Event>)
    requires Rows(s, log) && log <= all && e.body.Assembled? && e.body.turn in s.turns
    requires s.spec.Some? && e.body.request.provider == s.spec.value.provider && e.body.request.model == s.spec.value.model
    ensures var b := e.body;
      Rows(s.(turns := s.turns[b.turn := s.turns[b.turn].(request := Some(b.request), requestEvent := e.id, budget := b.budget)]), all)
  {
    var t := s.turns[e.body.turn].(request := Some(e.body.request), requestEvent := e.id, budget := e.body.budget);
    TurnChangedRows(s, s.(turns := s.turns[e.body.turn := t]), log, all, e.body.turn, t);
  }

  lemma StepStartedIs(k: Env, s: State, e: Event)
    requires e.body.StepStarted? && ApplyStepStarted(k, s, e).Some?
    ensures var b := e.body;
      && b.turn in s.turns && s.spec.Some? && b.request.provider == s.spec.value.provider && b.request.model == s.spec.value.model
      && ApplyStepStarted(k, s, e).value == StartStep(s, e, s.turns[b.turn])
  {
  }

  lemma StepStartedRows(k: Env, s: State, log: seq<Event>, e: Event, all: seq<Event>)
    requires NextRow(s, log, e, all) && e.body.StepStarted? && ApplyStepStarted(k, s, e).Some?
    ensures Rows(ApplyStepStarted(k, s, e).value, all)
  {
    StepStartedIs(k, s, e);
    StartRows(s, log, e, all);
  }

  lemma StartRows(s: State, log: seq<Event>, e: Event, all: seq<Event>)
    requires Rows(s, log) && log <= all && e.body.StepStarted? && e.body.turn in s.turns
    requires s.spec.Some? && e.body.request.provider == s.spec.value.provider && e.body.request.model == s.spec.value.model
    ensures Rows(StartStep(s, e, s.turns[e.body.turn]), all)
  {
    var step := ModelStep(e.body.step, e.body.request, e.id, e.body.sources, [], [], 2, None);
    var t := s.turns[e.body.turn];
    TurnChangedRows(s, StartStep(s, e, t), log, all, e.body.turn, t.(steps := t.steps + [step]));
  }

  lemma StreamedIs(s: State, e: Event)
    requires e.body.Streamed? && ApplyStreamed(s, e).Some?
    ensures e.body.turn in s.turns
    ensures var t := s.turns[e.body.turn];
      match e.body.target
      case None => ApplyStreamed(s, e).value == s.(turns := s.turns[e.body.turn := RecordStream(t, e)])
      case Some(step) =>
        var i := StepIndex(t.steps, step);
        i >= 0 && ApplyStreamed(s, e).value
          == s.(turns := s.turns[e.body.turn := RecordStream(t, e).(steps := t.steps[i := PushEvent(t.steps[i], e.body.event, e.id)])])
  {
  }

  lemma StreamedRows(s: State, log: seq<Event>, e: Event, all: seq<Event>)
    requires NextRow(s, log, e, all) && e.body.Streamed? && ApplyStreamed(s, e).Some?
    ensures Rows(ApplyStreamed(s, e).value, all)
  {
    StreamedIs(s, e);
    var id := e.body.turn;
    var t := s.turns[id];
    assert RowOf(all, |log|, e.id) && StreamRow(all, e.id);
    TurnRowsStay(s, s, log, all, id, t);
    RecordPlaced(log, all, id, t, e);
    var next := if e.body.target.None? then RecordStream(t, e) else
      var i := StepIndex(t.steps, e.body.target.value); RecordStream(t, e).(steps := t.steps[i := PushEvent(t.steps[i], e.body.event, e.id)]);
    var z := s.(turns := s.turns[id := next]);
    TurnRowsStay(s, z, log, all, id, t);
    if e.body.target.Some? {
      StepRows(z, all, id, t, StepIndex(t.steps, e.body.target.value), e);
    }
    TurnChangedRows(s, z, log, all, id, next);
  }

  lemma RecordPlaced(log: seq<Event>, all: seq<Event>, id: Id, t: Turn, e: Event)
    requires all == log + [e] && e.sequence == |all| && e.body.Streamed? && e.body.turn == id && TurnPlaced(all, id, t)
    ensures TurnPlaced(all, id, RecordStream(t, e))
  {
    var z := RecordStream(t, e);
    forall i | 0 <= i < |z.eventIds| ensures Placed(all, id, z.eventIds[i], z.eventSequences[i]) {
      if i < |t.eventIds| { assert Placed(all, id, t.eventIds[i], t.eventSequences[i]); }
    }
  }

  lemma StepRows(z: State, all: seq<Event>, id: Id, t: Turn, i: nat, e: Event)
    requires i < |t.steps| && e.body.Streamed? && TurnRows(z, all, id, t) && StreamRow(all, e.id) && TurnPlaced(all, id, RecordStream(t, e))
    ensures TurnRows(z, all, id, RecordStream(t, e).(steps := t.steps[i := PushEvent(t.steps[i], e.body.event, e.id)]))
  {
  }

  lemma ToolStartedIs(k: Env, s: State, e: Event)
    requires e.body.ToolStarted? && ApplyToolStarted(k, s, e).Some?
    ensures var b := e.body;
      && b.turn in s.turns && b.invocation !in s.invocations
      && ApplyToolStarted(k, s, e).value
         == s.(turns := s.turns[b.turn := s.turns[b.turn].(executions := s.turns[b.turn].executions[b.call := b.invocation])],
               invocations := s.invocations[b.invocation := Execution(b.invocation, b.turn, b.step, b.call, b.name, b.arguments, e.id, None, None, 0)])
  {
  }

  /** The calls of a turn say nothing of rows. */
  lemma ExecutionsRows(s: State, z: State, log: seq<Event>, all: seq<Event>, id: Id, executions: map<Id, Id>)
    requires Rows(s, log) && log <= all && id in s.turns && z.turns == s.turns[id := s.turns[id].(executions := executions)]
    requires z.compactions == s.compactions && z.spec == s.spec
    ensures forall x :: x in z.turns ==> TurnRows(z, all, x, z.turns[x])
  {
    TurnRowsStay(s, z, log, all, id, s.turns[id]);
    TurnRowsMore(s, z, log, all, id, z.turns[id]);
  }

  lemma ToolStartedRows(k: Env, s: State, log: seq<Event>, e: Event, all: seq<Event>)
    requires NextRow(s, log, e, all) && e.body.ToolStarted? && ApplyToolStarted(k, s, e).Some?
    ensures Rows(ApplyToolStarted(k, s, e).value, all)
  {
    ToolStartedIs(k, s, e);
    var z := ApplyToolStarted(k, s, e).value;
    ExecutionsRows(s, z, log, all, e.body.turn, z.turns[e.body.turn].executions);
    forall x | x in z.invocations && z.invocations[x].completedEvent.Some? ensures CompletedRow(all, z.invocations[x].completedEvent.value, x) {
      if x != e.body.invocation { RowsStay(log, all, s.invocations[x].completedEvent.value, x); }
    }
  }

  lemma ToolCompletedRows(s: State, log: seq<Event>, e: Event, all: seq<Event>)
    requires NextRow(s, log, e, all) && e.body.ToolCompleted? && ApplyToolCompleted(s, e).Some?
    ensures Rows(ApplyToolCompleted(s, e).value, all)
  {
    var z, id := ApplyToolCompleted(s, e).value, e.body.turn;
    ExecutionsRows(s, z, log, all, id, z.turns[id].executions);
    var o := e.body.outcome.invocation;
    assert ExecutionOk(s, o, s.invocations[o]);
    OutcomeRows(s, z, log, e, all);
  }

  lemma OutcomeRows(s: State, z: State, log: seq<Event>, e: Event, all: seq<Event>)
    requires ToolRows(s, log) && all == log + [e] && e.body.ToolCompleted?
    requires var o := e.body.outcome.invocation;
      o in z.invocations && z.invocations == s.invocations[o := z.invocations[o]] && z.invocations[o].completedEvent == Some(e.id)
    ensures ToolRows(z, all)
  {
    assert RowOf(all, |log|, e.id);
    forall x | x in z.invocations && z.invocations[x].completedEvent.Some? ensures CompletedRow(all, z.invocations[x].completedEvent.value, x) {
      if x != e.body.outcome.invocation { RowsStay(log, all, s.invocations[x].completedEvent.value, x); }
    }
  }

  lemma ContextCompactedIs(k: Env, s: State, e: Event)
    requires e.body.ContextCompacted? && ApplyContextCompacted(k, s, e).Some?
    ensures var b := e.body;
      && b.turn in s.turns
      && ApplyContextCompacted(k, s, e).value
         == s.(turns := s.turns[b.turn := s.turns[b.turn].(contextCompaction := Some(ContextCompaction(e.id, b.provenance, b.record)))],
               compactions := s.compactions + [Seen(b.compaction, b.checkpoint, b.turn, true, B.Ids(b.record.sources))])
  {
  }

  lemma ContextCompactedRows(k: Env, s: State, log: seq<Event>, e: Event, all: seq<Event>)
    requires NextRow(s, log, e, all) && e.body.ContextCompacted? && ApplyContextCompacted(k, s, e).Some?
    ensures Rows(ApplyContextCompacted(k, s, e).value, all)
  {
    ContextCompactedIs(k, s, e);
    SummaryRows(s, log, e, all);
  }

  lemma SummaryRows(s: State, log: seq<Event>, e: Event, all: seq<Event>)
    requires Rows(s, log) && log <= all && e.body.ContextCompacted? && e.body.turn in s.turns
    ensures var b := e.body;
      Rows(s.(turns := s.turns[b.turn := s.turns[b.turn].(contextCompaction := Some(ContextCompaction(e.id, b.provenance, b.record)))],
              compactions := s.compactions + [Seen(b.compaction, b.checkpoint, b.turn, true, B.Ids(b.record.sources))]), all)
  {
    var b := e.body;
    var t := s.turns[b.turn].(contextCompaction := Some(ContextCompaction(e.id, b.provenance, b.record)));
    var z := s.(turns := s.turns[b.turn := t],
                compactions := s.compactions + [Seen(b.compaction, b.checkpoint, b.turn, true, B.Ids(b.record.sources))]);
    TurnChangedRows(s, z, log, all, b.turn, t);
  }

  lemma ToolsCompactedIs(k: Env, s: State, e: Event)
    requires e.body.ToolsCompacted? && ApplyToolsCompacted(k, s, e).Some?
    ensures var b := e.body;
      && b.turn in s.turns && !Compacted(s, b.turn, SourceIds(b.results))
      && ApplyToolsCompacted(k, s, e).value
         == s.(turns := s.turns[b.turn := WithCompaction(s.turns[b.turn], ToolCompaction(e.id, b.results, b.replacement))],
               compactions := s.compactions + [Seen(b.compaction, b.checkpoint, b.turn, false, SourceIds(b.results))])
  {
  }

  function WithCompaction(t: Turn, c: ToolCompaction): Turn { t.(toolCompactions := t.toolCompactions + [c]) }

  lemma ToolsCompactedRows(k: Env, s: State, log: seq<Event>, e: Event, all: seq<Event>)
    requires NextRow(s, log, e, all) && e.body.ToolsCompacted? && ApplyToolsCompacted(k, s, e).Some?
    ensures Rows(ApplyToolsCompacted(k, s, e).value, all)
  {
    ToolsCompactedIs(k, s, e);
    CompactionRows(s, log, e, all);
  }

  lemma CompactionRows(s: State, log: seq<Event>, e: Event, all: seq<Event>)
    requires Rows(s, log) && all == log + [e] && e.body.ToolsCompacted? && e.body.turn in s.turns
    requires !Compacted(s, e.body.turn, SourceIds(e.body.results))
    ensures var b := e.body;
      Rows(s.(turns := s.turns[b.turn := WithCompaction(s.turns[b.turn], ToolCompaction(e.id, b.results, b.replacement))],
              compactions := s.compactions + [Seen(b.compaction, b.checkpoint, b.turn, false, SourceIds(b.results))]), all)
  {
    var b := e.body;
    var t, c := s.turns[b.turn], ToolCompaction(e.id, b.results, b.replacement);
    var z := s.(turns := s.turns[b.turn := WithCompaction(t, c)],
                compactions := s.compactions + [Seen(b.compaction, b.checkpoint, b.turn, false, SourceIds(b.results))]);
    assert RowOf(all, |log|, e.id) && CompactionRow(all, e.id);
    assert z.compactions[|s.compactions|].sources == SourceIds(b.results);
    TurnRowsStay(s, z, log, all, b.turn, t);
    NewCompaction(s, z, b.turn, t, c);
    TurnChangedRows(s, z, log, all, b.turn, WithCompaction(t, c));
  }

  lemma NewCompaction(s: State, z: State, id: Id, t: Turn, c: ToolCompaction)
    requires TurnCompactions(s, id, t) && TurnCompactions(z, id, t) && s.compactions <= z.compactions
    requires !Compacted(s, id, SourceIds(c.sources)) && Compacted(z, id, SourceIds(c.sources))
    ensures TurnCompactions(z, id, WithCompaction(t, c))
  {
  }

  lemma BodyRows(k: Env, s: State, log: seq<Event>, e: Event, all: seq<Event>)
    requires NextRow(s, log, e, all) && !e.body.Created? && ApplyBody(k, s, e).Some?
    ensures Rows(ApplyBody(k, s, e).value, all)
  {
    if OfTurn(e.body) {
      OfTurnRows(k, s, log, e, all);
    } else if Aside(e.body) {
      AsideKeeps(k, s, e);
      AsideRows(s, ApplyBody(k, s, e).value, log, all);
    } else {
      OfToolRows(k, s, log, e, all);
    }
  }

  lemma OfTurnRows(k: Env, s: State, log: seq<Event>, e: Event, all: seq<Event>)
    requires NextRow(s, log, e, all) && OfTurn(e.body) && ApplyBody(k, s, e).Some?
    ensures Rows(ApplyBody(k, s, e).value, all)
  {
    match e.body
    case TurnStarted(_, _) => TurnStartedRows(s, log, e, all);
    case Assembled(_, _, _, _, _) => AssembledRows(k, s, log, e, all);
    case StepStarted(_, _, _, _) => StepStartedRows(k, s, log, e, all);
    case Streamed(_, _, _, _) => StreamedRows(s, log, e, all);
  }

  lemma OfToolRows(k: Env, s: State, log: seq<Event>, e: Event, all: seq<Event>)
    requires NextRow(s, log, e, all) && !OfTurn(e.body) && !Aside(e.body) && ApplyBody(k, s, e).Some?
    ensures Rows(ApplyBody(k, s, e).value, all)
  {
    match e.body
    case ToolStarted(_, _, _, _, _, _) => ToolStartedRows(k, s, log, e, all);
    case ToolCompleted(_, _, _) => ToolCompletedRows(s, log, e, all);
    case ContextCompacted(_, _, _, _, _) => ContextCompactedRows(k, s, log, e, all);
    case ToolsCompacted(_, _, _, _, _, _) => ToolsCompactedRows(k, s, log, e, all);
  }

  lemma ApplyRows(k: Env, s: State, log: seq<Event>, e: Event, all: seq<Event>)
    requires StateOk(s) && HeadOk(s, |log|) && Rows(s, log) && Apply(k, s, e).Ok? && all == log + [e]
    ensures Rows(Apply(k, s, e).value, all)
  {
    var entered := Enter(s, e);
    AsideRows(s, entered, log, log);
    SameWorkOk(s, entered);
    var t := ApplyBody(k, entered, e).value;
    if e.body.Created? {
      AsideRows(entered, t, log, all);
    } else {
      BodyRows(k, entered, log, e, all);
    }
    AsideRows(t, Apply(k, s, e).value, all, all);
  }

  /** Every state's facts stand in its log. */
  lemma {:induction false} EveryRow(k: Env, log: seq<Event>)
    requires Accepted(k, log)
    ensures Rows(Replay(k, log).value, log)
    decreases |log|
  {
    if log != [] {
      var n := |log| - 1;
      EveryRow(k, log[..n]);
      EveryStateOk(k, log[..n]);
      NextRows(k, Replay(k, log[..n]).value, log[..n], log[n], log);
    } else {
      NoRows();
    }
  }

  lemma NoRows()
    ensures Rows(Start, [])
  {
  }

  lemma NextRows(k: Env, s: State, log: seq<Event>, e: Event, all: seq<Event>)
    requires StateOk(s) && HeadOk(s, |log|) && Rows(s, log) && Apply(k, s, e).Ok?
    requires |all| == |log| + 1 && all[..|log|] == log && all[|log|] == e
    ensures Rows(Apply(k, s, e).value, all)
  {
    assert all == log + [e];
    ApplyRows(k, s, log, e, all);
  }

  /** In every accepted log, no two tool compactions of a turn are of the same outcomes. */
  lemma ToolCompactionsDiffer(k: Env, log: seq<Event>, turn: Id, i: nat, j: nat)
    requires Accepted(k, log) && turn in Replay(k, log).value.turns && i < j < |Replay(k, log).value.turns[turn].toolCompactions|
    ensures var cs := Replay(k, log).value.turns[turn].toolCompactions; SourceIds(cs[i].sources) != SourceIds(cs[j].sources)
  {
    EveryRow(k, log);
    assert TurnRows(Replay(k, log).value, log, turn, Replay(k, log).value.turns[turn]);
  }
}
