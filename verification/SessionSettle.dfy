/** Settling a cancelled session: every open model stream is ended, every pending tool is given an
    uncertain outcome, and the session's terminal event follows. */
module SessionSettle {
  import opened Outcomes
  import opened SessionFold
  import opened SessionStream
  import opened SessionRows

  // ---------------------------------------------------------------- what is open

  /** A stream that the settling pass ends: a step's, or that of a turn without steps. */
  datatype Work = StepWork(turn: Id, step: nat) | LegacyWork(turn: Id)

  predicate Open(s: State, w: Work) {
    w.turn in s.turns
    && match w
       case StepWork(t, i) => i < |s.turns[t].steps| && !HasEnd(s.turns[t].steps[i].events)
       case LegacyWork(t) => LegacyOpen(s.turns[t])
  }

  predicate Pending(s: State, x: Id) { x in s.invocations && s.invocations[x].outcome.None? }

  // ---------------------------------------------------------------- what is appended

  function Digits(n: nat): string {
    if n < 10 then [(n + '0' as int) as char] else Digits(n / 10) + [(n % 10 + '0' as int) as char]
  }

  const CancelHead := "{\"event_type\":\"completed\",\"payload\":{\"finish_reason\":\"cancelled\",\"provider_response_ref\":\"runtime-cancelled://"
  const CancelProvider := "\"},\"provider_id\":\""
  const CancelRequest := "\",\"request_id\":\""
  const CancelSequence := "\",\"schema_version\":1,\"sequence\":"

  /** The canonical JSON of the event that ends a stream; identifiers need no escapes. */
  function CancelText(r: Request, n: nat): string {
    CancelHead + r.id + CancelProvider + r.provider + CancelRequest + r.id + CancelSequence + Digits(n) + "}"
  }

  /** The environment renders cancellations in canonical JSON. */
  ghost predicate Renders(k: Env) {
    forall r: Request, n: nat :: k.cancel(r, n) == CancelText(r, n)
  }

  function CancelModelEvent(k: Env, r: Request, n: nat): ModelEvent {
    ModelEvent(r.provider, r.id, n, Completed(CancelledByRuntime, "runtime-cancelled://" + r.id), k.cancel(r, n))
  }

  /** The event that ends a stream, from the state as it was read. */
  function WorkBody(k: Env, s: State, w: Work): Body
    requires Open(s, w)
  {
    match w
    case StepWork(t, i) =>
      var step := s.turns[t].steps[i];
      Streamed(t, Some(step.id), step.request.provider, CancelModelEvent(k, step.request, |step.events|))
    case LegacyWork(t) =>
      var turn := s.turns[t];
      if turn.request.None? then Streamed(t, None, "", CancelModelEvent(k, Request("", "", "", "", []), |turn.events|))
      else Streamed(t, None, turn.request.value.provider, CancelModelEvent(k, turn.request.value, |turn.events|))
  }

  function UncertainBody(s: State, x: Id): Body
    requires x in s.invocations
  {
    var r := s.invocations[x];
    ToolCompleted(r.turn, r.step, Outcome(r.invocation, r.turn, r.call, r.name, "uncertain", None, "EXECUTION_OUTCOME_IN_DOUBT"))
  }

  function EndBody(c: Cancellation, uncertain: bool): Body {
    if uncertain then SessionFailed("tool_failed", "interrupted governed tool outcome is in doubt")
    else if c.source == ByDeadline then SessionFailed("timeout", c.reason)
    else SessionCancelled(c.reason, c.cascade)
  }

  /** The `n`th event appended after the state that was read. */
  function Next(s: State, n: nat, id: Id, at: int, body: Body): Event {
    Event(id, if s.session.Some? then s.session.value else "", s.current + 1 + n, at, body)
  }

  // ---------------------------------------------------------------- one stream ended

  lemma DigitsShort(n: nat)
    requires n < 10_000
    ensures |Digits(n)| <= 4
  {
    if n >= 10 {
      var m := n / 10;
      assert |Digits(n)| == 1 + |Digits(m)|;
      if m >= 10 {
        assert |Digits(m)| == 1 + |Digits(m / 10)|;
        if m / 10 >= 10 { assert |Digits(m / 10)| == 1 + |Digits(m / 100)| && m / 100 < 10; }
      }
    }
  }

  /** The cancelling event always fits in the reserve. */
  ghost predicate Fits(k: Env) {
    forall r: Request, n: nat :: RequestOk(r) && n < MAX_MODEL_EVENTS_PER_STEP ==> |k.cancel(r, n)| < MODEL_TERMINAL_RESERVE_BYTES
  }

  lemma RenderedFits(k: Env)
    requires Renders(k)
    ensures Fits(k)
  {
    forall r: Request, n: nat | RequestOk(r) && n < MAX_MODEL_EVENTS_PER_STEP ensures |k.cancel(r, n)| < MODEL_TERMINAL_RESERVE_BYTES {
      CancelLength(r, n);
    }
  }

  lemma CancelLength(r: Request, n: nat)
    requires RequestOk(r) && n < MAX_MODEL_EVENTS_PER_STEP
    ensures |CancelText(r, n)| < 1000
  {
    DigitsShort(n);
    assert |CancelHead| <= 200 && |CancelProvider| <= 50 && |CancelRequest| <= 50 && |CancelSequence| <= 50;
  }

  ghost predicate Going(s: State) { s.current > 0 && s.session.Some? && s.ending.None? }

  /** Only the stream `w` has ended. */
  ghost predicate AfterWork(k: Env, s: State, z: State, w: Work) {
    && Going(z) && z.current == s.current + 1 && z.session == s.session && z.invocations == s.invocations
    && z.cancellation == s.cancellation && z.turns.Keys == s.turns.Keys
    && (forall v: Work :: Open(z, v) <==> Open(s, v) && v != w)
    && (forall v: Work :: Open(z, v) ==> WorkBody(k, z, v) == WorkBody(k, s, v))
  }

  lemma {:induction false} StepFound(steps: seq<ModelStep>, i: nat)
    requires i < |steps| && forall a, b :: 0 <= a < b < |steps| ==> steps[a].id != steps[b].id
    ensures StepIndex(steps, steps[i].id) == i
    decreases |steps|
  {
    if i < |steps| - 1 { StepFound(steps[..|steps| - 1], i); }
  }

  lemma EndedOnly(k: Env, s: State, z: State, w: Work, turn: Turn)
    requires w.turn in s.turns && z.turns == s.turns[w.turn := turn]
    requires forall v: Work :: v.turn == w.turn ==> (Open(z, v) <==> Open(s, v) && v != w)
    requires forall v: Work :: v.turn == w.turn && Open(z, v) ==> WorkBody(k, z, v) == WorkBody(k, s, v)
    ensures forall v: Work :: Open(z, v) <==> Open(s, v) && v != w
    ensures forall v: Work :: Open(z, v) ==> WorkBody(k, z, v) == WorkBody(k, s, v)
  {
    forall v: Work | v.turn != w.turn
      ensures Open(z, v) <==> Open(s, v)
      ensures Open(z, v) ==> WorkBody(k, z, v) == WorkBody(k, s, v)
    {
      if v.turn in s.turns { assert z.turns[v.turn] == s.turns[v.turn]; }
    }
  }

  /** The turn after the stream of one of its steps was cancelled. */
  function StepEnded(t: Turn, i: nat, e: Event): Turn
    requires i < |t.steps| && e.body.Streamed?
  {
    RecordStream(t, e).(steps := t.steps[i := PushEvent(t.steps[i], e.body.event, e.id)])
  }

  /** An event for an open step is taken when it fits. */
  lemma StreamTaken(s: State, e: Event, i: nat)
    requires e.body.Streamed? && e.body.turn in s.turns && s.turns[e.body.turn].request.Some?
    requires var t, b := s.turns[e.body.turn], e.body;
      && i < |t.steps| && b.target == Some(t.steps[i].id) && StepIndex(t.steps, t.steps[i].id) == i
      && b.provider == b.event.provider == t.steps[i].request.provider && b.event.request == t.steps[i].request.id
      && b.event.sequence == |t.steps[i].events| && !HasEnd(t.steps[i].events) && InBounds(t.steps[i], b.event)
    ensures ApplyStreamed(s, e) == Some(s.(turns := s.turns[e.body.turn := StepEnded(s.turns[e.body.turn], i, e)]))
  {
  }

  lemma OpenTakesEnd(step: ModelStep, m: ModelEvent)
    requires StepOk(step) && !HasEnd(step.events) && Ends(m) && |m.text| < MODEL_TERMINAL_RESERVE_BYTES
    ensures InBounds(step, m)
  {
  }

  lemma StepCancelledApplies(k: Env, s: State, w: Work, id: Id, at: int)
    requires StateOk(s) && Going(s) && Fits(k) && w.StepWork? && Open(s, w)
    ensures var e := Next(s, 0, id, at, WorkBody(k, s, w));
      Apply(k, s, e) == Ok(Enter(s, e).(turns := s.turns[w.turn := StepEnded(s.turns[w.turn], w.step, e)], seen := s.seen + {id}))
  {
    var t, i := s.turns[w.turn], w.step;
    assert TurnOk(w.turn, t);
    StepFound(t.steps, i);
    var e := Next(s, 0, id, at, WorkBody(k, s, w));
    OpenTakesEnd(t.steps[i], e.body.event);
    StreamTaken(Enter(s, e), e, i);
    AppliesBody(k, s, e);
  }

  lemma AppliesBody(k: Env, s: State, e: Event)
    requires Going(s) && e.body.Streamed? && e.sequence == s.current + 1 && Some(e.session) == s.session
    ensures Apply(k, s, e) == match ApplyStreamed(Enter(s, e), e)
      case Some(t) => Ok(t.(seen := t.seen + {e.id}))
      case None => Err(Refused)
  {
  }

  lemma StepEndedOnly(k: Env, s: State, w: Work, e: Event, z: State)
    requires w.StepWork? && Open(s, w) && e.body == WorkBody(k, s, w)
    requires z.turns == s.turns[w.turn := StepEnded(s.turns[w.turn], w.step, e)]
    ensures forall v: Work :: v.turn == w.turn ==> (Open(z, v) <==> Open(s, v) && v != w)
    ensures forall v: Work :: v.turn == w.turn && Open(z, v) ==> WorkBody(k, z, v) == WorkBody(k, s, v)
  {
    var t, i := s.turns[w.turn], w.step;
    var next := StepEnded(t, i, e);
    var events := next.steps[i].events;
    assert events[|t.steps[i].events|] == e.body.event && HasEnd(events);
    forall v: Work | v.turn == w.turn
      ensures Open(z, v) <==> Open(s, v) && v != w
      ensures Open(z, v) ==> WorkBody(k, z, v) == WorkBody(k, s, v)
    {
      assert v.StepWork? && v.step < |t.steps| && v.step != i ==> next.steps[v.step] == t.steps[v.step];
    }
  }

  lemma StepCancelled(k: Env, s: State, w: Work, id: Id, at: int)
    requires StateOk(s) && Going(s) && Fits(k) && w.StepWork? && Open(s, w)
    ensures var e := Next(s, 0, id, at, WorkBody(k, s, w));
      Apply(k, s, e).Ok? && AfterWork(k, s, Apply(k, s, e).value, w)
  {
    StepCancelledApplies(k, s, w, id, at);
    var e := Next(s, 0, id, at, WorkBody(k, s, w));
    var z := Enter(s, e).(turns := s.turns[w.turn := StepEnded(s.turns[w.turn], w.step, e)], seen := s.seen + {id});
    StepEndedOnly(k, s, w, e, z);
    EndedOnly(k, s, z, w, StepEnded(s.turns[w.turn], w.step, e));
  }

  lemma LegacyCancelled(k: Env, s: State, w: Work, id: Id, at: int)
    requires StateOk(s) && Going(s) && Fits(k) && w.LegacyWork? && Open(s, w)
    ensures var e := Next(s, 0, id, at, WorkBody(k, s, w));
      Apply(k, s, e).Ok? && AfterWork(k, s, Apply(k, s, e).value, w)
  {
    var t := s.turns[w.turn];
    assert TurnOk(w.turn, t);
    var m := CancelModelEvent(k, t.request.value, |t.events|);
    var e := Next(s, 0, id, at, WorkBody(k, s, w));
    var next := RecordStream(t, e);
    assert ApplyStreamed(Enter(s, e), e) == Some(Enter(s, e).(turns := s.turns[w.turn := next]));
    assert next.events[|t.events|] == m && HasEnd(next.events);
    EndedOnly(k, s, Apply(k, s, e).value, w, next);
  }

  lemma WorkTaken(k: Env, s: State, w: Work, id: Id, at: int)
    requires StateOk(s) && Going(s) && Fits(k) && Open(s, w)
    ensures var e := Next(s, 0, id, at, WorkBody(k, s, w));
      Apply(k, s, e).Ok? && AfterWork(k, s, Apply(k, s, e).value, w)
  {
    match w
    case StepWork(_, _) => StepCancelled(k, s, w, id, at);
    case LegacyWork(_) => LegacyCancelled(k, s, w, id, at);
  }

  // ---------------------------------------------------------------- one tool given up

  ghost predicate AfterTool(s: State, z: State, x: Id) {
    && Going(z) && z.current == s.current + 1 && z.session == s.session && z.cancellation == s.cancellation
    && (forall v: Work :: Open(z, v) <==> Open(s, v))
    && (forall y :: Pending(z, y) <==> Pending(s, y) && y != x)
    && (forall y :: Pending(z, y) ==> UncertainBody(z, y) == UncertainBody(s, y))
  }

  lemma SameStreams(s: State, z: State, turn: Id, executions: map<Id, Id>)
    requires turn in s.turns && z.turns == s.turns[turn := s.turns[turn].(executions := executions)]
    ensures forall v: Work :: Open(z, v) <==> Open(s, v)
  {
    forall v: Work ensures Open(z, v) <==> Open(s, v) {
      if v.turn in s.turns && v.turn != turn { assert z.turns[v.turn] == s.turns[v.turn]; }
    }
  }

  lemma ToolTaken(k: Env, s: State, x: Id, id: Id, at: int)
    requires StateOk(s) && Going(s) && Pending(s, x)
    ensures var e := Next(s, 0, id, at, UncertainBody(s, x));
      Apply(k, s, e).Ok? && AfterTool(s, Apply(k, s, e).value, x)
  {
    assert ExecutionOk(s, x, s.invocations[x]);
    ToolEnds(k, s, x, id, at);
  }

  lemma {:induction false} ToolEnds(k: Env, s: State, x: Id, id: Id, at: int)
    requires Going(s) && Pending(s, x) && ExecutionOk(s, x, s.invocations[x])
    ensures var e := Next(s, 0, id, at, UncertainBody(s, x));
      Apply(k, s, e).Ok? && AfterTool(s, Apply(k, s, e).value, x)
  {
    var r := s.invocations[x];
    var e := Next(s, 0, id, at, UncertainBody(s, x));
    var t := s.turns[r.turn];
    var done := r.(outcome := Some(e.body.outcome), completedEvent := Some(id), completedSequence := e.sequence);
    var executions := t.executions[r.call := r.invocation];
    assert ApplyToolCompleted(Enter(s, e), e) ==
      Some(Enter(s, e).(turns := s.turns[r.turn := t.(executions := executions)], invocations := s.invocations[x := done]));
    SameStreams(s, Apply(k, s, e).value, r.turn, executions);
  }

  // ---------------------------------------------------------------- the whole pass

  /** The event that ends stream `w`, `n` events after the state was read. */
  function WorkEvent(k: Env, s: State, w: Work, n: nat, id: Id, at: int): Event
    requires Open(s, w)
  {
    Next(s, n, id, at, WorkBody(k, s, w))
  }

  predicate AllOpen(s: State, ws: seq<Work>) { forall m :: 0 <= m < |ws| ==> Open(s, ws[m]) }

  predicate OnceEach<T(==)>(xs: seq<T>) { forall i, j :: 0 <= i < j < |xs| ==> xs[i] != xs[j] }

  function WorkEvents(k: Env, s: State, ws: seq<Work>, id: Work -> Id, at: int -> int): (r: seq<Event>)
    requires AllOpen(s, ws)
    ensures |r| == |ws|
  {
    seq(|ws|, m requires 0 <= m < |ws| => WorkEvent(k, s, ws[m], m, id(ws[m]), at(m)))
  }

  /** Streams `ws` of `s` have ended, and nothing else has changed. */
  ghost predicate Ended(k: Env, s: State, z: State, ws: seq<Work>) {
    && Going(z) && z.current == s.current + |ws| && z.session == s.session && z.invocations == s.invocations
    && z.cancellation == s.cancellation && z.turns.Keys == s.turns.Keys
    && (forall v: Work :: Open(z, v) <==> Open(s, v) && v !in ws)
    && (forall v: Work :: Open(z, v) ==> WorkBody(k, z, v) == WorkBody(k, s, v))
  }

  lemma StreamStep(k: Env, s: State, before: seq<Event>, ws: seq<Work>, w: Work, id: Id, at: int)
    requires Accepted(k, before) && Ended(k, s, Replay(k, before).value, ws) && Fits(k) && Open(s, w) && w !in ws
    ensures var all := before + [WorkEvent(k, s, w, |ws|, id, at)];
      Accepted(k, all) && Ended(k, s, Replay(k, all).value, ws + [w])
  {
    var y, e := Replay(k, before).value, WorkEvent(k, s, w, |ws|, id, at);
    EveryStateOk(k, before);
    assert Open(y, w);
    WorkTaken(k, y, w, id, at);
    assert e == Next(y, 0, id, at, WorkBody(k, y, w));
    ReplayPush(k, before, e);
    EndedMore(k, s, y, Apply(k, y, e).value, ws, w);
  }

  lemma EndedMore(k: Env, s: State, y: State, z: State, ws: seq<Work>, w: Work)
    requires Ended(k, s, y, ws) && AfterWork(k, y, z, w)
    ensures Ended(k, s, z, ws + [w])
  {
  }

  lemma WorkEventsPush(k: Env, s: State, ws: seq<Work>, id: Work -> Id, at: int -> int)
    requires ws != [] && AllOpen(s, ws)
    ensures var n := |ws| - 1;
      AllOpen(s, ws[..n]) && WorkEvents(k, s, ws, id, at) == WorkEvents(k, s, ws[..n], id, at) + [WorkEvent(k, s, ws[n], n, id(ws[n]), at(n))]
  {
  }

  lemma {:induction false} StreamsEnd(k: Env, log: seq<Event>, s: State, ws: seq<Work>, id: Work -> Id, at: int -> int)
    requires Replay(k, log) == Ok(s) && Going(s) && Fits(k) && AllOpen(s, ws) && OnceEach(ws)
    ensures Accepted(k, log + WorkEvents(k, s, ws, id, at))
    ensures Ended(k, s, Replay(k, log + WorkEvents(k, s, ws, id, at)).value, ws)
    decreases |ws|
  {
    if ws == [] {
      assert log + [] == log;
    } else {
      var n := |ws| - 1;
      WorkEventsPush(k, s, ws, id, at);
      StreamsEnd(k, log, s, ws[..n], id, at);
      StreamsEndMore(k, log, s, ws, id, at);
    }
  }

  lemma StreamsEndMore(k: Env, log: seq<Event>, s: State, ws: seq<Work>, id: Work -> Id, at: int -> int)
    requires OnceEach(ws) && AllOpen(s, ws) && ws != [] && AllOpen(s, ws[..|ws| - 1]) && Fits(k)
    requires var before := log + WorkEvents(k, s, ws[..|ws| - 1], id, at);
      Accepted(k, before) && Ended(k, s, Replay(k, before).value, ws[..|ws| - 1])
    ensures var all := log + WorkEvents(k, s, ws, id, at);
      Accepted(k, all) && Ended(k, s, Replay(k, all).value, ws)
  {
    var n := |ws| - 1;
    var before := log + WorkEvents(k, s, ws[..n], id, at);
    var e := WorkEvent(k, s, ws[n], n, id(ws[n]), at(n));
    WorkEventsPush(k, s, ws, id, at);
    Regroup(log, WorkEvents(k, s, ws[..n], id, at), [e]);
    LastOf(ws);
    StreamStep(k, s, before, ws[..n], ws[n], id(ws[n]), at(n));
  }

  predicate AllPending(s: State, xs: seq<Id>) { forall m :: 0 <= m < |xs| ==> Pending(s, xs[m]) }

  /** The events that give executions up. */
  function ToolEvents(s: State, xs: seq<Id>, id: Id -> Id, at: int -> int): (r: seq<Event>)
    requires AllPending(s, xs)
    ensures |r| == |xs|
  {
    seq(|xs|, m requires 0 <= m < |xs| => Next(s, m, id(xs[m]), at(m), UncertainBody(s, xs[m])))
  }

  /** The same, `n` events after the state was read. */
  function LaterTools(s: State, n: nat, xs: seq<Id>, id: Id -> Id, at: int -> int): (r: seq<Event>)
    requires AllPending(s, xs)
    ensures |r| == |xs|
  {
    seq(|xs|, m requires 0 <= m < |xs| => Next(s, n + m, id(xs[m]), at(n + m), UncertainBody(s, xs[m])))
  }

  /** Executions `xs` of `s` have an outcome, and no stream has moved. */
  ghost predicate GivenUp(s: State, z: State, xs: seq<Id>) {
    && Going(z) && z.current == s.current + |xs| && z.session == s.session && z.cancellation == s.cancellation
    && (forall v: Work :: Open(z, v) <==> Open(s, v))
    && (forall y :: Pending(z, y) <==> Pending(s, y) && y !in xs)
    && (forall y :: Pending(z, y) ==> UncertainBody(z, y) == UncertainBody(s, y))
  }

  lemma ToolStep(k: Env, s: State, before: seq<Event>, xs: seq<Id>, x: Id, id: Id, at: int)
    requires Accepted(k, before) && GivenUp(s, Replay(k, before).value, xs) && Pending(s, x) && x !in xs
    ensures var all := before + [Next(s, |xs|, id, at, UncertainBody(s, x))];
      Accepted(k, all) && GivenUp(s, Replay(k, all).value, xs + [x])
  {
    var y, e := Replay(k, before).value, Next(s, |xs|, id, at, UncertainBody(s, x));
    EveryStateOk(k, before);
    assert Pending(y, x);
    ToolTaken(k, y, x, id, at);
    assert e == Next(y, 0, id, at, UncertainBody(y, x));
    ReplayPush(k, before, e);
    GivenUpMore(s, y, Apply(k, y, e).value, xs, x);
  }

  lemma GivenUpMore(s: State, y: State, z: State, xs: seq<Id>, x: Id)
    requires GivenUp(s, y, xs) && AfterTool(y, z, x)
    ensures GivenUp(s, z, xs + [x])
  {
  }

  lemma ToolEventsPush(s: State, xs: seq<Id>, id: Id -> Id, at: int -> int)
    requires xs != [] && AllPending(s, xs)
    ensures var n := |xs| - 1;
      AllPending(s, xs[..n]) && ToolEvents(s, xs, id, at) == ToolEvents(s, xs[..n], id, at) + [Next(s, n, id(xs[n]), at(n), UncertainBody(s, xs[n]))]
  {
  }

  lemma {:induction false} ToolsEnd(k: Env, log: seq<Event>, s: State, xs: seq<Id>, id: Id -> Id, at: int -> int)
    requires Replay(k, log) == Ok(s) && Going(s) && OnceEach(xs) && AllPending(s, xs)
    ensures Accepted(k, log + ToolEvents(s, xs, id, at))
    ensures GivenUp(s, Replay(k, log + ToolEvents(s, xs, id, at)).value, xs)
    decreases |xs|
  {
    if xs == [] {
      assert log + [] == log;
    } else {
      var n := |xs| - 1;
      ToolEventsPush(s, xs, id, at);
      ToolsEnd(k, log, s, xs[..n], id, at);
      ToolsEndMore(k, log, s, xs, id, at);
    }
  }

  lemma ToolsEndMore(k: Env, log: seq<Event>, s: State, xs: seq<Id>, id: Id -> Id, at: int -> int)
    requires OnceEach(xs) && AllPending(s, xs) && xs != []
    requires var before := log + ToolEvents(s, xs[..|xs| - 1], id, at);
      Accepted(k, before) && GivenUp(s, Replay(k, before).value, xs[..|xs| - 1])
    ensures var all := log + ToolEvents(s, xs, id, at);
      Accepted(k, all) && GivenUp(s, Replay(k, all).value, xs)
  {
    var n := |xs| - 1;
    var before := log + ToolEvents(s, xs[..n], id, at);
    var e := Next(s, n, id(xs[n]), at(n), UncertainBody(s, xs[n]));
    ToolEventsPush(s, xs, id, at);
    Regroup(log, ToolEvents(s, xs[..n], id, at), [e]);
    LastOf(xs);
    ToolStep(k, s, before, xs[..n], xs[n], id(xs[n]), at(n));
  }

  lemma Regroup<T>(a: seq<T>, b: seq<T>, c: seq<T>)
    ensures a + (b + c) == a + b + c
  {
  }

  lemma LastOf<T>(xs: seq<T>)
    requires xs != []
    ensures xs == xs[..|xs| - 1] + [xs[|xs| - 1]]
  {
  }

  lemma NothingLeft(s: State)
    requires (forall v: Work :: !Open(s, v)) && (forall x :: !Pending(s, x))
    ensures Settled(s)
  {
    forall t | t in s.turns ensures StepsEnded(s.turns[t]) && !LegacyOpen(s.turns[t]) {
      assert !Open(s, LegacyWork(t));
      forall i | 0 <= i < |s.turns[t].steps| ensures HasEnd(s.turns[t].steps[i].events) {
        assert !Open(s, StepWork(t, i));
      }
    }
    forall x | x in s.invocations ensures s.invocations[x].outcome.Some? { assert !Pending(s, x); }
  }

  lemma SettledSame(s: State, z: State)
    requires z.turns == s.turns && z.invocations == s.invocations && Settled(s)
    ensures Settled(z)
  {
  }

  /** With nothing open and nothing pending the terminal event is taken. */
  lemma EndTaken(k: Env, s: State, uncertain: bool, id: Id, at: int)
    requires Going(s) && s.cancellation.Some? && Settled(s)
    ensures var r := Apply(k, s, Next(s, 0, id, at, EndBody(s.cancellation.value, uncertain)));
      r.Ok? && r.value.ending == Some(if uncertain || s.cancellation.value.source == ByDeadline then EndFailed else EndCancelled)
      && Settled(r.value)
  {
    var e := Next(s, 0, id, at, EndBody(s.cancellation.value, uncertain));
    EndsWith(k, s, e, s.cancellation.value, uncertain);
  }

  lemma {:induction false} EndsWith(k: Env, s: State, e: Event, c: Cancellation, uncertain: bool)
    requires Going(s) && s.cancellation == Some(c) && Settled(s)
    requires e.body == EndBody(c, uncertain) && IsEnding(e.body) && e.sequence == s.current + 1 && Some(e.session) == s.session
    ensures var r := Apply(k, s, e);
      r.Ok? && r.value.ending == Some(if uncertain || c.source == ByDeadline then EndFailed else EndCancelled) && Settled(r.value)
  {
    SettledSame(s, Enter(s, e));
    EndApplies(Enter(s, e), e, c, uncertain);
    AppliesEnding(k, s, e);
    SettledSame(s, Apply(k, s, e).value);
  }

  lemma AppliesEnding(k: Env, s: State, e: Event)
    requires Going(s) && IsEnding(e.body) && e.sequence == s.current + 1 && Some(e.session) == s.session
    ensures Apply(k, s, e) == match ApplyEnding(Enter(s, e), e)
      case Some(t) => Ok(t.(seen := t.seen + {e.id}))
      case None => Err(Refused)
  {
  }

  lemma EndApplies(s: State, e: Event, c: Cancellation, uncertain: bool)
    requires s.cancellation == Some(c) && Settled(s) && e.body == EndBody(c, uncertain)
    ensures ApplyEnding(s, e) == Some(s.(ending := Some(if uncertain || c.source == ByDeadline then EndFailed else EndCancelled)))
  {
  }

  /** The streams to end, turn by turn in the order the turns are listed. */
  function TurnWorks(s: State, t: Id, i: nat): seq<Work>
    requires t in s.turns && i <= |s.turns[t].steps|
    decreases |s.turns[t].steps| - i
  {
    if i == |s.turns[t].steps| then (if LegacyOpen(s.turns[t]) then [LegacyWork(t)] else [])
    else (if HasEnd(s.turns[t].steps[i].events) then [] else [StepWork(t, i)]) + TurnWorks(s, t, i + 1)
  }

  function Works(s: State, order: seq<Id>): seq<Work>
    requires forall m :: 0 <= m < |order| ==> order[m] in s.turns
  {
    if order == [] then [] else TurnWorks(s, order[0], 0) + Works(s, order[1..])
  }

  lemma {:induction false} TurnWorksAre(s: State, t: Id, i: nat)
    requires t in s.turns && i <= |s.turns[t].steps|
    ensures var ws := TurnWorks(s, t, i);
      && OnceEach(ws) && AllOpen(s, ws)
      && forall v: Work :: v in ws <==> Open(s, v) && v.turn == t && (v.StepWork? ==> v.step >= i)
    decreases |s.turns[t].steps| - i
  {
    if i < |s.turns[t].steps| { TurnWorksAre(s, t, i + 1); }
  }

  /** However the turns are listed, every open stream is among the works, once. */
  lemma {:induction false} WorksAre(s: State, order: seq<Id>)
    requires OnceEach(order) && forall m :: 0 <= m < |order| ==> order[m] in s.turns
    ensures var ws := Works(s, order);
      OnceEach(ws) && AllOpen(s, ws) && forall v: Work :: v in ws <==> Open(s, v) && v.turn in order
    decreases |order|
  {
    if order != [] {
      TurnWorksAre(s, order[0], 0);
      WorksAre(s, order[1..]);
      var a, b := TurnWorks(s, order[0], 0), Works(s, order[1..]);
      assert order == [order[0]] + order[1..];
      forall i, j | 0 <= i < j < |a + b| ensures (a + b)[i] != (a + b)[j] {
        if i < |a| <= j {
          assert (a + b)[i] in a && (a + b)[j] in b;
          assert order[0] !in order[1..];
        }
      }
    }
  }

  function PendingTools(s: State, order: seq<Id>): seq<Id> {
    if order == [] then [] else (if Pending(s, order[0]) then [order[0]] else []) + PendingTools(s, order[1..])
  }

  lemma {:induction false} PendingToolsAre(s: State, order: seq<Id>)
    requires OnceEach(order)
    ensures var xs := PendingTools(s, order);
      OnceEach(xs) && AllPending(s, xs) && forall x :: x in xs <==> x in order && Pending(s, x)
    decreases |order|
  {
    if order != [] {
      PendingToolsAre(s, order[1..]);
      assert order == [order[0]] + order[1..] && order[0] !in order[1..];
    }
  }

  /** The names the driver derives for the events of the pass. */
  datatype Names = Names(work: Work -> Id, tool: Id -> Id, end: Id)

  /** All it appends: to the state read first, then to the states read after each part. */
  function SettleEvents(k: Env, s: State, turns: seq<Id>, tools: seq<Id>, names: Names, at: int -> int): seq<Event>
    requires forall m :: 0 <= m < |turns| ==> turns[m] in s.turns
    requires s.cancellation.Some? && AllOpen(s, Works(s, turns)) && AllPending(s, PendingTools(s, tools))
  {
    Parts(k, s, Works(s, turns), PendingTools(s, tools), names, at)
  }

  /** A log that can be cancelled, and listings of its turns and executions in any order. */
  ghost predicate Cancellable(k: Env, log: seq<Event>, turns: seq<Id>, tools: seq<Id>) {
    && log != [] && Accepted(k, log)
    && var s := Replay(k, log).value;
       && s.ending.None? && s.cancellation.Some?
       && OnceEach(turns) && (forall t :: t in turns <==> t in s.turns)
       && OnceEach(tools) && (forall x :: x in tools <==> x in s.invocations)
  }

  lemma Listed(k: Env, log: seq<Event>, turns: seq<Id>, tools: seq<Id>)
    requires Cancellable(k, log, turns, tools)
    ensures var s := Replay(k, log).value;
      && (forall m :: 0 <= m < |turns| ==> turns[m] in s.turns)
      && AllOpen(s, Works(s, turns)) && OnceEach(Works(s, turns)) && (forall v: Work :: v in Works(s, turns) <==> Open(s, v))
      && AllPending(s, PendingTools(s, tools)) && OnceEach(PendingTools(s, tools))
      && (forall x :: x in PendingTools(s, tools) <==> Pending(s, x))
  {
    WorksAre(Replay(k, log).value, turns);
    PendingToolsAre(Replay(k, log).value, tools);
  }

  /** From every accepted log with a cancellation request and no terminal event, whatever streams and
      tools are open, and in whatever order turns and executions are listed, each event of the
      settling pass is accepted and the last of them ends the session with nothing left open. */
  lemma EveryCancellableLogSettles(k: Env, log: seq<Event>, turns: seq<Id>, tools: seq<Id>, names: Names, at: int -> int)
    requires Renders(k) && Cancellable(k, log, turns, tools)
    ensures (forall m :: 0 <= m < |turns| ==> turns[m] in Replay(k, log).value.turns)
    ensures AllOpen(Replay(k, log).value, Works(Replay(k, log).value, turns))
    ensures AllPending(Replay(k, log).value, PendingTools(Replay(k, log).value, tools))
    ensures var s := Replay(k, log).value;
      var all := log + SettleEvents(k, s, turns, tools, names, at);
      Closes(k, all, (exists x :: Pending(s, x)) || s.cancellation.value.source == ByDeadline)
  {
    var s := Replay(k, log).value;
    EveryStateOk(k, log);
    RenderedFits(k);
    Listed(k, log, turns, tools);
    var ws, xs := Works(s, turns), PendingTools(s, tools);
    assert (exists x :: Pending(s, x)) <==> xs != [] by {
      if xs != [] { assert Pending(s, xs[0]); }
    }
    ReachesIs(k, log, s, SEAL);
    var end := SettledFrom(k, log, s, ws, xs, names, at);
    ReachesIs(k, log + SettleEvents(k, s, turns, tools, names, at), end, SEAL);
  }

  /** The clock after `n` readings. */
  function Later(at: int -> int, n: nat): int -> int { m => at(n + m) }

  /** Two runs of events and a last one. */
  function InARow<T>(a: seq<T>, b: seq<T>, last: T): seq<T> { a + b + [last] }

  /** The three parts of the pass, from the state they were read from. */
  function Parts(k: Env, s: State, ws: seq<Work>, xs: seq<Id>, names: Names, at: int -> int): seq<Event>
    requires s.cancellation.Some? && AllOpen(s, ws) && AllPending(s, xs)
  {
    InARow(WorkEvents(k, s, ws, names.work, at),
      LaterTools(s, |ws|, xs, names.tool, at),
      LastOne(s, |ws| + |xs|, xs, names, at))
  }

  /** The log ends the session, as failed or as cancelled, with nothing left open. */
  ghost predicate Closes(k: Env, log: seq<Event>, failed: bool) {
    Accepted(k, log) && Closed(Replay(k, log).value, failed)
  }

  ghost predicate Closed(z: State, failed: bool) {
    Settled(z) && z.ending == Some(if failed then EndFailed else EndCancelled)
  }

  predicate Fails(s: State, xs: seq<Id>)
    requires s.cancellation.Some?
  {
    xs != [] || s.cancellation.value.source == ByDeadline
  }

  function LastOne(s: State, n: nat, xs: seq<Id>, names: Names, at: int -> int): Event
    requires s.cancellation.Some?
  {
    Next(s, n, names.end, at(n), EndBody(s.cancellation.value, xs != []))
  }

  lemma StreamsReach(k: Env, log: seq<Event>, s: State, ws: seq<Work>, id: Work -> Id, at: int -> int) returns (y: State)
    requires Reaches(k, log, s, SEAL) && Going(s) && Fits(k) && AllOpen(s, ws) && OnceEach(ws)
    ensures Reaches(k, log + WorkEvents(k, s, ws, id, at), y, SEAL) && Ended(k, s, y, ws)
  {
    ReachesIs(k, log, s, SEAL);
    StreamsEnd(k, log, s, ws, id, at);
    y := Replay(k, log + WorkEvents(k, s, ws, id, at)).value;
    ReachesIs(k, log + WorkEvents(k, s, ws, id, at), y, SEAL);
  }

  lemma ToolsReach(k: Env, log: seq<Event>, s: State, xs: seq<Id>, id: Id -> Id, at: int -> int) returns (y: State)
    requires Reaches(k, log, s, SEAL) && Going(s) && OnceEach(xs) && AllPending(s, xs)
    ensures Reaches(k, log + ToolEvents(s, xs, id, at), y, SEAL) && GivenUp(s, y, xs)
  {
    ReachesIs(k, log, s, SEAL);
    ToolsEnd(k, log, s, xs, id, at);
    y := Replay(k, log + ToolEvents(s, xs, id, at)).value;
    ReachesIs(k, log + ToolEvents(s, xs, id, at), y, SEAL);
  }

  lemma EndReaches(k: Env, log: seq<Event>, s: State, z: State, xs: seq<Id>, n: nat, names: Names, at: int -> int) returns (end: State)
    requires Reaches(k, log, z, SEAL) && Going(z) && z.session == s.session && z.cancellation == s.cancellation && s.cancellation.Some?
    requires z.current == s.current + n && Settled(z)
    ensures Reaches(k, log + [LastOne(s, n, xs, names, at)], end, SEAL) && Closed(end, Fails(s, xs))
  {
    EndTaken(k, z, xs != [], names.end, at(n));
    var e := LastOne(s, n, xs, names, at);
    assert e == Next(z, 0, names.end, at(n), EndBody(z.cancellation.value, xs != []));
    end := Apply(k, z, e).value;
    ReachesIs(k, log, z, SEAL);
    ReplayPush(k, log, e);
    ReachesIs(k, log + [e], end, SEAL);
  }

  lemma SettledFrom(k: Env, log: seq<Event>, s: State, ws: seq<Work>, xs: seq<Id>, names: Names, at: int -> int) returns (end: State)
    requires Reaches(k, log, s, SEAL) && Going(s) && Fits(k) && s.cancellation.Some?
    requires AllOpen(s, ws) && OnceEach(ws) && (forall v: Work :: v in ws <==> Open(s, v))
    requires AllPending(s, xs) && OnceEach(xs) && (forall x :: x in xs <==> Pending(s, x))
    ensures Reaches(k, log + Parts(k, s, ws, xs, names, at), end, SEAL) && Closed(end, Fails(s, xs))
  {
    var works := WorkEvents(k, s, ws, names.work, at);
    var y := StreamsReach(k, log, s, ws, names.work, at);
    StillPending(s, y, xs);
    var tools := ToolEvents(y, xs, names.tool, Later(at, |ws|));
    var z := ToolsReach(k, log + works, y, xs, names.tool, Later(at, |ws|));
    AllDone(k, s, y, z, ws, xs);
    end := EndReaches(k, log + works + tools, s, z, xs, |ws| + |xs|, names, at);
    SameTools(s, y, xs, names.tool, at, |ws|);
    Regroup(log, works, tools);
    Regroup(log, works + tools, [LastOne(s, |ws| + |xs|, xs, names, at)]);
  }

  lemma AllDone(k: Env, s: State, y: State, z: State, ws: seq<Work>, xs: seq<Id>)
    requires Ended(k, s, y, ws) && GivenUp(y, z, xs)
    requires (forall v: Work :: Open(s, v) ==> v in ws) && (forall x :: Pending(y, x) ==> x in xs)
    ensures Settled(z)
  {
    assert forall v: Work :: !Open(y, v);
    NothingLeft(z);
  }

  lemma StillPending(s: State, y: State, xs: seq<Id>)
    requires y.invocations == s.invocations && AllPending(s, xs)
    ensures AllPending(y, xs) && forall x :: Pending(y, x) <==> Pending(s, x)
  {
  }

  lemma SameTools(s: State, y: State, xs: seq<Id>, id: Id -> Id, at: int -> int, n: nat)
    requires y.invocations == s.invocations && y.current == s.current + n && y.session == s.session
    requires AllPending(s, xs) && AllPending(y, xs)
    ensures ToolEvents(y, xs, id, Later(at, n)) == LaterTools(s, n, xs, id, at)
  {
    forall m | 0 <= m < |xs| ensures ToolEvents(y, xs, id, Later(at, n))[m] == LaterTools(s, n, xs, id, at)[m] {
      assert UncertainBody(y, xs[m]) == UncertainBody(s, xs[m]);
    }
  }

  // ---------------------------------------------------------------- the ids the driver gives its events

  /** What the id of an event of the pass is derived from; the derivation is taken to be injective. */
  datatype Identity =
    | RecoveryCancelled(step: Id)
    | LegacyRecoveryCancelled(turn: Id)
    | RecoveryUncertain(step: Id, call: Id)
    | TerminalOf(uncertain: bool, deadline: bool)

  function WorkIdentity(s: State, w: Work): Identity
    requires Open(s, w)
  {
    match w
    case StepWork(t, i) => RecoveryCancelled(s.turns[t].steps[i].id)
    case LegacyWork(t) => LegacyRecoveryCancelled(t)
  }

  function ToolIdentity(s: State, x: Id): Identity
    requires Pending(s, x)
  {
    RecoveryUncertain(s.invocations[x].step, s.invocations[x].call)
  }

  function Identities(s: State, ws: seq<Work>, xs: seq<Id>): (r: seq<Identity>)
    requires AllOpen(s, ws) && AllPending(s, xs) && s.cancellation.Some?
    ensures |r| == |ws| + |xs| + 1
  {
    seq(|ws|, m requires 0 <= m < |ws| => WorkIdentity(s, ws[m]))
      + seq(|xs|, m requires 0 <= m < |xs| => ToolIdentity(s, xs[m]))
      + [TerminalOf(xs != [], s.cancellation.value.source == ByDeadline)]
  }

  /** Two open steps of different turns under one step id, or two pending executions under one step
      and call. */
  ghost predicate Twins(s: State, ws: seq<Work>, xs: seq<Id>)
    requires AllOpen(s, ws) && AllPending(s, xs)
  {
    || (exists i, j :: 0 <= i < j < |ws| && ws[i].StepWork? && ws[j].StepWork? && WorkIdentity(s, ws[i]) == WorkIdentity(s, ws[j]))
    || (exists i, j :: 0 <= i < j < |xs| && ToolIdentity(s, xs[i]) == ToolIdentity(s, xs[j]))
  }

  /** The fold takes every event of the pass, but the ledger takes an id only once: the ids of the
      pass differ exactly when the log has no such twins.  The fold lets step ids repeat from one
      turn to another. */
  lemma PassIdsDifferExactly(s: State, ws: seq<Work>, xs: seq<Id>)
    requires AllOpen(s, ws) && AllPending(s, xs) && s.cancellation.Some? && OnceEach(ws) && OnceEach(xs)
    ensures OnceEach(Identities(s, ws, xs)) <==> !Twins(s, ws, xs)
  {
    var ids, n := Identities(s, ws, xs), |ws|;
    assert forall m :: 0 <= m < n ==> ids[m] == WorkIdentity(s, ws[m]);
    assert forall m :: 0 <= m < |xs| ==> ids[n + m] == ToolIdentity(s, xs[m]);
    if Twins(s, ws, xs) {
      if i, j :| 0 <= i < j < |ws| && ws[i].StepWork? && ws[j].StepWork? && WorkIdentity(s, ws[i]) == WorkIdentity(s, ws[j]) {
        assert ids[i] == ids[j];
      } else {
        var a, b :| 0 <= a < b < |xs| && ToolIdentity(s, xs[a]) == ToolIdentity(s, xs[b]);
        assert ids[n + a] == ids[n + b];
      }
    } else {
      forall i, j | 0 <= i < j < |ids| ensures ids[i] != ids[j] {
        if j < n {
          if ws[i].LegacyWork? && ws[j].LegacyWork? { assert ws[i] != ws[j]; }
        } else if n <= i && j < n + |xs| {
          assert ids[i] == ToolIdentity(s, xs[i - n]) && ids[j] == ToolIdentity(s, xs[j - n]);
        } else if j < n + |xs| {
          assert ids[j] == ToolIdentity(s, xs[j - n]);
        } else if n <= i {
          assert ids[i] == ToolIdentity(s, xs[i - n]);
        }
      }
    }
  }

  /** The names derived from those identities. */
  function DerivedNames(s: State, xs: seq<Id>, derive: Identity -> Id): Names
    requires s.cancellation.Some?
  {
    Names((w: Work) => if Open(s, w) then derive(WorkIdentity(s, w)) else "",
          x => if Pending(s, x) then derive(ToolIdentity(s, x)) else "",
          derive(TerminalOf(xs != [], s.cancellation.value.source == ByDeadline)))
  }

  ghost predicate Injective(derive: Identity -> Id) { forall a, b :: derive(a) == derive(b) ==> a == b }

  lemma PassIds(k: Env, s: State, ws: seq<Work>, xs: seq<Id>, derive: Identity -> Id, at: int -> int)
    requires AllOpen(s, ws) && AllPending(s, xs) && s.cancellation.Some?
    ensures var events, ids := Parts(k, s, ws, xs, DerivedNames(s, xs, derive), at), Identities(s, ws, xs);
      |events| == |ids| && forall m :: 0 <= m < |ids| ==> events[m].id == derive(ids[m])
  {
    WorkIds(k, s, ws, xs, derive, at);
    ToolIds(s, |ws|, xs, derive, at);
    var names, ids := DerivedNames(s, xs, derive), Identities(s, ws, xs);
    InARowIds(WorkEvents(k, s, ws, names.work, at), LaterTools(s, |ws|, xs, names.tool, at), LastOne(s, |ws| + |xs|, xs, names, at),
              seq(|ids|, m requires 0 <= m < |ids| => derive(ids[m])));
  }

  lemma InARowIds(a: seq<Event>, b: seq<Event>, last: Event, ids: seq<Id>)
    requires |ids| == |a| + |b| + 1 && last.id == ids[|a| + |b|]
    requires forall m :: 0 <= m < |a| ==> a[m].id == ids[m]
    requires forall m :: 0 <= m < |b| ==> b[m].id == ids[|a| + m]
    ensures |InARow(a, b, last)| == |ids| && forall m :: 0 <= m < |ids| ==> InARow(a, b, last)[m].id == ids[m]
  {
  }

  lemma WorkIds(k: Env, s: State, ws: seq<Work>, xs: seq<Id>, derive: Identity -> Id, at: int -> int)
    requires AllOpen(s, ws) && AllPending(s, xs) && s.cancellation.Some?
    ensures var works := WorkEvents(k, s, ws, DerivedNames(s, xs, derive).work, at);
      forall m :: 0 <= m < |ws| ==> works[m].id == derive(WorkIdentity(s, ws[m])) && Identities(s, ws, xs)[m] == WorkIdentity(s, ws[m])
  {
  }

  lemma ToolIds(s: State, n: nat, xs: seq<Id>, derive: Identity -> Id, at: int -> int)
    requires AllPending(s, xs) && s.cancellation.Some?
    ensures var tools := LaterTools(s, n, xs, DerivedNames(s, xs, derive).tool, at);
      forall m :: 0 <= m < |xs| ==> tools[m].id == derive(ToolIdentity(s, xs[m]))
  {
  }

  /** No event of the pass has a name that the log has already used. */
  ghost predicate NewNames(s: State, ids: seq<Identity>, derive: Identity -> Id) {
    forall m :: 0 <= m < |ids| ==> derive(ids[m]) !in s.seen
  }

  lemma AppendedUnique(log: seq<Event>, events: seq<Event>)
    requires UniqueIds(log)
    ensures UniqueIds(log + events) <==>
      && (forall i, j :: 0 <= i < j < |events| ==> events[i].id != events[j].id)
      && (forall m :: 0 <= m < |events| ==> !exists p :: RowOf(log, p, events[m].id))
  {
    var all, n := log + events, |log|;
    if UniqueIds(all) {
      forall i, j | 0 <= i < j < |events| ensures events[i].id != events[j].id { assert all[n + i].id != all[n + j].id; }
      forall m, p | 0 <= m < |events| && 0 <= p < n ensures log[p].id != events[m].id { assert all[p].id != all[n + m].id; }
      forall m | 0 <= m < |events| ensures !exists p :: RowOf(log, p, events[m].id) { }
    }
    if (forall i, j :: 0 <= i < j < |events| ==> events[i].id != events[j].id)
      && (forall m :: 0 <= m < |events| ==> !exists p :: RowOf(log, p, events[m].id))
    {
      forall i, j | 0 <= i < j < |all| ensures all[i].id != all[j].id {
        if i >= n {
          assert events[i - n].id != events[j - n].id;
        } else if j >= n {
          assert !RowOf(log, i, events[j - n].id);
        }
      }
    }
  }

  /** The ledger takes the whole pass exactly when the log has no twins, and none of the ids that the
      pass derives stands in the log already, as that of an earlier recovery of a step or call under the
      same names would. */
  lemma LedgerTakesPassIff(k: Env, log: seq<Event>, turns: seq<Id>, tools: seq<Id>, derive: Identity -> Id, at: int -> int)
    requires Renders(k) && Cancellable(k, log, turns, tools) && UniqueIds(log) && Injective(derive)
    ensures (forall m :: 0 <= m < |turns| ==> turns[m] in Replay(k, log).value.turns)
    ensures AllOpen(Replay(k, log).value, Works(Replay(k, log).value, turns))
    ensures AllPending(Replay(k, log).value, PendingTools(Replay(k, log).value, tools))
    ensures var s := Replay(k, log).value; var ws, xs := Works(s, turns), PendingTools(s, tools);
      Stored(k, log + SettleEvents(k, s, turns, tools, DerivedNames(s, xs, derive), at)) <==>
        !Twins(s, ws, xs) && NewNames(s, Identities(s, ws, xs), derive)
  {
    var s := Replay(k, log).value;
    Listed(k, log, turns, tools);
    var ws, xs := Works(s, turns), PendingTools(s, tools);
    EveryCancellableLogSettles(k, log, turns, tools, DerivedNames(s, xs, derive), at);
    SeenIds(k, log);
    PassIds(k, s, ws, xs, derive, at);
    PassIdsDifferExactly(s, ws, xs);
    var events, ids := SettleEvents(k, s, turns, tools, DerivedNames(s, xs, derive), at), Identities(s, ws, xs);
    AppendedUnique(log, events);
    IdsDifferAlike(events, ids, derive);
  }

  lemma IdsDifferAlike(events: seq<Event>, ids: seq<Identity>, derive: Identity -> Id)
    requires Injective(derive) && |events| == |ids| && forall m :: 0 <= m < |ids| ==> events[m].id == derive(ids[m])
    ensures (forall i, j :: 0 <= i < j < |events| ==> events[i].id != events[j].id) <==> OnceEach(ids)
  {
    if OnceEach(ids) {
      forall i, j | 0 <= i < j < |events| ensures events[i].id != events[j].id { assert ids[i] != ids[j]; }
    } else {
      var i, j :| 0 <= i < j < |ids| && ids[i] == ids[j];
      assert events[i].id == events[j].id;
    }
  }
}
