/** The loops of the replay: over the events, over a step's deltas, and over the turns before one. */
module SessionReplayLoops {
  import opened Outcomes
  import B = ContextBudget
  import opened SessionFold

  lemma {:induction false} ReplayRefused(k: Env, log: seq<Event>, n: nat)
    requires n <= |log| && Replay(k, log[..n]).Err?
    ensures Replay(k, log) == Replay(k, log[..n])
    decreases |log|
  {
    if n < |log| {
      assert log[..|log| - 1][..n] == log[..n];
      ReplayRefused(k, log[..|log| - 1], n);
    } else {
      assert log[..n] == log;
    }
  }

  lemma RefusedOn(k: Env, log: seq<Event>, n: nat, x: Error)
    requires n <= |log| && Refuses(k, log[..n], x, SEAL)
    ensures Replay(k, log) == Err(x)
  {
    RefusesIs(k, log[..n], x, SEAL);
    ReplayRefused(k, log, n);
  }

  lemma RefusedAt(k: Env, log: seq<Event>, n: nat, s: State, x: Error)
    requires n < |log| && Reaches(k, log[..n], s, SEAL) && Apply(k, s, log[n]) == Err(x)
    ensures Replay(k, log) == Err(x)
  {
    RefusePush(k, log[..n], s, log[n], x);
    assert log[..n + 1] == log[..n] + [log[n]];
    RefusedOn(k, log, n + 1, x);
  }

  lemma ReachNext(k: Env, log: seq<Event>, n: nat, s: State, next: State)
    requires n < |log| && Reaches(k, log[..n], s, SEAL) && Apply(k, s, log[n]) == Ok(next)
    ensures Reaches(k, log[..n + 1], next, SEAL)
  {
    ReachPush(k, log[..n], s, log[n], next);
    assert log[..n + 1] == log[..n] + [log[n]];
  }

  lemma ReachAll(k: Env, log: seq<Event>, s: State)
    requires Reaches(k, log[..|log|], s, SEAL)
    ensures Replay(k, log) == Ok(s)
  {
    ReachesIs(k, log[..|log|], s, SEAL);
    assert log[..|log|] == log;
  }

  lemma ReachNone(k: Env, log: seq<Event>)
    ensures Reaches(k, log[..0], Start, SEAL)
  {
    ReachesIs(k, log[..0], Start, SEAL);
  }

  /** `replaySessionEvents` */
  method ReplaySessionEvents(k: Env, log: seq<Event>) returns (r: Result<State, Error>)
    ensures r == Replay(k, log)
  {
    var state := Start;
    ReachNone(k, log);
    for n := 0 to |log|
      invariant Reaches(k, log[..n], state, SEAL)
    {
      var next := Apply(k, state, log[n]);
      if next.Err? {
        RefusedAt(k, log, n, state, next.error);
        return next;
      }
      ReachNext(k, log, n, state, next.value);
      state := next.value;
    }
    ReachAll(k, log, state);
    r := Ok(state);
  }

  lemma {:induction false} GatherRefused(events: seq<ModelEvent>, n: nat)
    requires n <= |events| && GatherAll(events[..n]).None?
    ensures GatherAll(events).None?
    decreases |events|
  {
    if n < |events| {
      assert events[..|events| - 1][..n] == events[..n];
      GatherRefused(events[..|events| - 1], n);
    } else {
      assert events[..n] == events;
    }
  }

  lemma {:induction false} ParseRefused(k: Env, calls: seq<Partial>, n: nat)
    requires n <= |calls| && ParseCalls(k, calls[..n]).None?
    ensures ParseCalls(k, calls).None?
    decreases |calls|
  {
    if n < |calls| {
      assert calls[..|calls| - 1][..n] == calls[..n];
      ParseRefused(k, calls[..|calls| - 1], n);
    } else {
      assert calls[..n] == calls;
    }
  }

  /** `assembledToolCalls`: the calls are gathered in order of first mention, then parsed. */
  method AssembledToolCalls(k: Env, events: seq<ModelEvent>) returns (r: Option<seq<Call>>)
    ensures r == AssembledCalls(k, events)
  {
    var calls: seq<Partial> := [];
    for n := 0 to |events|
      invariant GatherAll(events[..n]) == Some(calls)
    {
      assert events[..n + 1][..n] == events[..n];
      if events[n].kind.ToolDelta? {
        var delta := events[n].kind;
        var i := IndexOf(calls, delta.call);
        var call := if i < 0 then Partial(delta.call, None, "") else calls[i];
        if delta.name.Some? {
          if call.name.Some? && call.name != delta.name {
            GatherRefused(events, n + 1);
            return None;
          }
          call := call.(name := delta.name);
        }
        call := call.(arguments := call.arguments + delta.arguments);
        calls := if i < 0 then calls + [call] else calls[i := call];
      }
    }
    assert events[..|events|] == events;
    var parsed: seq<Call> := [];
    for n := 0 to |calls|
      invariant ParseCalls(k, calls[..n]) == Some(parsed)
    {
      assert calls[..n + 1][..n] == calls[..n];
      var input := k.parse(calls[n].arguments);
      if input.None? || calls[n].name.None? || calls[n].name.value == "" {
        ParseRefused(k, calls, n + 1);
        return None;
      }
      parsed := parsed + [Call(calls[n].id, calls[n].name.value, input.value)];
    }
    assert calls[..|calls|] == calls;
    r := Some(parsed);
  }

  /** `durableHistory`: the loop stops at the current turn. */
  method DurableHistoryBefore(k: Env, s: State, current: Id) returns (history: seq<B.Entry>)
    ensures history == DurableHistory(k, s, s.order, current)
  {
    history := [];
    for n := 0 to |s.order|
      invariant DurableHistory(k, s, s.order, current) == history + DurableHistory(k, s, s.order[n..], current)
    {
      assert s.order[n..][0] == s.order[n] && s.order[n..][1..] == s.order[n + 1..];
      if s.order[n] == current {
        assert history + [] == history;
        return;
      }
      ghost var more := if s.order[n] in s.turns then HistoryOf(k, s.turns[s.order[n]]) else [];
      assert history + (more + DurableHistory(k, s, s.order[n + 1..], current)) == history + more + DurableHistory(k, s, s.order[n + 1..], current);
      if s.order[n] in s.turns { history := history + HistoryOf(k, s.turns[s.order[n]]); }
    }
  }
}
