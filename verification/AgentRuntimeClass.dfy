/** The agent runtime's settling pass as it runs: one append after another, each against the log as
    it then is. */
module AgentRuntimeClass {
  import opened Outcomes
  import opened SessionFold
  import opened SessionStream
  import opened SessionRows
  import opened P = SessionSettle

  class AgentRuntime {
    const k: Env
    var log: seq<Event>
    var eventIds: seq<Id>

    constructor (k: Env, log: seq<Event>)
      ensures this.k == k && this.log == log && eventIds == []
    {
      this.k, this.log, eventIds := k, log, [];
    }

    /** `#append`: the event takes the next sequence, and the store refuses what does not fold or has an
        id that is taken. */
    method Append(body: Body, id: Id, at: int) returns (ok: bool)
      requires Accepted(k, log)
      modifies this
      ensures var s := Replay(k, old(log)).value; var e := P.Next(s, 0, id, at, body);
        && (ok <==> Takes(k, s, e))
        && log == (if ok then old(log) + [e] else old(log))
        && eventIds == (if ok then old(eventIds) + [id] else old(eventIds))
    {
      var state := Replay(k, log).value;
      var e := P.Next(state, 0, id, at, body);
      ok := Apply(k, state, e).Ok? && id !in state.seen;
      if ok { log, eventIds := log + [e], eventIds + [id]; }
    }

    /** One stream is ended; `done` are those ended before it. */
    method EndStream(s: State, w: Work, id: Id, at: int, ghost done: seq<Work>, ghost y: State) returns (ok: bool, ghost z: State)
      requires Reaches(k, log, y, SEAL) && Ended(k, s, y, done) && Fits(k) && Open(s, w) && w !in done && UniqueIds(log)
      modifies this
      ensures ok ==> log == old(log) + [WorkEvent(k, s, w, |done|, id, at)] && UniqueIds(log)
      ensures ok ==> Reaches(k, log, z, SEAL) && Ended(k, s, z, done + [w])
      ensures !ok ==> log == old(log) && exists q :: RowOf(log, q, id)
    {
      ghost var before := log;
      ReachesIs(k, log, y, SEAL);
      EveryStateOk(k, log);
      assert Open(y, w);
      WorkTaken(k, y, w, id, at);
      assert P.Next(y, 0, id, at, WorkBody(k, s, w)) == WorkEvent(k, s, w, |done|, id, at);
      ok := Append(WorkBody(k, s, w), id, at);
      z := Apply(k, y, WorkEvent(k, s, w, |done|, id, at)).value;
      AppendedTo(k, before, y, WorkEvent(k, s, w, |done|, id, at), z);
      EndedMore(k, s, y, z, done, w);
    }

    /** The next stream of a list is ended; `n` events came before it. */
    method EndNext(s: State, w: Work, names: Names, at: int -> int, n: nat, ghost done: seq<Work>, ghost rest: seq<Work>, ghost start: seq<Event>, ghost y: State)
      returns (ok: bool, ghost z: State)
      requires n == |done| && Underway(k, s, start, names, at, log, done, y) && Fits(k)
      requires AllOpen(s, done + ([w] + rest)) && OnceEach(done + ([w] + rest))
      modifies this
      ensures AllOpen(s, done + [w]) && done + ([w] + rest) == done + [w] + rest
      ensures if ok then Underway(k, s, start, names, at, log, done + [w], z)
              else Stuck(log, start + WorkEvents(k, s, done + ([w] + rest), names.work, at))
    {
      WorkNext(k, s, start, done, w, rest, names.work, at);
      ghost var e := WorkEvent(k, s, w, |done|, names.work(w), at(|done|));
      ok, z := EndStream(s, w, names.work(w), at(n), done, y);
      if !ok {
        StuckHere(log, start + WorkEvents(k, s, done + [w], names.work, at), e);
        MoreWork(k, s, start, done + [w], rest, names.work, at);
        StuckFurther(log, start + WorkEvents(k, s, done + [w], names.work, at), start + WorkEvents(k, s, done + [w] + rest, names.work, at));
      }
    }

    /** The steps of one turn, and its legacy stream; `n` events came before, for `done`. */
    method EndTurn(s: State, turn: Id, names: Names, at: int -> int, n: nat, ghost done: seq<Work>, ghost start: seq<Event>, ghost y: State)
      returns (ok: bool, count: nat, ghost z: State)
      requires turn in s.turns && n == |done| && Underway(k, s, start, names, at, log, done, y) && Fits(k)
      requires AllOpen(s, done + TurnWorks(s, turn, 0)) && OnceEach(done + TurnWorks(s, turn, 0))
      modifies this
      ensures var all := done + TurnWorks(s, turn, 0);
        if ok then count == |all| && Underway(k, s, start, names, at, log, all, z)
        else Stuck(log, start + WorkEvents(k, s, all, names.work, at))
    {
      ghost var ended;
      ok, count, ended, z := EndSteps(s, turn, names, at, n, done, start, y);
      if !ok { return; }
      ghost var all := done + TurnWorks(s, turn, 0);
      if LegacyOpen(s.turns[turn]) {
        assert TurnWorks(s, turn, |s.turns[turn].steps|) == [LegacyWork(turn)] + [];
        assert ended + ([LegacyWork(turn)] + []) == all && ended + [LegacyWork(turn)] == all;
        ok, z := EndNext(s, LegacyWork(turn), names, at, count, ended, [], start, z);
        count := count + 1;
      } else {
        assert ended == all;
      }
    }

    /** The steps of the turn alone; `ended` are all the streams ended by then. */
    method EndSteps(s: State, turn: Id, names: Names, at: int -> int, n: nat, ghost done: seq<Work>, ghost start: seq<Event>, ghost y: State)
      returns (ok: bool, count: nat, ghost ended: seq<Work>, ghost z: State)
      requires turn in s.turns && n == |done| && Underway(k, s, start, names, at, log, done, y) && Fits(k)
      requires AllOpen(s, done + TurnWorks(s, turn, 0)) && OnceEach(done + TurnWorks(s, turn, 0))
      modifies this
      ensures var all := done + TurnWorks(s, turn, 0);
        if ok then all == ended + TurnWorks(s, turn, |s.turns[turn].steps|) && |ended| == count && Underway(k, s, start, names, at, log, ended, z)
        else Stuck(log, start + WorkEvents(k, s, all, names.work, at))
    {
      ok, z, count, ended := true, y, n, done;
      ghost var all := done + TurnWorks(s, turn, 0);
      for i := 0 to |s.turns[turn].steps|
        invariant all == ended + TurnWorks(s, turn, i) && |ended| == count
        invariant Underway(k, s, start, names, at, log, ended, z)
      {
        ok, count, ended, z := EndStepIfOpen(s, turn, i, names, at, count, ended, start, z);
        if !ok { return; }
      }
      ok := true;
    }

    /** The body of that loop. */
    method EndStepIfOpen(s: State, turn: Id, i: nat, names: Names, at: int -> int, n: nat, ghost done: seq<Work>, ghost start: seq<Event>, ghost y: State)
      returns (ok: bool, count: nat, ghost ended: seq<Work>, ghost z: State)
      requires turn in s.turns && i < |s.turns[turn].steps|
      requires n == |done| && Underway(k, s, start, names, at, log, done, y) && Fits(k)
      requires AllOpen(s, done + TurnWorks(s, turn, i)) && OnceEach(done + TurnWorks(s, turn, i))
      modifies this
      ensures var all := done + TurnWorks(s, turn, i);
        if ok then all == ended + TurnWorks(s, turn, i + 1) && |ended| == count && Underway(k, s, start, names, at, log, ended, z)
        else Stuck(log, start + WorkEvents(k, s, all, names.work, at))
    {
      ok, z, count, ended := true, y, n, done;
      if !HasEnd(s.turns[turn].steps[i].events) {
        ok, z := EndNext(s, StepWork(turn, i), names, at, count, ended, TurnWorks(s, turn, i + 1), start, z);
        ended, count := ended + [StepWork(turn, i)], count + 1;
      }
    }

    /** The loop over the turns. */
    method EndStreams(s: State, turns: seq<Id>, names: Names, at: int -> int, ghost start: seq<Event>) returns (ok: bool, count: nat, ghost z: State)
      requires log == start && Reaches(k, log, s, SEAL) && Going(s) && Fits(k) && UniqueIds(log)
      requires OnceEach(turns) && forall m :: 0 <= m < |turns| ==> turns[m] in s.turns
      modifies this
      ensures AllOpen(s, Works(s, turns))
      ensures if ok then count == |Works(s, turns)| && Underway(k, s, start, names, at, log, Works(s, turns), z)
              else Stuck(log, start + WorkEvents(k, s, Works(s, turns), names.work, at))
    {
      WorksAre(s, turns);
      ok, z, count := true, s, 0;
      ghost var done: seq<Work> := [];
      assert start + [] == start;
      for m := 0 to |turns|
        invariant Works(s, turns) == done + Works(s, turns[m..]) && |done| == count
        invariant Underway(k, s, start, names, at, log, done, z)
      {
        ghost var here := TurnWorks(s, turns[m], 0);
        TurnNext(s, done, turns, m);
        ok, count, z := EndTurn(s, turns[m], names, at, count, done, start, z);
        if !ok {
          AllOfTurn(k, s, start, done + here, turns, m, names.work, at, log);
          return;
        }
        done := done + here;
      }
      ok := true;
      assert done == Works(s, turns);
    }

    /** One execution is given up; `done` are those given up before it. */
    method GiveUp(s: State, x: Id, id: Id, at: int, ghost done: seq<Id>, ghost y: State) returns (ok: bool, ghost z: State)
      requires Reaches(k, log, y, SEAL) && GivenUp(s, y, done) && Pending(s, x) && x !in done && UniqueIds(log)
      modifies this
      ensures ok ==> log == old(log) + [P.Next(s, |done|, id, at, UncertainBody(s, x))] && UniqueIds(log)
      ensures ok ==> Reaches(k, log, z, SEAL) && GivenUp(s, z, done + [x])
      ensures !ok ==> log == old(log) && exists q :: RowOf(log, q, id)
    {
      ghost var before := log;
      ghost var e := P.Next(s, |done|, id, at, UncertainBody(s, x));
      ReachesIs(k, log, y, SEAL);
      EveryStateOk(k, log);
      assert Pending(y, x);
      ToolTaken(k, y, x, id, at);
      assert P.Next(y, 0, id, at, UncertainBody(s, x)) == e;
      ok := Append(UncertainBody(s, x), id, at);
      z := Apply(k, y, e).value;
      AppendedTo(k, before, y, e, z);
      GivenUpMore(s, y, z, done, x);
    }

    /** The next execution of a list is given up; `n` events came before it. */
    method GiveUpNext(s: State, x: Id, id: Id -> Id, at: int -> int, n: nat, ghost done: seq<Id>, ghost rest: seq<Id>, ghost start: seq<Event>, ghost y: State)
      returns (ok: bool, ghost z: State)
      requires n == |done| && Leaving(k, s, start, id, at, log, done, y)
      requires AllPending(s, done + ([x] + rest)) && OnceEach(done + ([x] + rest))
      modifies this
      ensures AllPending(s, done + [x]) && done + ([x] + rest) == done + [x] + rest
      ensures if ok then Leaving(k, s, start, id, at, log, done + [x], z) else Stuck(log, start + ToolEvents(s, done + ([x] + rest), id, at))
    {
      ToolNext(s, start, done, x, rest, id, at);
      ghost var e := P.Next(s, |done|, id(x), at(|done|), UncertainBody(s, x));
      ok, z := GiveUp(s, x, id(x), at(n), done, y);
      if !ok {
        StuckHere(log, start + ToolEvents(s, done + [x], id, at), e);
        MoreTools(s, start, done + [x], rest, id, at);
        StuckFurther(log, start + ToolEvents(s, done + [x], id, at), start + ToolEvents(s, done + [x] + rest, id, at));
      }
    }

    /** The loop over the executions, from a state that was read after the streams. */
    method GiveUpTools(s: State, tools: seq<Id>, id: Id -> Id, at: int -> int, ghost start: seq<Event>) returns (ok: bool, count: nat, ghost z: State)
      requires log == start && Reaches(k, log, s, SEAL) && Going(s) && OnceEach(tools) && UniqueIds(log)
      modifies this
      ensures AllPending(s, PendingTools(s, tools))
      ensures if ok then count == |PendingTools(s, tools)| && Leaving(k, s, start, id, at, log, PendingTools(s, tools), z)
              else Stuck(log, start + ToolEvents(s, PendingTools(s, tools), id, at))
    {
      PendingToolsAre(s, tools);
      ok, z, count := true, s, 0;
      ghost var done: seq<Id> := [];
      assert start + [] == start;
      for m := 0 to |tools|
        invariant PendingTools(s, tools) == done + PendingTools(s, tools[m..]) && |done| == count
        invariant Leaving(k, s, start, id, at, log, done, z)
      {
        PendingAt(s, tools, m);
        if Pending(s, tools[m]) {
          ok, z := GiveUpNext(s, tools[m], id, at, count, done, PendingTools(s, tools[m + 1..]), start, z);
          if !ok { return; }
          done, count := done + [tools[m]], count + 1;
        }
      }
      ok := true;
      assert done == PendingTools(s, tools);
    }

    /** `#settleCancellation`: all three parts, each from the log as it then is.  It stops at the first
        event whose id the ledger has already given to another. */
    method SettleCancellation(turns: seq<Id>, tools: seq<Id>, names: Names, at: int -> int) returns (ok: bool)
      requires Renders(k) && Cancellable(k, log, turns, tools) && UniqueIds(log)
      modifies this
      ensures var s := Replay(k, old(log)).value;
        && (forall m :: 0 <= m < |turns| ==> turns[m] in s.turns)
        && AllOpen(s, Works(s, turns)) && AllPending(s, PendingTools(s, tools))
        && var goal := old(log) + SettleEvents(k, s, turns, tools, names, at);
           && (ok <==> UniqueIds(goal))
           && (if ok then log == goal && Closes(k, log, Fails(s, PendingTools(s, tools))) else Stuck(log, goal))
    {
      var state := Replay(k, log).value;
      EveryStateOk(k, log);
      RenderedFits(k);
      Listed(k, log, turns, tools);
      ReachesIs(k, log, state, SEAL);
      ghost var goal := log + SettleEvents(k, state, turns, tools, names, at);
      ghost var end;
      ok, end := Settle(state, turns, tools, names, at);
      if ok { ReachesIs(k, log, end, SEAL); } else { StuckIsNotUnique(log, goal); }
    }

    /** The three parts, from the state that was read. */
    method Settle(state: State, turns: seq<Id>, tools: seq<Id>, names: Names, at: int -> int) returns (ok: bool, ghost end: State)
      requires Reaches(k, log, state, SEAL) && Going(state) && Fits(k) && state.cancellation.Some? && UniqueIds(log)
      requires OnceEach(turns) && (forall m :: 0 <= m < |turns| ==> turns[m] in state.turns) && OnceEach(tools)
      requires (forall v: Work :: v in Works(state, turns) <==> Open(state, v)) && AllOpen(state, Works(state, turns))
      requires AllPending(state, PendingTools(state, tools)) && (forall x :: x in PendingTools(state, tools) <==> Pending(state, x))
      modifies this
      ensures Finished(k, log, old(log) + SettleEvents(k, state, turns, tools, names, at), ok, end, Fails(state, PendingTools(state, tools)))
    {
      end := state;
      ghost var start := log;
      ghost var ws, xs := Works(state, turns), PendingTools(state, tools);
      var streams;
      ghost var y;
      ok, streams, y := EndStreams(state, turns, names, at, log);
      if !ok {
        WorkFirst(k, start, state, ws, xs, names, at);
        StuckFurther(log, start + WorkEvents(k, state, ws, names.work, at), start + Parts(k, state, ws, xs, names, at));
        return;
      }
      ghost var mid := log;
      PendingStay(state, y, tools);
      ok, end := SettleTools(state, y, ws, tools, names, at, streams);
      SameParts(k, start, mid, ToolsGoal(state, y, mid, ws, xs, names, at), state, y, ws, xs, names, at);
    }

    /** The tools and the terminal event, from the log with its streams ended. */
    method SettleTools(ghost s: State, ghost y: State, ghost ws: seq<Work>, tools: seq<Id>, names: Names, at: int -> int, streams: nat)
      returns (ok: bool, ghost end: State)
      requires Reaches(k, log, y, SEAL) && Ended(k, s, y, ws) && s.cancellation.Some? && streams == |ws| && OnceEach(tools) && UniqueIds(log)
      requires AllPending(y, PendingTools(s, tools)) && PendingTools(y, tools) == PendingTools(s, tools)
      requires (forall v: Work :: Open(s, v) ==> v in ws) && (forall x :: Pending(y, x) ==> x in PendingTools(s, tools))
      modifies this
      ensures AllPending(y, PendingTools(s, tools))
      ensures var xs := PendingTools(s, tools);
        Finished(k, log, ToolsGoal(s, y, old(log), ws, xs, names, at), ok, end, Fails(s, xs))
    {
      end := y;
      ghost var start, xs := log, PendingTools(s, tools);
      ghost var goal := ToolsGoal(s, y, log, ws, xs, names, at);
      var state := AfterReplay(y);
      var given;
      ghost var z;
      ok, given, z := GiveUpTools(state, tools, names.tool, Later(at, streams), log);
      if !ok {
        StuckFurther(log, start + ToolEvents(y, xs, names.tool, Later(at, |ws|)), goal);
        return;
      }
      ok, end := EndSession(s, y, z, ws, xs, goal, state.cancellation.value, given > 0, names.end, at(streams + given), names, at);
    }

    /** `store.replay` */
    method AfterReplay(ghost y: State) returns (state: State)
      requires Reaches(k, log, y, SEAL)
      ensures state == y
    {
      ReachesIs(k, log, y, SEAL);
      state := Replay(k, log).value;
    }

    /** The terminal event. */
    method EndSession(ghost s: State, ghost y: State, ghost z: State, ghost ws: seq<Work>, ghost xs: seq<Id>, ghost goal: seq<Event>, cancellation: Cancellation,
                      uncertain: bool, id: Id, at: int, ghost names: Names, ghost clock: int -> int) returns (ok: bool, ghost end: State)
      requires Reaches(k, log, z, SEAL) && Ended(k, s, y, ws) && GivenUp(y, z, xs) && s.cancellation == Some(cancellation) && UniqueIds(log)
      requires (forall v: Work :: Open(s, v) ==> v in ws) && (forall x :: Pending(y, x) ==> x in xs)
      requires uncertain == (xs != []) && id == names.end && at == clock(|ws| + |xs|)
      requires goal == log + [LastOne(s, |ws| + |xs|, xs, names, clock)]
      modifies this
      ensures Finished(k, log, goal, ok, end, Fails(s, xs))
    {
      ghost var before := log;
      ghost var e := LastOne(s, |ws| + |xs|, xs, names, clock);
      AllDone(k, s, y, z, ws, xs);
      EndTaken(k, z, uncertain, id, at);
      ReachesIs(k, log, z, SEAL);
      assert P.Next(z, 0, id, at, EndBody(cancellation, uncertain)) == e;
      ok := Append(EndBody(cancellation, uncertain), id, at);
      end := Apply(k, z, e).value;
      AppendedTo(k, before, z, e, end);
      if !ok { StuckHere(log, goal, e); }
    }
  }

  /** The pass has reached its goal and closed the session, or the ledger stopped it. */
  ghost predicate Finished(k: Env, log: seq<Event>, goal: seq<Event>, ok: bool, end: State, failed: bool) {
    if ok then log == goal && UniqueIds(log) && Reaches(k, log, end, SEAL) && Closed(end, failed) else Stuck(log, goal)
  }

  /** The log with its tools given up and its terminal event. */
  ghost function ToolsGoal(s: State, y: State, mid: seq<Event>, ws: seq<Work>, xs: seq<Id>, names: Names, at: int -> int): seq<Event>
    requires AllPending(y, xs) && s.cancellation.Some?
  {
    mid + ToolEvents(y, xs, names.tool, Later(at, |ws|)) + [LastOne(s, |ws| + |xs|, xs, names, at)]
  }

  // ---------------------------------------------------------------- the ledger's answers

  /** What an append of `e` leads to: to state `z`, or to nothing because its id is taken. */
  lemma AppendedTo(k: Env, before: seq<Event>, y: State, e: Event, z: State)
    requires Replay(k, before) == Ok(y) && UniqueIds(before) && Apply(k, y, e) == Ok(z)
    ensures if e.id in y.seen then exists q :: RowOf(before, q, e.id) else UniqueIds(before + [e]) && Reaches(k, before + [e], z, SEAL)
  {
    SeenIds(k, before);
    StoredPush(k, before, e);
    ReplayPush(k, before, e);
    ReachesIs(k, before + [e], z, SEAL);
  }

  /** The log is on the way to `goal`, and the ledger refuses the next event for its id. */
  ghost predicate Stuck(log: seq<Event>, goal: seq<Event>) {
    log < goal && exists q :: RowOf(log, q, goal[|log|].id)
  }

  lemma StuckHere(log: seq<Event>, goal: seq<Event>, e: Event)
    requires goal == log + [e] && exists q :: RowOf(log, q, e.id)
    ensures Stuck(log, goal)
  {
    assert goal[|log|] == e;
  }

  lemma StuckFurther(log: seq<Event>, goal: seq<Event>, more: seq<Event>)
    requires Stuck(log, goal) && goal <= more
    ensures Stuck(log, more)
  {
  }

  lemma StuckIsNotUnique(log: seq<Event>, goal: seq<Event>)
    requires Stuck(log, goal)
    ensures !UniqueIds(goal)
  {
    var q :| RowOf(log, q, goal[|log|].id);
    assert goal[q].id == goal[|log|].id;
  }

  lemma MoreWork(k: Env, s: State, start: seq<Event>, done: seq<Work>, rest: seq<Work>, id: Work -> Id, at: int -> int)
    requires AllOpen(s, done + rest) && AllOpen(s, done)
    ensures start + WorkEvents(k, s, done, id, at) <= start + WorkEvents(k, s, done + rest, id, at)
  {
    var a, b := WorkEvents(k, s, done, id, at), WorkEvents(k, s, done + rest, id, at);
    assert forall m :: 0 <= m < |a| ==> a[m] == b[m];
    Prefixed(start, a, b);
  }

  lemma MoreTools(s: State, start: seq<Event>, done: seq<Id>, rest: seq<Id>, id: Id -> Id, at: int -> int)
    requires AllPending(s, done + rest) && AllPending(s, done)
    ensures start + ToolEvents(s, done, id, at) <= start + ToolEvents(s, done + rest, id, at)
  {
    var a, b := ToolEvents(s, done, id, at), ToolEvents(s, done + rest, id, at);
    assert forall m :: 0 <= m < |a| ==> a[m] == b[m];
    Prefixed(start, a, b);
  }

  lemma Prefixed<T>(start: seq<T>, a: seq<T>, b: seq<T>)
    requires |a| <= |b| && forall m :: 0 <= m < |a| ==> a[m] == b[m]
    ensures start + a <= start + b
  {
  }

  lemma AllOfTurn(k: Env, s: State, start: seq<Event>, part: seq<Work>, turns: seq<Id>, m: nat, id: Work -> Id, at: int -> int, log: seq<Event>)
    requires m < |turns| && (forall n :: 0 <= n < |turns| ==> turns[n] in s.turns) && AllOpen(s, Works(s, turns)) && AllOpen(s, part)
    requires Works(s, turns) == part + Works(s, turns[m + 1..]) && Stuck(log, start + WorkEvents(k, s, part, id, at))
    ensures Stuck(log, start + WorkEvents(k, s, Works(s, turns), id, at))
  {
    MoreWork(k, s, start, part, Works(s, turns[m + 1..]), id, at);
    StuckFurther(log, start + WorkEvents(k, s, part, id, at), start + WorkEvents(k, s, Works(s, turns), id, at));
  }

  lemma WorkFirst(k: Env, start: seq<Event>, s: State, ws: seq<Work>, xs: seq<Id>, names: Names, at: int -> int)
    requires AllOpen(s, ws) && AllPending(s, xs) && s.cancellation.Some?
    ensures start + WorkEvents(k, s, ws, names.work, at) <= start + Parts(k, s, ws, xs, names, at)
  {
    FirstInARow(start, WorkEvents(k, s, ws, names.work, at), LaterTools(s, |ws|, xs, names.tool, at), LastOne(s, |ws| + |xs|, xs, names, at));
  }

  lemma FirstInARow<T>(start: seq<T>, a: seq<T>, b: seq<T>, last: T)
    ensures start + a <= start + InARow(a, b, last)
  {
  }

  /** The executions of `done` have been given up, in that order, since the log was `start`. */
  ghost predicate Leaving(k: Env, s: State, start: seq<Event>, id: Id -> Id, at: int -> int, log: seq<Event>, done: seq<Id>, z: State) {
    && AllPending(s, done) && log == start + ToolEvents(s, done, id, at) && UniqueIds(log)
    && Reaches(k, log, z, SEAL) && GivenUp(s, z, done)
  }

  /** The streams of `done` have been ended, in that order, since the log was `start`; it now folds
      to `z`. */
  ghost predicate Underway(k: Env, s: State, start: seq<Event>, names: Names, at: int -> int, log: seq<Event>, done: seq<Work>, z: State) {
    && AllOpen(s, done) && log == start + WorkEvents(k, s, done, names.work, at) && UniqueIds(log)
    && Reaches(k, log, z, SEAL) && Ended(k, s, z, done)
  }

  /** The tools' events are the same from the state that was read first. */
  lemma {:induction false} PartsAre(k: Env, s: State, y: State, ws: seq<Work>, xs: seq<Id>, names: Names, at: int -> int)
    requires AllOpen(s, ws) && AllPending(s, xs) && AllPending(y, xs) && s.cancellation.Some?
    requires y.invocations == s.invocations && y.current == s.current + |ws| && y.session == s.session
    ensures Parts(k, s, ws, xs, names, at)
      == InARow(WorkEvents(k, s, ws, names.work, at), ToolEvents(y, xs, names.tool, Later(at, |ws|)), LastOne(s, |ws| + |xs|, xs, names, at))
  {
    SameTools(s, y, xs, names.tool, at, |ws|);
  }

  /** The three parts, put together as they were appended. */
  lemma {:induction false} SameParts(k: Env, start: seq<Event>, mid: seq<Event>, log: seq<Event>, s: State, y: State, ws: seq<Work>, xs: seq<Id>, names: Names, at: int -> int)
    requires AllOpen(s, ws) && AllPending(s, xs) && AllPending(y, xs) && s.cancellation.Some?
    requires y.invocations == s.invocations && y.current == s.current + |ws| && y.session == s.session
    requires mid == start + WorkEvents(k, s, ws, names.work, at)
    requires log == ToolsGoal(s, y, mid, ws, xs, names, at)
    ensures log == start + Parts(k, s, ws, xs, names, at)
  {
    PartsAre(k, s, y, ws, xs, names, at);
    Regroup(start, WorkEvents(k, s, ws, names.work, at), ToolEvents(y, xs, names.tool, Later(at, |ws|)),
            LastOne(s, |ws| + |xs|, xs, names, at), mid, log);
  }

  lemma Regroup<T>(a: seq<T>, b: seq<T>, c: seq<T>, d: T, mid: seq<T>, log: seq<T>)
    requires mid == a + b && log == mid + c + [d]
    ensures log == a + InARow(b, c, d)
  {
  }

  lemma PendingAt(s: State, tools: seq<Id>, m: nat)
    requires m < |tools|
    ensures PendingTools(s, tools[m..]) == if Pending(s, tools[m]) then [tools[m]] + PendingTools(s, tools[m + 1..]) else PendingTools(s, tools[m + 1..])
  {
    assert tools[m..][0] == tools[m] && tools[m..][1..] == tools[m + 1..];
  }

  lemma {:induction false} PendingSame(s: State, y: State, tools: seq<Id>)
    requires y.invocations == s.invocations
    ensures PendingTools(y, tools) == PendingTools(s, tools)
  {
    if tools != [] { PendingSame(s, y, tools[1..]); }
  }

  lemma PendingStay(s: State, y: State, tools: seq<Id>)
    requires y.invocations == s.invocations && AllPending(s, PendingTools(s, tools))
    ensures PendingTools(y, tools) == PendingTools(s, tools) && AllPending(y, PendingTools(s, tools))
    ensures forall x :: Pending(y, x) <==> Pending(s, x)
  {
    PendingSame(s, y, tools);
  }

  /** The streams of turn `m` come next. */
  lemma {:induction false} TurnNext(s: State, done: seq<Work>, turns: seq<Id>, m: nat)
    requires m < |turns| && (forall n :: 0 <= n < |turns| ==> turns[n] in s.turns)
    requires AllOpen(s, Works(s, turns)) && OnceEach(Works(s, turns)) && Works(s, turns) == done + Works(s, turns[m..])
    ensures var here := TurnWorks(s, turns[m], 0);
      AllOpen(s, done + here) && OnceEach(done + here) && Works(s, turns) == done + here + Works(s, turns[m + 1..])
  {
    assert turns[m..][0] == turns[m] && turns[m..][1..] == turns[m + 1..];
    PrefixOpen(s, done, TurnWorks(s, turns[m], 0), Works(s, turns[m + 1..]), Works(s, turns));
  }

  lemma PrefixOpen(s: State, done: seq<Work>, here: seq<Work>, later: seq<Work>, all: seq<Work>)
    requires all == done + (here + later) && AllOpen(s, all) && OnceEach(all)
    ensures AllOpen(s, done + here) && OnceEach(done + here) && all == done + here + later
  {
    forall m | 0 <= m < |done + here| ensures (done + here)[m] == all[m] { }
  }

  lemma ToolNext(s: State, start: seq<Event>, done: seq<Id>, x: Id, rest: seq<Id>, id: Id -> Id, at: int -> int)
    requires AllPending(s, done + ([x] + rest)) && OnceEach(done + ([x] + rest)) && AllPending(s, done)
    ensures x !in done && Pending(s, x) && AllPending(s, done + [x]) && done + ([x] + rest) == done + [x] + rest
    ensures start + ToolEvents(s, done + [x], id, at)
      == start + ToolEvents(s, done, id, at) + [P.Next(s, |done|, id(x), at(|done|), UncertainBody(s, x))]
  {
    var all := done + ([x] + rest);
    assert all[|done|] == x;
    forall m | 0 <= m < |done| ensures done[m] != x { assert all[m] == done[m]; }
    forall m | 0 <= m <= |done| ensures (done + [x])[m] == all[m] { }
    assert ToolEvents(s, done + [x], id, at) == ToolEvents(s, done, id, at) + [P.Next(s, |done|, id(x), at(|done|), UncertainBody(s, x))];
  }

  /** The next work of a list has not been done, and its event comes next. */
  lemma WorkNext(k: Env, s: State, start: seq<Event>, done: seq<Work>, w: Work, rest: seq<Work>, id: Work -> Id, at: int -> int)
    requires AllOpen(s, done + ([w] + rest)) && OnceEach(done + ([w] + rest)) && AllOpen(s, done)
    ensures w !in done && Open(s, w) && AllOpen(s, done + [w]) && done + ([w] + rest) == done + [w] + rest
    ensures start + WorkEvents(k, s, done + [w], id, at) == start + WorkEvents(k, s, done, id, at) + [WorkEvent(k, s, w, |done|, id(w), at(|done|))]
  {
    var all := done + ([w] + rest);
    assert all[|done|] == w;
    forall m | 0 <= m < |done| ensures done[m] != w { assert all[m] == done[m]; }
    forall m | 0 <= m <= |done| ensures (done + [w])[m] == all[m] { }
    assert WorkEvents(k, s, done + [w], id, at) == WorkEvents(k, s, done, id, at) + [WorkEvent(k, s, w, |done|, id(w), at(|done|))];
  }
}
