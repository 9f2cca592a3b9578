/** The workflow engine on a parent's log that others may append to: it reserves, checkpoints one
    phase after another under its claim, and releases. */
module WorkflowEngineClass {
  import opened Outcomes
  import opened SessionFold
  import opened SessionStream
  import opened SessionRows
  import opened W = SessionWorkflow

  /** What becomes of a phase's children, and what others append to the parent meanwhile. */
  datatype PhaseRun = PhaseRun(settled: bool, foreign: seq<Event>, id: Id, at: int)

  /** How a run that does not complete is torn down: whether it was cancelled, what others append
      while its children are, and whether one of them stays behind. */
  datatype Teardown = Teardown(cancelled: bool, foreign: seq<Event>, orphan: bool)

  /** A state the run decided on, and how much of the log it is the state of. */
  datatype Met = Met(state: State, at: nat)

  datatype PhaseEnd = AllDone | ChildFailed | Lost | NotTaken

  class WorkflowEngine {
    const k: Env
    const session: Id
    var log: seq<Event>
    var active: map<Id, Id>  // workflow to the event that gave its claim
    var activeParent: Option<Id>  // the workflow that runs for this parent

    constructor (k: Env, session: Id, log: seq<Event>)
      ensures this.k == k && this.session == session && this.log == log && active == map[] && activeParent == None
    {
      this.k, this.session, this.log, active, activeParent := k, session, log, map[], None;
    }

    /** `store.append` of one event at the version just read: it folds, and its id is new. */
    method Append(body: Body, id: Id, at: int) returns (ok: bool)
      requires Accepted(k, log)
      modifies this`log
      ensures var s := Replay(k, old(log)).value; var e := Event(id, session, s.current + 1, at, body);
        && (ok <==> Takes(k, s, e)) && log == (if ok then old(log) + [e] else old(log))
      ensures Accepted(k, log)
    {
      var s := Replay(k, log).value;
      var e := Event(id, session, s.current + 1, at, body);
      ok := Takes(k, s, e);
      if ok {
        ReplayPush(k, log, e);
        log := log + [e];
      }
    }

    /** Events of others, each taken if the ledger takes it. */
    method Interleave(events: seq<Event>)
      requires Accepted(k, log)
      modifies this`log
      ensures Accepted(k, log) && old(log) <= log
    {
      for n := 0 to |events|
        invariant Accepted(k, log) && old(log) <= log
      {
        ReplayPush(k, log, events[n]);
        var s := Replay(k, log).value;
        if Apply(k, s, events[n]).Ok? && events[n].id !in s.seen { log := log + [events[n]]; }
      }
    }

    /** `#reserve`: a claim is held only when its event is durable. */
    method ReserveWorkflow(d: Definition, request: Id, resumeFrom: Option<Id>, now: int, id: Id) returns (r: Result<Id, EngineError>)
      requires Accepted(k, log) && DefinitionOk(d) && log != [] && log[0].session == session
      requires Replay(k, log).value.ending.None? && Replay(k, log).value.spec.Some? && ValidateScope(Replay(k, log).value, d).Ok?
      modifies this`log
      ensures var s := Replay(k, old(log)).value;
        match Reserve(s, d, request, resumeFrom, now)
        case Err(e) => r == Err(e) && log == old(log)
        case Ok(None) => d.id in s.reservations && r == Ok(s.reservations[d.id].claimEvent) && log == old(log)
        case Ok(Some(body)) =>
          if id in s.seen then r == Err(StoreRefused) && log == old(log)
          else r == Ok(id) && log == old(log) + [Event(id, session, s.current + 1, now, body)]
      ensures Accepted(k, log) && old(log) <= log
    {
      var s := Replay(k, log).value;
      EveryStateOk(k, log);
      SessionIs(k, log);
      var decision := Reserve(s, d, request, resumeFrom, now);
      match decision
      case Err(e) => r := Err(e);
      case Ok(None) => r := Ok(s.reservations[d.id].claimEvent);
      case Ok(Some(body)) =>
        ReserveAccepted(k, s, d, request, resumeFrom, now, Event(id, session, s.current + 1, now, body));
        var ok := Append(body, id, now);
        r := if ok then Ok(id) else Err(StoreRefused);
    }

    /** `#release` */
    method ReleaseWorkflow(d: Definition, request: Id, claim: Id, status: RunStatus, id: Id, at: int) returns (r: Result<(), EngineError>)
      requires Accepted(k, log) && log != [] && log[0].session == session
      modifies this`log
      ensures var s := Replay(k, old(log)).value;
        match Release(s, d, request, claim, status)
        case Err(e) => r == Err(e) && log == old(log)
        case Ok(None) => r.Ok? && log == old(log)
        case Ok(Some(body)) =>
          if s.ending.Some? || id in s.seen then r == Err(StoreRefused) && log == old(log)
          else r.Ok? && log == old(log) + [Event(id, session, s.current + 1, at, body)]
      ensures Accepted(k, log) && (r.Ok? ==> ReleasedBy(Replay(k, log).value, d.id, request, status))
    {
      var s := Replay(k, log).value;
      var decision := Release(s, d, request, claim, status);
      match decision
      case Err(e) => r := Err(e);
      case Ok(None) => r := Ok(());
      case Ok(Some(body)) =>
        assert s.session == Some(session) by { SessionIs(k, log); }
        ReleaseIff(k, log, d, request, claim, status, Event(id, session, s.current + 1, at, body));
        var ok := Append(body, id, at);
        r := if ok then Ok(()) else Err(StoreRefused);
    }

    /** One phase: others interleave, then the claim is checked again and the phase is recorded, in the
        state `s` that the log then folds to. */
    method CheckpointNext(d: Definition, request: Id, claim: Id, n: nat, run: PhaseRun) returns (ended: PhaseEnd, ghost before: seq<Event>, ghost s: State)
      requires Readable(k, log) && DefinitionOk(d) && n < |d.phases| && log != [] && log[0].session == session
      modifies this`log
      ensures Readable(k, log) && old(log) <= before <= log && Reaches(k, before, s, SEAL)
      ensures ended == (
        if !run.settled then ChildFailed
        else if !HoldsClaim(s, d.id, request, claim) then Lost
        else if s.ending.None? && run.id !in s.seen && CheckpointFits(s, d, d.phases[n]) then AllDone
        else NotTaken)
      ensures var p := d.phases[n];
        if ended == AllDone then |log| == |before| + 1 && log[|before|].body == PhaseCheckpointed(d.id, d.digest, claim, p.id, p.steps, p.children)
        else log == before
    {
      ReadableIs(k, log);
      Interleave(run.foreign);
      before := log;
      var state := Replay(k, log).value;
      s := state;
      ReachesIs(k, log, s, SEAL);
      ReadableIs(k, log);
      if !run.settled { return ChildFailed, before, s; }
      var decision := CheckpointPhase(state, d, request, claim, d.phases[n]);
      if decision.Err? { return Lost, before, s; }
      FitsIff(k, log, d, request, claim, n, Event(run.id, session, state.current + 1, run.at, decision.value));
      var ok := Append(decision.value, run.id, run.at);
      ReadableIs(k, log);
      ended := if ok then AllDone else NotTaken;
    }

    /** A phase that was durable before the run is joined, and not recorded again. */
    method JoinDurable(run: PhaseRun) returns (ended: PhaseEnd, ghost s: State)
      requires Readable(k, log)
      modifies this`log
      ensures Readable(k, log) && old(log) <= log && Reaches(k, log, s, SEAL)
      ensures ended == (if run.settled then AllDone else ChildFailed)
    {
      ReadableIs(k, log);
      Interleave(run.foreign);
      s := Replay(k, log).value;
      ReachesIs(k, log, s, SEAL);
      ReadableIs(k, log);
      ended := if run.settled then AllDone else ChildFailed;
    }

    /** The loop over the phases.  What was durable is kept; every checkpoint it makes is made while
        the claim is the current one; it goes on exactly while each phase is good in the state it is
        decided on. */
    method RunPhases(d: Definition, request: Id, claim: Id, durable: seq<Id>, runs: seq<PhaseRun>)
      returns (ended: PhaseEnd, ghost made: seq<Option<nat>>, ghost met: seq<Met>)
      requires Readable(k, log) && |runs| == |d.phases| && DefinitionOk(d) && log != [] && log[0].session == session
      requires forall m :: 0 <= m < |d.phases| && d.phases[m].id in durable ==> Has(log, d, m)
      modifies this`log
      ensures Readable(k, log) && old(log) <= log
      ensures |made| <= |d.phases| && (ended == AllDone <==> |made| == |d.phases|)
      ensures MadeInOrder(|old(log)|, |log|, made) && AllMade(k, log, d, request, claim, durable, made)
      ensures ended == Lost ==> ClaimGone(k, log, d, request, claim)
      ensures Decided(k, log, |old(log)|, met) && (ended == AllDone <==> AllGood(met, d, request, claim, durable, runs))
      ensures ended == AllDone ==> RecordedThere(log, d, claim, durable, met)
    {
      made, met := [], [];
      for n := 0 to |d.phases|
        invariant Readable(k, log) && old(log) <= log && |made| == n == |met|
        invariant SoFar(k, |old(log)|, log, d, request, claim, durable, runs, made, met)
      {
        ghost var start := log;
        ghost var one, x;
        if d.phases[n].id in durable { HasStays(old(log), log, d, n); }
        ended, one, x := RunPhase(d, request, claim, durable, n, runs[n]);
        if ended != AllDone {
          MadeAllStay(k, start, log, d, request, claim, durable, made);
          DecidedMore(k, |old(log)|, start, log, met, x);
          met := met + [x];
          return;
        }
        OneMore(k, |old(log)|, start, log, d, request, claim, durable, runs, made, met, one, x);
        made, met := made + [one], met + [x];
      }
      ended := AllDone;
    }

    /** The body of that loop. */
    method RunPhase(d: Definition, request: Id, claim: Id, durable: seq<Id>, n: nat, run: PhaseRun) returns (ended: PhaseEnd, ghost one: Option<nat>, ghost x: Met)
      requires Readable(k, log) && n < |d.phases| && (d.phases[n].id in durable ==> Has(log, d, n))
      requires DefinitionOk(d) && log != [] && log[0].session == session
      modifies this`log
      ensures Readable(k, log) && old(log) <= log
      ensures ended == AllDone ==> OneMade(k, log, d, request, claim, durable, n, one)
      ensures ended == AllDone && one.Some? ==> one == Some(x.at)
      ensures ended == AllDone ==> RecordedAt(log, d, claim, durable, n, x)
      ensures ended == Lost ==> ClaimGone(k, log, d, request, claim)
      ensures |old(log)| <= x.at && DecidedOn(k, log, x) && (ended == AllDone <==> PhaseGood(x.state, d, request, claim, durable, n, run))
    {
      ghost var s;
      if d.phases[n].id in durable {
        ended, s := JoinDurable(run);
        one := None;
        HasStays(old(log), log, d, n);
        x := Met(s, |log|);
        DecidedHere(k, log, log, s);
      } else {
        ghost var before;
        ended, before, s := CheckpointNext(d, request, claim, n, run);
        one, x := Some(|before|), Met(s, |before|);
        DecidedHere(k, before, log, s);
        if ended == AllDone { MadeNow(k, log, before, s, d, request, claim, n); }
      }
    }

    /** `run`: one workflow of a parent at a time. */
    method Run(d: Definition, request: Id, resumeFrom: Option<Id>, now: int, runs: seq<PhaseRun>, teardown: Teardown, ids: (Id, Id), at: int)
      returns (r: Result<RunStatus, EngineError>, ghost claim: Id, ghost met: seq<Met>)
      requires Accepted(k, log) && DefinitionOk(d) && |runs| == |d.phases| && log != [] && log[0].session == session
      modifies this
      ensures Accepted(k, log) && old(log) <= log && active == old(active) && activeParent == old(activeParent)
      ensures Decided(k, log, |old(log)|, met) && RanOk(k, log, d, request, claim, r)
      ensures var s := Replay(k, old(log)).value;
        var start := MayStart(s, d, request, resumeFrom, now, ids.0);
        if d.id in old(active) then r == Err(AlreadyActive) && log == old(log)
        else if old(activeParent).Some? then r == Err(ParentAlreadyActive) && log == old(log)
        else if start.Err? then r == Err(start.error)
        else claim == start.value && (r == Ok(RunCompleted) <==> Completes(log, met, d, request, claim, DurablePhases(s, d).value, runs, ids.1))
    {
      claim, met := "", [];
      if d.id in active { return Err(AlreadyActive), claim, met; }
      if activeParent.Some? { return Err(ParentAlreadyActive), claim, met; }
      activeParent := Some(d.id);
      r, claim, met := Execute(d, request, resumeFrom, now, runs, teardown, ids, at);
      activeParent := None;
    }

    /** `#execute`: the workflow completes exactly when the run may start, each phase is good in
        the state it is decided on, and the release is; each of its phases is then in the log exactly
        once.  Whatever happens, it does not stay active. */
    method Execute(d: Definition, request: Id, resumeFrom: Option<Id>, now: int, runs: seq<PhaseRun>, teardown: Teardown, ids: (Id, Id), at: int)
      returns (r: Result<RunStatus, EngineError>, ghost claim: Id, ghost met: seq<Met>)
      requires Accepted(k, log) && DefinitionOk(d) && |runs| == |d.phases| && log != [] && d.id !in active && log[0].session == session
      modifies this`log, this`active
      ensures Accepted(k, log) && old(log) <= log && active == old(active)
      ensures Decided(k, log, |old(log)|, met) && RanOk(k, log, d, request, claim, r)
      ensures var s := Replay(k, old(log)).value;
        if MayStart(s, d, request, resumeFrom, now, ids.0).Err? then r == Err(MayStart(s, d, request, resumeFrom, now, ids.0).error)
        else
          && claim == MayStart(s, d, request, resumeFrom, now, ids.0).value
          && (r == Ok(RunCompleted) <==> Completes(log, met, d, request, claim, DurablePhases(s, d).value, runs, ids.1))
    {
      claim, met := "", [];
      var s := Replay(k, log).value;
      EveryStateOk(k, log);
      if s.ending.Some? { return Err(ParentTerminal), claim, met; }
      var scope := ValidateScope(s, d);
      if scope.Err? { return Err(scope.error), claim, met; }
      var durable := DurablePhases(s, d);
      if durable.Err? { return Err(durable.error), claim, met; }
      DurableHas(k, log, d);
      r, claim, met := ReserveAndRun(d, request, resumeFrom, now, durable.value, runs, teardown, ids, at);
    }

    /** A claim, or why there is none. */
    method TakeClaim(d: Definition, request: Id, resumeFrom: Option<Id>, now: int, id: Id) returns (r: Result<Id, EngineError>)
      requires Accepted(k, log) && DefinitionOk(d) && log != [] && log[0].session == session
      requires Replay(k, log).value.ending.None? && Replay(k, log).value.spec.Some? && ValidateScope(Replay(k, log).value, d).Ok?
      modifies this`log
      ensures Accepted(k, log) && old(log) <= log && log != [] && log[0].session == session
      ensures r == ClaimOf(Replay(k, old(log)).value, d, request, resumeFrom, now, id)
      ensures r.Err? ==> r.error != ClaimLost && log == old(log)
    {
      r := ReserveWorkflow(d, request, resumeFrom, now, id);
    }

    /** From the reservation on. */
    method ReserveAndRun(d: Definition, request: Id, resumeFrom: Option<Id>, now: int, durable: seq<Id>, runs: seq<PhaseRun>, teardown: Teardown, ids: (Id, Id), at: int)
      returns (r: Result<RunStatus, EngineError>, ghost claim: Id, ghost met: seq<Met>)
      requires Accepted(k, log) && DefinitionOk(d) && |runs| == |d.phases| && log != [] && d.id !in active && log[0].session == session
      requires Replay(k, log).value.ending.None? && Replay(k, log).value.spec.Some? && ValidateScope(Replay(k, log).value, d).Ok?
      requires forall m :: 0 <= m < |d.phases| && d.phases[m].id in durable ==> Has(log, d, m)
      modifies this`log, this`active
      ensures Accepted(k, log) && old(log) <= log && active == old(active)
      ensures Decided(k, log, |old(log)|, met) && RanOk(k, log, d, request, claim, r)
      ensures match ClaimOf(Replay(k, old(log)).value, d, request, resumeFrom, now, ids.0)
        case Err(e) => r == Err(e)
        case Ok(c) => claim == c && (r == Ok(RunCompleted) <==> Completes(log, met, d, request, claim, durable, runs, ids.1))
    {
      claim, met := "", [];
      var held := TakeClaim(d, request, resumeFrom, now, ids.0);
      if held.Err? { return Err(held.error), claim, met; }
      claim := held.value;
      active := active[d.id := held.value];
      DurableStays(old(log), log, d, durable);
      r, met := RunClaimed(d, request, held.value, durable, runs, teardown, ids.1, at);
      active := active - {d.id};
    }

    /** The part of `#execute` under the claim. */
    method RunClaimed(d: Definition, request: Id, claim: Id, durable: seq<Id>, runs: seq<PhaseRun>, teardown: Teardown, id: Id, at: int)
      returns (r: Result<RunStatus, EngineError>, ghost met: seq<Met>)
      requires Accepted(k, log) && |runs| == |d.phases| && log != [] && log[0].session == session && DefinitionOk(d)
      requires forall m :: 0 <= m < |d.phases| && d.phases[m].id in durable ==> Has(log, d, m)
      modifies this`log
      ensures Accepted(k, log) && old(log) <= log
      ensures Decided(k, log, |old(log)|, met) && RanOk(k, log, d, request, claim, r)
      ensures r == Ok(RunCompleted) <==> Completes(log, met, d, request, claim, durable, runs, id)
    {
      ReadableIs(k, log);
      ghost var made;
      var ended;
      ended, made, met := RunPhases(d, request, claim, durable, runs);
      ReadableIs(k, log);
      ghost var last := Replay(k, log).value;
      LastDecided(k, |old(log)|, log, met, last);
      met := met + [Met(last, |log|)];
      if ended == Lost {
        GoneNow(k, log, d, request, claim);
        return Err(ClaimLost), met;
      }
      if ended == AllDone {
        ghost var done := log;
        var released := ReleaseWorkflow(d, request, claim, RunCompleted, id, at);
        DecidedStays(k, |old(log)|, done, log, met);
        RecordedStays(done, log, d, claim, durable, met);
        if released.Ok? {
          AllStay(k, done, log, d, request, claim, durable, made);
          return Ok(RunCompleted), met;
        }
        if released == Err(ClaimLost) { return Err(ClaimLost), met; }
      }
      ghost var stopped := log;
      r := Undo(d, request, claim, teardown, id, at);
      DecidedStays(k, |old(log)|, stopped, log, met);
    }

    /** The teardown of a run that did not complete: its children are cancelled, and it releases. */
    method Undo(d: Definition, request: Id, claim: Id, teardown: Teardown, id: Id, at: int) returns (r: Result<RunStatus, EngineError>)
      requires Accepted(k, log) && log != [] && log[0].session == session
      modifies this`log
      ensures Accepted(k, log) && old(log) <= log && r != Ok(RunCompleted) && RanOk(k, log, d, request, claim, r)
    {
      Interleave(teardown.foreign);
      if teardown.orphan { return Err(OrphanChild); }
      var status := if teardown.cancelled then RunCancelled else RunFailed;
      var released := ReleaseWorkflow(d, request, claim, status, id, at);
      r := if released.Ok? then Ok(status) else Err(released.error);
    }
  }

  // ---------------------------------------------------------------- when a run completes

  /** The claim that `#reserve` gives, or why there is none. */
  function ClaimOf(s: State, d: Definition, request: Id, resumeFrom: Option<Id>, now: int, id: Id): Result<Id, EngineError>
    requires s.spec.Some?
  {
    match Reserve(s, d, request, resumeFrom, now)
    case Err(e) => Err(e)
    case Ok(None) => if d.id in s.reservations then Ok(s.reservations[d.id].claimEvent) else Err(Missing)
    case Ok(Some(_)) => if id in s.seen then Err(StoreRefused) else Ok(id)
  }

  /** The checks before the first phase. */
  function MayStart(s: State, d: Definition, request: Id, resumeFrom: Option<Id>, now: int, id: Id): Result<Id, EngineError> {
    if s.ending.Some? then Err(ParentTerminal)
    else if s.spec.None? then Err(Missing)
    else match ValidateScope(s, d)
      case Err(e) => Err(e)
      case Ok(_) =>
        match DurablePhases(s, d)
        case Err(e) => Err(e)
        case Ok(_) => ClaimOf(s, d, request, resumeFrom, now, id)
  }

  /** The phase settles, and was durable of old or can be recorded now under the claim. */
  predicate PhaseGood(s: State, d: Definition, request: Id, claim: Id, durable: seq<Id>, m: nat, run: PhaseRun)
    requires m < |d.phases|
  {
    && run.settled
    && (d.phases[m].id in durable
        || (HoldsClaim(s, d.id, request, claim) && s.ending.None? && run.id !in s.seen && CheckpointFits(s, d, d.phases[m])))
  }

  predicate AllGood(met: seq<Met>, d: Definition, request: Id, claim: Id, durable: seq<Id>, runs: seq<PhaseRun>)
    requires |runs| == |d.phases|
  {
    |met| == |d.phases| && GoodSoFar(met, d, request, claim, durable, runs)
  }

  predicate GoodSoFar(met: seq<Met>, d: Definition, request: Id, claim: Id, durable: seq<Id>, runs: seq<PhaseRun>)
    requires |met| <= |runs| == |d.phases|
  {
    forall m :: 0 <= m < |met| ==> PhaseGood(met[m].state, d, request, claim, durable, m, runs[m])
  }

  /** The run still holds the claim, and its release is new, or is on record already. */
  predicate ReleaseGood(s: State, d: Definition, request: Id, claim: Id, id: Id) {
    match Release(s, d, request, claim, RunCompleted)
    case Err(_) => false
    case Ok(None) => true
    case Ok(Some(_)) => s.ending.None? && id !in s.seen
  }

  /** Row `at` is where the run stood: the log up to it folds to the state it decided on. */
  ghost predicate DecidedOn(k: Env, log: seq<Event>, x: Met) { x.at <= |log| && Reaches(k, log[..x.at], x.state, SEAL) }

  /** One after the other, from row `from` on. */
  ghost predicate Decided(k: Env, log: seq<Event>, from: nat, met: seq<Met>) {
    && (forall m :: 0 <= m < |met| ==> from <= met[m].at && DecidedOn(k, log, met[m]))
    && (forall m, n :: 0 <= m < n < |met| ==> met[m].at <= met[n].at)
  }

  /** A phase that was not durable is the very row behind the state it was decided on. */
  predicate RecordedAt(log: seq<Event>, d: Definition, claim: Id, durable: seq<Id>, m: nat, x: Met)
    requires m < |d.phases|
  {
    var p := d.phases[m];
    p.id in durable || (x.at < |log| && log[x.at].body == PhaseCheckpointed(d.id, d.digest, claim, p.id, p.steps, p.children))
  }

  ghost predicate RecordedThere(log: seq<Event>, d: Definition, claim: Id, durable: seq<Id>, met: seq<Met>) {
    forall m :: 0 <= m < |met| && m < |d.phases| ==> RecordedAt(log, d, claim, durable, m, met[m])
  }

  /** In the states the run met, one after the other, every phase was good and so was the release. */
  ghost predicate Completes(log: seq<Event>, met: seq<Met>, d: Definition, request: Id, claim: Id, durable: seq<Id>, runs: seq<PhaseRun>, id: Id)
    requires |runs| == |d.phases|
  {
    && |met| == |d.phases| + 1 && RecordedThere(log, d, claim, durable, met)
    && AllGood(met[..|d.phases|], d, request, claim, durable, runs) && ReleaseGood(met[|d.phases|].state, d, request, claim, id)
  }

  /** The phases so far are made or durable, and each was good when it was decided on. */
  ghost predicate SoFar(k: Env, from: nat, log: seq<Event>, d: Definition, request: Id, claim: Id, durable: seq<Id>, runs: seq<PhaseRun>,
                        made: seq<Option<nat>>, met: seq<Met>)
    requires |met| <= |runs| == |d.phases|
  {
    && MadeInOrder(from, |log|, made) && AllMade(k, log, d, request, claim, durable, made)
    && Decided(k, log, from, met) && RecordedThere(log, d, claim, durable, met) && GoodSoFar(met, d, request, claim, durable, runs)
  }

  lemma OneMore(k: Env, from: nat, log: seq<Event>, more: seq<Event>, d: Definition, request: Id, claim: Id, durable: seq<Id>, runs: seq<PhaseRun>,
                made: seq<Option<nat>>, met: seq<Met>, one: Option<nat>, x: Met)
    requires |made| == |met| < |runs| == |d.phases| && log <= more && from <= |log|
    requires SoFar(k, from, log, d, request, claim, durable, runs, made, met)
    requires OneMade(k, more, d, request, claim, durable, |made|, one) && (one.Some? ==> one == Some(x.at) && x.at < |more|)
    requires |log| <= x.at && DecidedOn(k, more, x) && PhaseGood(x.state, d, request, claim, durable, |met|, runs[|met|])
    requires RecordedAt(more, d, claim, durable, |met|, x)
    ensures SoFar(k, from, more, d, request, claim, durable, runs, made + [one], met + [x])
  {
    MadeAllStay(k, log, more, d, request, claim, durable, made);
    DecidedMore(k, from, log, more, met, x);
    RecordedStays(log, more, d, claim, durable, met);
  }

  lemma DecidedHere(k: Env, before: seq<Event>, log: seq<Event>, s: State)
    requires before <= log && Reaches(k, before, s, SEAL)
    ensures DecidedOn(k, log, Met(s, |before|))
  {
    assert log[..|before|] == before;
  }

  lemma DecidedStays(k: Env, from: nat, log: seq<Event>, more: seq<Event>, met: seq<Met>)
    requires log <= more && Decided(k, log, from, met)
    ensures Decided(k, more, from, met)
  {
    forall m | 0 <= m < |met| ensures DecidedOn(k, more, met[m]) {
      assert DecidedOn(k, log, met[m]);
      assert more[..met[m].at] == log[..met[m].at];
    }
  }

  lemma RecordedStays(log: seq<Event>, more: seq<Event>, d: Definition, claim: Id, durable: seq<Id>, met: seq<Met>)
    requires log <= more && RecordedThere(log, d, claim, durable, met)
    ensures RecordedThere(more, d, claim, durable, met)
  {
    forall m | 0 <= m < |met| && m < |d.phases| ensures RecordedAt(more, d, claim, durable, m, met[m]) {
      assert RecordedAt(log, d, claim, durable, m, met[m]);
    }
  }

  lemma DecidedMore(k: Env, from: nat, log: seq<Event>, more: seq<Event>, met: seq<Met>, x: Met)
    requires log <= more && from <= |log| <= x.at && Decided(k, log, from, met) && DecidedOn(k, more, x)
    ensures Decided(k, more, from, met + [x])
  {
    DecidedStays(k, from, log, more, met);
    forall m | 0 <= m < |met| ensures met[m].at <= x.at { assert DecidedOn(k, log, met[m]); }
  }

  lemma LastDecided(k: Env, from: nat, log: seq<Event>, met: seq<Met>, s: State)
    requires from <= |log| && Decided(k, log, from, met) && Replay(k, log) == Ok(s)
    ensures Decided(k, log, from, met + [Met(s, |log|)])
  {
    ReachesIs(k, log, s, SEAL);
    DecidedHere(k, log, log, s);
    DecidedMore(k, from, log, log, met, Met(s, |log|));
  }

  /** The fold takes a release the engine decides on exactly while the parent is live. */
  lemma ReleaseIff(k: Env, log: seq<Event>, d: Definition, request: Id, claim: Id, status: RunStatus, e: Event)
    requires Accepted(k, log) && log != []
    requires var s := Replay(k, log).value;
      Release(s, d, request, claim, status) == Ok(Some(e.body)) && e.sequence == s.current + 1 && e.session == log[0].session
    ensures Apply(k, Replay(k, log).value, e).Ok? <==> Replay(k, log).value.ending.None?
    ensures Replay(k, log).value.ending.None? ==> Accepted(k, log + [e]) && ReleasedBy(Replay(k, log + [e]).value, d.id, request, status)
  {
    EveryStateOk(k, log);
    SessionIs(k, log);
    ReplayPush(k, log, e);
    var s := Replay(k, log).value;
    if s.ending.None? { ReleaseAccepted(k, s, d, request, claim, status, e); }
  }

  /** The fold takes a checkpoint under the held claim exactly when it fits and the parent is live. */
  lemma FitsIff(k: Env, log: seq<Event>, d: Definition, request: Id, claim: Id, n: nat, e: Event)
    requires Accepted(k, log) && log != [] && DefinitionOk(d) && n < |d.phases|
    requires var s := Replay(k, log).value;
      CheckpointPhase(s, d, request, claim, d.phases[n]) == Ok(e.body) && e.sequence == s.current + 1 && e.session == log[0].session
    ensures var s := Replay(k, log).value; Apply(k, s, e).Ok? <==> s.ending.None? && CheckpointFits(s, d, d.phases[n])
  {
    var s := Replay(k, log).value;
    EveryStateOk(k, log);
    SessionIs(k, log);
    PhaseShape(d, n);
    if s.ending.None? { CheckpointAcceptedIff(k, s, d, request, claim, d.phases[n], e); }
  }

  /** What a run's result means: a completed run has each of its phases in the log exactly once; a
      run that ends is released with its own status; a run that lost its claim does not hold it. */
  ghost predicate RanOk(k: Env, log: seq<Event>, d: Definition, request: Id, claim: Id, r: Result<RunStatus, EngineError>)
    requires Accepted(k, log)
  {
    && (r == Ok(RunCompleted) ==> forall m :: 0 <= m < |d.phases| ==> Has(log, d, m) && HasOnce(log, d, m))
    && (r.Ok? ==> ReleasedBy(Replay(k, log).value, d.id, request, r.value))
    && (r == Err(ClaimLost) ==> !HoldsClaim(Replay(k, log).value, d.id, request, claim))
  }

  /** Durable phases are in the log, under this definition. */
  lemma DurableHas(k: Env, log: seq<Event>, d: Definition)
    requires Accepted(k, log) && DurablePhases(Replay(k, log).value, d).Ok?
    ensures forall m :: 0 <= m < |d.phases| && d.phases[m].id in DurablePhases(Replay(k, log).value, d).value ==> Has(log, d, m)
  {
    EveryPhaseOk(k, log);
    var s := Replay(k, log).value;
    forall m | 0 <= m < |d.phases| && d.phases[m].id in DurablePhases(s, d).value ensures Has(log, d, m) {
      assert Recorded(s, d.id, d.phases[m].id);
      var i :| PhaseAt(log, i, d.id, d.phases[m].id);
    }
  }

  lemma DurableStays(log: seq<Event>, more: seq<Event>, d: Definition, durable: seq<Id>)
    requires log <= more && forall m :: 0 <= m < |d.phases| && d.phases[m].id in durable ==> Has(log, d, m)
    ensures forall m :: 0 <= m < |d.phases| && d.phases[m].id in durable ==> Has(more, d, m)
  {
    forall m | 0 <= m < |d.phases| && d.phases[m].id in durable ensures Has(more, d, m) { HasStays(log, more, d, m); }
  }

  /** Phase `m` is in the log no more than once. */
  ghost predicate HasOnce(log: seq<Event>, d: Definition, m: nat)
    requires m < |d.phases|
  {
    forall i, j :: PhaseAt(log, i, d.id, d.phases[m].id) && PhaseAt(log, j, d.id, d.phases[m].id) ==> i == j
  }

  lemma AllStay(k: Env, done: seq<Event>, log: seq<Event>, d: Definition, request: Id, claim: Id, durable: seq<Id>, made: seq<Option<nat>>)
    requires done <= log && Accepted(k, log) && |made| == |d.phases| && AllMade(k, done, d, request, claim, durable, made)
    ensures forall m :: 0 <= m < |d.phases| ==> Has(log, d, m) && HasOnce(log, d, m)
  {
    EveryPhaseOk(k, log);
    forall m | 0 <= m < |d.phases| ensures Has(log, d, m) && HasOnce(log, d, m) {
      assert OneMade(k, done, d, request, claim, durable, m, made[m]);
      HasStays(done, log, d, m);
    }
  }

  lemma GoneNow(k: Env, log: seq<Event>, d: Definition, request: Id, claim: Id)
    requires ClaimGone(k, log, d, request, claim)
    ensures Accepted(k, log) && !HoldsClaim(Replay(k, log).value, d.id, request, claim)
  {
    var s :| Reaches(k, log, s, SEAL) && !HoldsClaim(s, d.id, request, claim);
    ReachesIs(k, log, s, SEAL);
  }

  lemma {:induction false} SessionIs(k: Env, log: seq<Event>)
    requires Accepted(k, log) && log != []
    ensures Replay(k, log).value.session == Some(log[0].session)
    decreases |log|
  {
    var n := |log| - 1;
    if n > 0 { SessionIs(k, log[..n]); }
    ApplySession(k, Replay(k, log[..n]).value, log[n]);
  }

  lemma {:induction false} ApplySession(k: Env, s: State, e: Event)
    requires Apply(k, s, e).Ok?
    ensures Apply(k, s, e).value.session == Some(e.session) && (s.session.Some? ==> s.session == Some(e.session))
  {
    BodyHead(k, Enter(s, e), e);
  }

  /** The log folds. */
  ghost predicate Readable(k: Env, log: seq<Event>) {
    exists z :: Reaches(k, log, z, SEAL)
  }

  lemma ReadableIs(k: Env, log: seq<Event>)
    ensures Readable(k, log) <==> Accepted(k, log)
  {
    if Accepted(k, log) { ReachesIs(k, log, Replay(k, log).value, SEAL); }
    forall z | Reaches(k, log, z, SEAL) ensures Accepted(k, log) { ReachesIs(k, log, z, SEAL); }
  }

  /** Row `at` of the log is phase `m`, recorded while the claim was the current one. */
  ghost predicate Made(k: Env, log: seq<Event>, d: Definition, request: Id, claim: Id, m: nat, at: nat)
    requires m < |d.phases|
  {
    var p := d.phases[m];
    && at < |log| && log[at].body == PhaseCheckpointed(d.id, d.digest, claim, p.id, p.steps, p.children)
    && exists s :: Reaches(k, log[..at], s, SEAL) && HoldsClaim(s, d.id, request, claim)
  }

  /** Phase `m` is in the log, under this definition. */
  ghost predicate Has(log: seq<Event>, d: Definition, m: nat)
    requires m < |d.phases|
  {
    exists i :: PhaseAt(log, i, d.id, d.phases[m].id) && log[i].body.definition == d.digest
  }

  /** The checkpoints are rows from `from` up to `to`, in the order of the phases. */
  ghost predicate MadeInOrder(from: nat, to: nat, made: seq<Option<nat>>) {
    && (forall m :: 0 <= m < |made| && made[m].Some? ==> from <= made[m].value < to)
    && (forall m, n :: 0 <= m < n < |made| && made[m].Some? && made[n].Some? ==> made[m].value < made[n].value)
  }

  /** Every phase so far is durable of old, or was recorded under the claim. */
  ghost predicate AllMade(k: Env, log: seq<Event>, d: Definition, request: Id, claim: Id, durable: seq<Id>, made: seq<Option<nat>>) {
    && |made| <= |d.phases|
    && forall m :: 0 <= m < |made| ==>
      OneMade(k, log, d, request, claim, durable, m, made[m])
  }

  ghost predicate OneMade(k: Env, log: seq<Event>, d: Definition, request: Id, claim: Id, durable: seq<Id>, m: nat, one: Option<nat>)
    requires m < |d.phases|
  {
    && Has(log, d, m) && (one.None? <==> d.phases[m].id in durable)
    && (one.Some? ==> Made(k, log, d, request, claim, m, one.value))
  }

  /** The run does not own the claim any more. */
  ghost predicate ClaimGone(k: Env, log: seq<Event>, d: Definition, request: Id, claim: Id) {
    exists s :: Reaches(k, log, s, SEAL) && !HoldsClaim(s, d.id, request, claim)
  }

  lemma MadeNow(k: Env, log: seq<Event>, before: seq<Event>, s: State, d: Definition, request: Id, claim: Id, n: nat)
    requires n < |d.phases| && before < log && Reaches(k, before, s, SEAL) && HoldsClaim(s, d.id, request, claim)
    requires log[|before|].body == PhaseCheckpointed(d.id, d.digest, claim, d.phases[n].id, d.phases[n].steps, d.phases[n].children)
    ensures Made(k, log, d, request, claim, n, |before|) && Has(log, d, n)
  {
    assert log[..|before|] == before;
    assert PhaseAt(log, |before|, d.id, d.phases[n].id);
  }

  predicate HoldsClaim(s: State, w: Id, request: Id, claim: Id) {
    w in s.reservations && s.reservations[w].claim == request && s.reservations[w].claimEvent == claim
  }

  lemma HasStays(log: seq<Event>, more: seq<Event>, d: Definition, m: nat)
    requires m < |d.phases| && Has(log, d, m) && log <= more
    ensures Has(more, d, m)
  {
    var i :| PhaseAt(log, i, d.id, d.phases[m].id) && log[i].body.definition == d.digest;
    assert PhaseAt(more, i, d.id, d.phases[m].id) && more[i] == log[i];
  }

  lemma MadeAllStay(k: Env, log: seq<Event>, more: seq<Event>, d: Definition, request: Id, claim: Id, durable: seq<Id>, made: seq<Option<nat>>)
    requires log <= more && AllMade(k, log, d, request, claim, durable, made)
    ensures AllMade(k, more, d, request, claim, durable, made)
  {
    forall m | 0 <= m < |made| ensures OneMade(k, more, d, request, claim, durable, m, made[m]) {
      assert OneMade(k, log, d, request, claim, durable, m, made[m]);
      HasStays(log, more, d, m);
      if made[m].Some? { MadeStays(k, log, more, d, request, claim, m, made[m].value); }
    }
  }

  lemma MadeStays(k: Env, log: seq<Event>, more: seq<Event>, d: Definition, request: Id, claim: Id, m: nat, at: nat)
    requires m < |d.phases| && Made(k, log, d, request, claim, m, at) && log <= more
    ensures Made(k, more, d, request, claim, m, at)
  {
    assert more[..at] == log[..at];
  }
}
