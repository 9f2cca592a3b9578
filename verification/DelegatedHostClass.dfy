/** The delegated runtime store and host as objects: a state that facts update in place, a ledger
    stream that grows, and operations whose contracts say which answer of DelegatedHost they give. */
module DelegatedHostClass {
  import opened Outcomes
  import opened R = DelegatedRuntime
  import H = DelegatedHost

  class SessionState {
    const session: Id
    var trace: Option<Id>
    var version: int
    var spec: Option<Spec>
    var provider: Option<Id>
    var runtime: Id
    var runtimeSequence: int
    var terminal: bool
    var pending: Option<Turn>
    var dispatched: bool
    var cancel: Option<Cancel>
    var events: seq<RuntimeEvent>
    var last: Option<int>
    var worker: Worker

    function Value(): State
      reads this
    {
      State(session, trace, version, spec, provider, runtime, runtimeSequence, terminal, pending, dispatched, cancel, events, last, worker)
    }

    constructor (session: Id)
      ensures this.session == session && Value() == Initial(session)
    {
      this.session := session;
      trace, version, spec, provider, runtime := None, 0, None, None, "";
      runtimeSequence, terminal, pending, dispatched, cancel := 0, false, None, false, None;
      events, last, worker := [], None, NoWorker;
    }

    /** One fact, in place; the state is thrown away when a fact is refused. */
    method ApplyFact(row: Row) returns (problem: Option<Error>)
      modifies this
      ensures match R.Apply(old(Value()), row)
        case Ok(s) => problem.None? && Value() == s
        case Err(e) => problem == Some(e)
    {
      if row.session != session { return Some(BadEnvelope); }
      if row.sequence != version + 1 { return Some(BadSequence); }
      if !OnClock(row.at) { return Some(BadClock); }
      if last.Some? && row.at < last.value { return Some(BadSequence); }
      if !SchemaOk(row.fact) { return Some(BadSchema); }
      if trace.Some? && trace.value != row.trace { return Some(Fragmented); }
      ghost var before := Value();
      trace := Some(row.trace);
      if TokenOf(row.fact).None? {
        problem := ApplySessionFact(row.fact);
        SessionFactKeeps(before, row.fact, row.trace);
      } else {
        problem := ApplyWorkerFact(row.at, row.fact);
      }
      if problem.None? { version, last := row.sequence, Some(row.at); }
    }

    method ApplySessionFact(f: Fact) returns (problem: Option<Error>)
      requires TokenOf(f).None?
      modifies this
      ensures match SessionEffect(old(Value()), f)
        case Ok(s) => problem.None? && Value() == s
        case Err(e) => problem == Some(e)
    {
      problem := Some(BadFact);
      match f {
        case Created(s) =>
          if version != 0 || s.session != session || !s.delegated { return; }
          spec := Some(s);
        case Bound(r, p) =>
          if spec.None? || provider.Some? || p != spec.value.provider { return; }
          provider, runtime := Some(p), r;
        case Recorded(e) =>
          if provider != Some(e.provider) || e.runtime != runtime || e.sequence != runtimeSequence + 1 { return; }
          if e.kind.Started? && e.kind.session != session { return; }
          if terminal { return; }
          runtimeSequence, events := e.sequence, events + [e];
          if e.kind.Completed? || e.kind.RunFailed? { terminal, pending := true, None; }
        case TurnRequested(turn) =>
          if provider.None? || terminal || pending.Some? { return; }
          pending, dispatched := Some(turn), false;
        case DispatchStarted(request) =>
          if pending.None? || pending.value.request != request || dispatched || terminal { return; }
          dispatched := true;
        case CancelRequested(c) =>
          if provider.None? || terminal || cancel.Some? { return; }
          cancel := Some(c);
        case Failed(_) =>
          if terminal { return; }
          terminal, pending := true, None;
        case OutcomeUncertain(_) =>
          if terminal { return; }
          terminal, pending := true, None;
      }
      problem := None;
    }

    method ApplyWorkerFact(at: int, f: Fact) returns (problem: Option<Error>)
      requires TokenOf(f).Some?
      modifies this`worker
      ensures match WorkerEffect(old(Value()), at, f)
        case Ok(w) => problem.None? && worker == w
        case Err(e) => problem == Some(e)
    {
      problem := Some(BadFact);
      if f.Attached? {
        if provider.None? || terminal { return; }
        if at + f.ttl > MAX_TIME { return Some(BadClock); }
        if worker.status in {Live, Draining} || f.token.epoch != worker.epoch + 1 || f.expires != at + f.ttl { return; }
        if worker.status == Gone && worker.token.Some? && worker.token.value.worker == f.token.worker { return; }
        worker := Worker(Live, Some(f.token), f.token.epoch, f.ttl, Some(f.expires), None, None, None);
        return None;
      }
      if worker.token != TokenOf(f) { return Some(Fenced); }
      match f {
        case Heartbeat(_, ttl, expires) =>
          if at + ttl > MAX_TIME { return Some(BadClock); }
          var expiry := if worker.deadline.Some? then Min(at + ttl, worker.deadline.value) else at + ttl;
          if worker.status !in {Live, Draining} || worker.expires.None? || ttl != worker.ttl || expires != expiry { return; }
          if expires <= worker.expires.value { return; }
          worker := worker.(expires := Some(expires));
        case DrainRequested(_, request, defer, deadline, reason) =>
          if at + defer > MAX_TIME { return Some(BadClock); }
          if worker.status != Live || worker.expires.None? || deadline != Min(at + defer, worker.expires.value) || deadline <= at { return; }
          worker := worker.(status := Draining, deadline := Some(deadline), drain := Some(R.Drain(request, reason, defer)));
        case Parked(_, checkpoint, reason) =>
          if worker.status != Draining || dispatched || checkpoint != runtimeSequence { return; }
          if worker.drain.None? || reason != worker.drain.value.reason { return; }
          if Past(worker.expires, at) || Past(worker.deadline, at) { return; }
          worker := worker.(status := Resting, checkpoint := Some(checkpoint), expires := None, deadline := None);
        case Orphaned(_, reason) =>
          if !Expired(worker, at) || reason != OrphanReason(worker, at) { return; }
          worker := worker.(status := Orphan, expires := None, deadline := None);
        case Retired(_, _) =>
          if !terminal && worker.status !in {Resting, Orphan} { return; }
          worker := worker.(status := Gone);
      }
      problem := None;
    }
  }

  /** A session fact neither reads nor writes the trace. */
  lemma SessionFactKeeps(s: State, f: Fact, trace: Id)
    requires TokenOf(f).None?
    ensures SessionEffect(s.(trace := Some(trace)), f) ==
      match SessionEffect(s, f) case Ok(t) => Ok(t.(trace := Some(trace))) case Err(e) => Err(e)
  {
  }

  class DelegatedRuntimeStore {
    const session: Id
    var rows: seq<Row>

    constructor (session: Id)
      ensures this.session == session && rows == []
    {
      this.session := session;
      rows := [];
    }

    method Read() returns (r: Result<State, Error>)
      ensures r == Fold(session, rows)
    {
      var state := new SessionState(session);
      assert rows[..0] == [];
      for n := 0 to |rows|
        invariant Fold(session, rows[..n]) == Ok(state.Value())
      {
        assert rows[..n + 1] == rows[..n] + [rows[n]];
        FoldPush(session, rows[..n], rows[n]);
        var problem := state.ApplyFact(rows[n]);
        if problem.Some? {
          RefusedForGood(session, rows, n + 1);
          return Err(problem.value);
        }
      }
      assert rows[..|rows|] == rows;
      r := Ok(state.Value());
    }

    method Append(expected: int, at: Time, trace: Option<Id>, f: Fact) returns (r: Result<State, Error>)
      modifies this`rows
      ensures H.Append(session, old(rows), expected, at, trace, f) == H.Answer(rows, r)
    {
      if !SchemaOk(f) { return Err(BadSchema); }
      var current := Read();
      if current.Err? { return current; }
      var s := current.value;
      var resolved := if s.trace.Some? then s.trace.value else if trace.Some? then trace.value else session;
      if trace.Some? && trace.value != resolved { return Err(Fragmented); }
      if s.last.Some? && at < s.last.value { return Err(BadSequence); }
      var row := Row(session, expected + 1, at, resolved, f);
      var next := R.Apply(s, row);
      if next.Err? { return next; }
      FoldPush(session, rows, row);
      rows := rows + [row];
      r := Read();
    }
  }

  /** A log with a refused prefix is refused, for the same reason. */
  lemma {:induction false} RefusedForGood(session: Id, rows: seq<Row>, n: nat)
    requires n <= |rows| && Fold(session, rows[..n]).Err?
    ensures Fold(session, rows) == Fold(session, rows[..n])
    decreases |rows|
  {
    if n < |rows| {
      assert rows[..|rows| - 1][..n] == rows[..n];
      RefusedForGood(session, rows[..|rows| - 1], n);
    } else {
      assert rows[..n] == rows;
    }
  }

  class DelegatedRuntimeHost {
    const store: DelegatedRuntimeStore

    constructor (store: DelegatedRuntimeStore)
      ensures this.store == store
    {
      this.store := store;
    }

    method ExpireWorkerIfNeeded(s: State, now: Time) returns (r: Result<State, Error>)
      requires s.session == store.session
      modifies store`rows
      ensures H.Expire(old(store.rows), s, now) == H.Answer(store.rows, r)
    {
      if s.terminal || !Expired(s.worker, now) || s.worker.token.None? { return Ok(s); }
      r := store.Append(s.version, now, None, Orphaned(s.worker.token.value, OrphanReason(s.worker, now)));
    }

    method ClaimWorker(now: Time, input: H.ClaimInput) returns (r: Result<State, Error>)
      modifies store`rows
      ensures H.ClaimWorker(store.session, old(store.rows), now, input) == H.Answer(store.rows, r)
    {
      if !H.ClaimOk(input) { return Err(BadSchema); }
      r := store.Read();
      if r.Err? { return; }
      SessionKept(store.session, store.rows);
      if r.value.provider.None? || r.value.terminal { return Err(NotLive); }
      ghost var read := r.value;
      ghost var rows := store.rows;
      r := ExpireWorkerIfNeeded(r.value, now);
      if r.Err? { return; }
      ExpireKeepsSession(rows, read, now);
      r := ClaimFrom(r.value, now, input);
    }

    method ClaimFrom(s: State, now: Time, input: H.ClaimInput) returns (r: Result<State, Error>)
      requires s.session == store.session
      modifies store`rows
      ensures H.ClaimFrom(old(store.rows), s, now, input) == H.Answer(store.rows, r)
    {
      if s.worker.status == Gone && s.worker.token.Some? && s.worker.token.value.worker == input.worker { return Err(Fenced); }
      if s.worker.status in {Live, Draining} { return Err(LeaseConflict); }
      if now + input.ttl > MAX_TIME { return Err(BadClock); }
      r := store.Append(s.version, now, None, H.Attaching(s, now, input));
    }

    method HeartbeatWorker(now: Time, token: Token) returns (r: Result<State, Error>)
      modifies store`rows
      ensures H.HeartbeatWorker(store.session, old(store.rows), now, token) == H.Answer(store.rows, r)
    {
      if !TokenOk(token) { return Err(BadSchema); }
      r := store.Read();
      if r.Err? { return; }
      SessionKept(store.session, store.rows);
      ghost var read := r.value;
      ghost var rows := store.rows;
      r := ExpireWorkerIfNeeded(r.value, now);
      if r.Err? { return; }
      ExpireKeepsSession(rows, read, now);
      var s := r.value;
      if !H.Holds(s, Some(token), now, {Live, Draining}) || s.worker.expires.None? { return Err(Fenced); }
      if now + s.worker.ttl > MAX_TIME { return Err(BadClock); }
      var expiry := now + s.worker.ttl;
      if s.worker.deadline.Some? && s.worker.deadline.value <= expiry { expiry := s.worker.deadline.value; }
      if expiry <= s.worker.expires.value { return Err(NoAdvance); }
      r := store.Append(s.version, now, None, Heartbeat(token, s.worker.ttl, expiry));
    }

    method DrainWorker(now: Time, input: H.DrainInput) returns (r: Result<State, Error>)
      modifies store`rows
      ensures H.DrainWorker(store.session, old(store.rows), now, input) == H.Answer(store.rows, r)
    {
      if !H.DrainOk(input) { return Err(BadSchema); }
      r := store.Read();
      if r.Err? { return; }
      SessionKept(store.session, store.rows);
      if r.value.worker.status == Draining && H.SameDrain(r.value.worker, input) { return; }
      ghost var read := r.value;
      ghost var rows := store.rows;
      r := ExpireWorkerIfNeeded(r.value, now);
      if r.Err? { return; }
      ExpireKeepsSession(rows, read, now);
      r := DrainFrom(r.value, now, input);
    }

    method DrainFrom(s: State, now: Time, input: H.DrainInput) returns (r: Result<State, Error>)
      requires s.session == store.session
      modifies store`rows
      ensures H.DrainFrom(old(store.rows), s, now, input) == H.Answer(store.rows, r)
    {
      if !H.Holds(s, Some(input.token), now, {Live}) || s.worker.expires.None? { return Err(Fenced); }
      if now + input.defer > MAX_TIME { return Err(BadClock); }
      var deadline := Min(now + input.defer, s.worker.expires.value);
      if deadline <= now { return Err(BadClock); }
      r := store.Append(s.version, now, None, DrainRequested(input.token, input.request, input.defer, deadline, input.reason));
    }

    method ParkWorker(now: Time, request: Id, token: Token, reason: Id) returns (r: Result<State, Error>)
      modifies store`rows
      ensures H.ParkWorker(store.session, old(store.rows), now, request, token, reason) == H.Answer(store.rows, r)
    {
      if !TokenOk(token) { return Err(BadSchema); }
      r := store.Read();
      if r.Err? { return; }
      SessionKept(store.session, store.rows);
      var w := r.value.worker;
      if w.status == Resting && w.token == Some(token) && w.drain.Some? && w.drain.value.request == request && w.drain.value.reason == reason {
        return;
      }
      ghost var read := r.value;
      ghost var rows := store.rows;
      r := ExpireWorkerIfNeeded(r.value, now);
      if r.Err? { return; }
      ExpireKeepsSession(rows, read, now);
      var s := r.value;
      if !H.Holds(s, Some(token), now, {Draining}) { return Err(Fenced); }
      if s.dispatched { return Err(InDoubt); }
      r := store.Append(s.version, now, None, Parked(token, s.runtimeSequence, reason));
    }

    method DrainAndParkWorker(now: Time, later: Time, input: H.DrainInput) returns (r: Result<State, Error>)
      modifies store`rows
      ensures H.DrainAndPark(store.session, old(store.rows), now, later, input) == H.Answer(store.rows, r)
    {
      if !H.DrainOk(input) { return Err(BadSchema); }
      r := store.Read();
      if r.Err? { return; }
      var status := r.value.worker.status;
      if status in {Draining, Resting} && !H.SameDrain(r.value.worker, input) { return Err(Fenced); }
      if status == Resting { return; }
      if status != Draining {
        r := DrainWorker(now, input);
        if r.Err? { return; }
      }
      r := ParkWorker(later, input.request, input.token, input.reason);
    }

    method SweepWorker(now: Time) returns (r: Result<State, Error>)
      modifies store`rows
      ensures H.SweepWorker(store.session, old(store.rows), now) == H.Answer(store.rows, r)
    {
      r := store.Read();
      if r.Err? { return; }
      SessionKept(store.session, store.rows);
      r := ExpireWorkerIfNeeded(r.value, now);
    }

    method RetireWorker(now: Time, token: Token, reason: Id) returns (r: Result<State, Error>)
      modifies store`rows
      ensures H.RetireWorker(store.session, old(store.rows), now, token, reason) == H.Answer(store.rows, r)
    {
      if !TokenOk(token) { return Err(BadSchema); }
      r := store.Read();
      if r.Err? { return; }
      SessionKept(store.session, store.rows);
      if r.value.worker.token != Some(token) { return Err(Fenced); }
      r := store.Append(r.value.version, now, None, Retired(token, reason));
    }

    /** `#drainToTerminal` against the events a provider gives, each recorded at a reading of the
        clock; when they run out the stream has ended without a terminal fact. */
    method DrainToTerminal(state: State, events: seq<RuntimeEvent>, times: seq<Time>) returns (r: Result<State, Error>)
      requires |times| == |events| && Fold(store.session, store.rows) == Ok(state)
      modifies store`rows
      ensures Accepted(store.session, store.rows)
      ensures var n := |store.rows| - |old(store.rows)|;
        && RecordsOf(old(store.rows), store.rows, events, n)
        && (r.Ok? <==> StateOf(store.session, store.rows).terminal) && (r.Ok? ==> Fold(store.session, store.rows) == r)
        && (r.Err? ==>
              if n == |events| then r == Err(Provider)
              else H.Write(store.rows, StateOf(store.session, store.rows), times[n], Recorded(events[n])) == H.Answer(store.rows, r))
    {
      var current, n := state, 0;
      while !current.terminal
        invariant RecordsOf(old(store.rows), store.rows, events, n) && Fold(store.session, store.rows) == Ok(current)
        decreases |events| - n
      {
        if n == |events| { return Err(Provider); }
        ghost var before := store.rows;
        r := RecordRuntimeEvent(current, events[n], times[n]);
        RecordsMore(old(store.rows), before, store.rows, events, n, r.Ok?);
        if r.Err? { return; }
        current, n := r.value, n + 1;
      }
      r := Ok(current);
    }

    method RecordRuntimeEvent(state: State, event: RuntimeEvent, now: Time) returns (r: Result<State, Error>)
      requires Fold(store.session, store.rows) == Ok(state)
      modifies store`rows
      ensures H.Write(old(store.rows), state, now, Recorded(event)) == H.Answer(store.rows, r)
      ensures r.Err? ==> store.rows == old(store.rows)
      ensures r.Ok? ==>
        && |store.rows| == |old(store.rows)| + 1 && old(store.rows) <= store.rows
        && store.rows[|old(store.rows)|].fact == Recorded(event) && Fold(store.session, store.rows) == r
    {
      EveryStateOk(store.session, store.rows);
      ghost var before := store.rows;
      r := store.Append(state.version, now, None, Recorded(event));
      H.AppendExactly(store.session, before, state.version, now, Recorded(event));
    }
  }

  /** The rows added are those of the first `n` events. */
  ghost predicate RecordsOf(before: seq<Row>, rows: seq<Row>, events: seq<RuntimeEvent>, n: int) {
    && 0 <= n <= |events| && |rows| == |before| + n && before <= rows
    && forall k :: 0 <= k < n ==> rows[|before| + k].fact == Recorded(events[k])
  }

  lemma RecordsMore(before: seq<Row>, rows: seq<Row>, more: seq<Row>, events: seq<RuntimeEvent>, n: int, taken: bool)
    requires RecordsOf(before, rows, events, n) && n < |events|
    requires if taken then |more| == |rows| + 1 && rows <= more && more[|rows|].fact == Recorded(events[n]) else more == rows
    ensures RecordsOf(before, more, events, if taken then n + 1 else n)
  {
  }

  lemma SessionKept(session: Id, rows: seq<Row>)
    ensures Accepted(session, rows) ==> StateOf(session, rows).session == session
  {
    if Accepted(session, rows) { EveryStateOk(session, rows); }
  }

  lemma ExpireKeepsSession(rows: seq<Row>, s: State, now: Time)
    requires Fold(s.session, rows) == Ok(s)
    ensures var a := H.Expire(rows, s, now); a.result.Ok? ==> a.result.value.session == s.session
  {
    H.ExpireExactly(rows, s, now);
  }
}
