/** The delegated runtime log: `applyFact` folds one session's facts into its state, among them the
    leases that workers take on the session. */
module DelegatedRuntime {
  import opened Outcomes

  type Id = string

  const MAX_WORKER_LEASE_MS := 300_000
  const MAX_DEFER_SHUTDOWN_MS := 900_000
  const MAX_TIME := 8_640_000_000_000_000
  const MAX_SAFE := 9_007_199_254_740_991

  datatype Spec = Spec(session: Id, delegated: bool, provider: Id)

  datatype EventKind = Started(session: Id) | Progress | Completed | RunFailed

  datatype RuntimeEvent = RuntimeEvent(provider: Id, runtime: Id, sequence: int, kind: EventKind)

  datatype Turn = Turn(request: Id, turn: Id, message: Id)

  datatype Cancel = Cancel(request: Id, reason: Id)

  /** Who holds a lease: the fencing token. */
  datatype Token = Token(worker: Id, epoch: int)

  datatype Fact =
    | Created(spec: Spec)
    | Bound(runtime: Id, provider: Id)
    | TurnRequested(turn: Turn)
    | DispatchStarted(request: Id)
    | CancelRequested(cancel: Cancel)
    | Failed(request: Id)
    | OutcomeUncertain(request: Id)
    | Recorded(event: RuntimeEvent)
    | Attached(token: Token, ttl: int, expires: int)
    | Heartbeat(token: Token, ttl: int, expires: int)
    | DrainRequested(token: Token, request: Id, defer: int, deadline: int, reason: Id)
    | Parked(token: Token, checkpoint: int, reason: Id)
    | Orphaned(token: Token, reason: Id)
    | Retired(token: Token, reason: Id)

  datatype Row = Row(session: Id, sequence: int, at: int, trace: Id, fact: Fact)

  datatype Status = Unassigned | Live | Draining | Resting | Orphan | Gone

  datatype Drain = Drain(request: Id, reason: Id, defer: int)

  /** `status` reads attached, draining, parked, orphaned and retired as Live, Draining, Resting,
      Orphan and Gone. */
  datatype Worker = Worker(
    status: Status,
    token: Option<Token>,
    epoch: int,
    ttl: int,
    expires: Option<int>,
    deadline: Option<int>,
    drain: Option<Drain>,
    checkpoint: Option<int>)

  datatype State = State(
    session: Id,
    trace: Option<Id>,
    version: int,
    spec: Option<Spec>,
    provider: Option<Id>,  // of the bound manifest
    runtime: Id,
    runtimeSequence: int,
    terminal: bool,
    pending: Option<Turn>,
    dispatched: bool,
    cancel: Option<Cancel>,
    events: seq<RuntimeEvent>,
    last: Option<int>,
    worker: Worker)

  datatype Error = BadEnvelope | BadSequence | BadClock | BadSchema | Fragmented | BadFact | Fenced
    | LeaseConflict | InDoubt | NotLive | NoAdvance | OtherTurn | Provider

  const NoWorker := Worker(Unassigned, None, 0, 0, None, None, None, None)

  function Initial(session: Id): State {
    State(session, None, 0, None, None, "", 0, false, None, false, None, [], None, NoWorker)
  }

  // ---------------------------------------------------------------- one fact

  predicate OnClock(t: int) { -MAX_TIME <= t <= MAX_TIME }

  /** What the clock can read, in milliseconds. */
  type Time = t: int | OnClock(t) witness 0

  predicate TokenOk(t: Token) { 1 <= t.epoch <= MAX_SAFE }

  predicate SchemaOk(f: Fact) {
    match f
    case Attached(t, ttl, expires) => TokenOk(t) && 1 <= ttl <= MAX_WORKER_LEASE_MS && OnClock(expires)
    case Heartbeat(t, ttl, expires) => TokenOk(t) && 1 <= ttl <= MAX_WORKER_LEASE_MS && OnClock(expires)
    case DrainRequested(t, _, defer, deadline, _) => TokenOk(t) && 1 <= defer <= MAX_DEFER_SHUTDOWN_MS && OnClock(deadline)
    case Parked(t, checkpoint, _) => TokenOk(t) && 0 <= checkpoint <= MAX_SAFE
    case Orphaned(t, _) => TokenOk(t)
    case Retired(t, _) => TokenOk(t)
    case _ => true
  }

  function Min(a: int, b: int): int { if a < b then a else b }

  predicate Past(limit: Option<int>, now: int) { limit.Some? && limit.value <= now }

  function AttachWorker(w: Worker, at: int, f: Fact): Result<Worker, Error>
    requires f.Attached?
  {
    if at + f.ttl > MAX_TIME then Err(BadClock)
    else if w.status in {Live, Draining} || f.token.epoch != w.epoch + 1 || f.expires != at + f.ttl
      || (w.status == Gone && w.token.Some? && w.token.value.worker == f.token.worker) then Err(BadFact)
    else Ok(Worker(Live, Some(f.token), f.token.epoch, f.ttl, Some(f.expires), None, None, None))
  }

  function HeartbeatWorker(w: Worker, at: int, f: Fact): Result<Worker, Error>
    requires f.Heartbeat?
  {
    if at + f.ttl > MAX_TIME then Err(BadClock)
    else
      var expiry := if w.deadline.Some? then Min(at + f.ttl, w.deadline.value) else at + f.ttl;
      if w.status !in {Live, Draining} || w.expires.None? || f.ttl != w.ttl || f.expires != expiry || f.expires <= w.expires.value
      then Err(BadFact)
      else Ok(w.(expires := Some(f.expires)))
  }

  function DrainWorker(w: Worker, at: int, f: Fact): Result<Worker, Error>
    requires f.DrainRequested?
  {
    if at + f.defer > MAX_TIME then Err(BadClock)
    else if w.status != Live || w.expires.None? || f.deadline != Min(at + f.defer, w.expires.value) || f.deadline <= at
    then Err(BadFact)
    else Ok(w.(status := Draining, deadline := Some(f.deadline), drain := Some(Drain(f.request, f.reason, f.defer))))
  }

  function ParkWorker(s: State, at: int, f: Fact): Result<Worker, Error>
    requires f.Parked?
  {
    var w := s.worker;
    if w.status != Draining || s.dispatched || f.checkpoint != s.runtimeSequence || w.drain.None? || f.reason != w.drain.value.reason
      || Past(w.expires, at) || Past(w.deadline, at)
    then Err(BadFact)
    else Ok(w.(status := Resting, checkpoint := Some(f.checkpoint), expires := None, deadline := None))
  }

  function OrphanReason(w: Worker, at: int): Id {
    if Past(w.deadline, at) then "defer_expired" else "lease_expired"
  }

  predicate Expired(w: Worker, at: int) {
    w.status in {Live, Draining} && (Past(w.deadline, at) || Past(w.expires, at))
  }

  function OrphanWorker(w: Worker, at: int, f: Fact): Result<Worker, Error>
    requires f.Orphaned?
  {
    if !Expired(w, at) || f.reason != OrphanReason(w, at) then Err(BadFact)
    else Ok(w.(status := Orphan, expires := None, deadline := None))
  }

  function RetireWorker(s: State, f: Fact): Result<Worker, Error>
    requires f.Retired?
  {
    if !s.terminal && s.worker.status !in {Resting, Orphan} then Err(BadFact) else Ok(s.worker.(status := Gone))
  }

  /** The token every worker fact carries. */
  function TokenOf(f: Fact): Option<Token> {
    match f
    case Attached(t, _, _) => Some(t)
    case Heartbeat(t, _, _) => Some(t)
    case DrainRequested(t, _, _, _, _) => Some(t)
    case Parked(t, _, _) => Some(t)
    case Orphaned(t, _) => Some(t)
    case Retired(t, _) => Some(t)
    case _ => None
  }

  function WorkerEffect(s: State, at: int, f: Fact): Result<Worker, Error>
    requires TokenOf(f).Some?
  {
    if f.Attached? then (if s.provider.None? || s.terminal then Err(BadFact) else AttachWorker(s.worker, at, f))
    else if s.worker.token != TokenOf(f) then Err(Fenced)
    else match f
      case Heartbeat(_, _, _) => HeartbeatWorker(s.worker, at, f)
      case DrainRequested(_, _, _, _, _) => DrainWorker(s.worker, at, f)
      case Parked(_, _, _) => ParkWorker(s, at, f)
      case Orphaned(_, _) => OrphanWorker(s.worker, at, f)
      case Retired(_, _) => RetireWorker(s, f)
  }

  function RecordEvent(s: State, e: RuntimeEvent): Result<State, Error> {
    if s.provider != Some(e.provider) || e.runtime != s.runtime || e.sequence != s.runtimeSequence + 1 then Err(BadFact)
    else if e.kind.Started? && e.kind.session != s.session then Err(BadFact)
    else if s.terminal then Err(BadFact)
    else
      var t := s.(runtimeSequence := e.sequence, events := s.events + [e]);
      if e.kind.Completed? || e.kind.RunFailed? then Ok(t.(terminal := true, pending := None)) else Ok(t)
  }

  function SessionEffect(s: State, f: Fact): Result<State, Error>
    requires TokenOf(f).None?
  {
    match f
    case Created(spec) =>
      if s.version != 0 || spec.session != s.session || !spec.delegated then Err(BadFact) else Ok(s.(spec := Some(spec)))
    case Bound(runtime, provider) =>
      if s.spec.None? || s.provider.Some? || provider != s.spec.value.provider then Err(BadFact)
      else Ok(s.(provider := Some(provider), runtime := runtime))
    case Recorded(e) => RecordEvent(s, e)
    case TurnRequested(turn) =>
      if s.provider.None? || s.terminal || s.pending.Some? then Err(BadFact) else Ok(s.(pending := Some(turn), dispatched := false))
    case DispatchStarted(request) =>
      if s.pending.None? || s.pending.value.request != request || s.dispatched || s.terminal then Err(BadFact)
      else Ok(s.(dispatched := true))
    case CancelRequested(cancel) =>
      if s.provider.None? || s.terminal || s.cancel.Some? then Err(BadFact) else Ok(s.(cancel := Some(cancel)))
    case Failed(_) => if s.terminal then Err(BadFact) else Ok(s.(terminal := true, pending := None))
    case OutcomeUncertain(_) => if s.terminal then Err(BadFact) else Ok(s.(terminal := true, pending := None))
  }

  function Effect(s: State, at: int, f: Fact): Result<State, Error> {
    if TokenOf(f).None? then SessionEffect(s, f)
    else
      var w :- WorkerEffect(s, at, f);
      Ok(s.(worker := w))
  }

  function Admit(s: State, row: Row): Result<(), Error> {
    if row.session != s.session then Err(BadEnvelope)
    else if row.sequence != s.version + 1 then Err(BadSequence)
    else if !OnClock(row.at) then Err(BadClock)
    else if s.last.Some? && row.at < s.last.value then Err(BadSequence)
    else if !SchemaOk(row.fact) then Err(BadSchema)
    else if s.trace.Some? && s.trace.value != row.trace then Err(Fragmented)
    else Ok(())
  }

  /** `applyFact` */
  function Apply(s: State, row: Row): Result<State, Error> {
    var _ :- Admit(s, row);
    var t :- Effect(s, row.at, row.fact);
    Ok(t.(trace := Some(row.trace), version := row.sequence, last := Some(row.at)))
  }

  function Fold(session: Id, rows: seq<Row>): Result<State, Error>
    decreases |rows|
  {
    if rows == [] then Ok(Initial(session))
    else
      var s :- Fold(session, rows[..|rows| - 1]);
      Apply(s, rows[|rows| - 1])
  }

  predicate Accepted(session: Id, rows: seq<Row>) { Fold(session, rows).Ok? }

  function StateOf(session: Id, rows: seq<Row>): State
    requires Accepted(session, rows)
  {
    Fold(session, rows).value
  }

  lemma FoldPush(session: Id, rows: seq<Row>, row: Row)
    ensures Fold(session, rows + [row]) ==
      match Fold(session, rows) case Ok(s) => Apply(s, row) case Err(e) => Err(e)
  {
    assert (rows + [row])[..|rows + [row]| - 1] == rows;
  }

  // ---------------------------------------------------------------- what every state keeps

  ghost predicate WorkerOk(w: Worker) {
    && 0 <= w.epoch
    && (w.status == Unassigned <==> w.token.None?)
    && (w.token.Some? ==> w.token.value.epoch == w.epoch >= 1 && w.epoch <= MAX_SAFE && 1 <= w.ttl <= MAX_WORKER_LEASE_MS)
    && (w.token.None? ==> w == NoWorker)
    && (w.status in {Live, Draining} ==> w.expires.Some? && OnClock(w.expires.value))
    && (w.status in {Draining, Resting} ==> w.drain.Some?)
    && (w.status == Live ==> w.deadline.None? && w.drain.None?)
    && (w.status == Draining ==> w.deadline.Some? && OnClock(w.deadline.value) && w.deadline.value <= w.expires.value)
    && (w.status in {Resting, Orphan} ==> w.expires.None? && w.deadline.None?)
  }

  ghost predicate StateOk(s: State) {
    && WorkerOk(s.worker)
    && s.version >= 0
    && |s.events| == s.runtimeSequence
    && (forall i :: 0 <= i < |s.events| ==> s.events[i].sequence == i + 1)
    && (s.provider.Some? ==> s.spec.Some? && s.spec.value.provider == s.provider.value)
    && (s.pending.Some? ==> s.provider.Some? && !s.terminal)
    && (s.worker.token.Some? ==> s.provider.Some?)
    && (s.last.Some? <==> s.version > 0)
    && (s.trace.Some? <==> s.version > 0)
    && (s.last.Some? ==> OnClock(s.last.value))
    && (s.spec.Some? ==> s.version > 0)
  }

  lemma WorkerStaysOk(s: State, at: int, f: Fact)
    requires WorkerOk(s.worker) && OnClock(at) && SchemaOk(f) && TokenOf(f).Some?
    requires WorkerEffect(s, at, f).Ok?
    ensures WorkerOk(WorkerEffect(s, at, f).value) && WorkerEffect(s, at, f).value.token.Some?
    ensures s.worker.token.None? ==> s.provider.Some?
  {
  }

  lemma EffectStaysOk(s: State, at: int, f: Fact)
    requires StateOk(s) && TokenOf(f).None? && SessionEffect(s, f).Ok?
    ensures var t := SessionEffect(s, f).value;
      && t.worker == s.worker && t.session == s.session && t.version == s.version && t.last == s.last && t.trace == s.trace
      && |t.events| == t.runtimeSequence
      && (forall i :: 0 <= i < |t.events| ==> t.events[i].sequence == i + 1)
      && (t.provider.Some? ==> t.spec.Some? && t.spec.value.provider == t.provider.value)
      && (s.provider.Some? ==> t.provider.Some?)
      && (t.pending.Some? ==> t.provider.Some? && !t.terminal)
  {
  }

  lemma ApplyKeepsOk(s: State, row: Row)
    requires StateOk(s) && Apply(s, row).Ok?
    ensures StateOk(Apply(s, row).value)
    ensures Apply(s, row).value.session == s.session && Apply(s, row).value.version == s.version + 1
  {
    if TokenOf(row.fact).None? {
      EffectStaysOk(s, row.at, row.fact);
    } else {
      WorkerStaysOk(s, row.at, row.fact);
    }
  }

  lemma {:induction false} EveryStateOk(session: Id, rows: seq<Row>)
    requires Accepted(session, rows)
    ensures StateOk(StateOf(session, rows))
    ensures StateOf(session, rows).version == |rows| && StateOf(session, rows).session == session
    decreases |rows|
  {
    if rows != [] {
      var n := |rows| - 1;
      EveryStateOk(session, rows[..n]);
      ApplyKeepsOk(StateOf(session, rows[..n]), rows[n]);
    }
  }

  // ---------------------------------------------------------------- one turn, one dispatch

  predicate TurnAt(rows: seq<Row>, i: int) { 0 <= i < |rows| && rows[i].fact.TurnRequested? }

  predicate DispatchAt(rows: seq<Row>, i: int) { 0 <= i < |rows| && rows[i].fact.DispatchStarted? }

  predicate AttachAt(rows: seq<Row>, i: int) { 0 <= i < |rows| && rows[i].fact.Attached? }

  /** The dispatch at `j` is for a turn requested before it. */
  ghost predicate ForTurn(rows: seq<Row>, j: int)
    requires DispatchAt(rows, j)
  {
    exists i :: i < j && TurnAt(rows, i) && rows[i].fact.turn.request == rows[j].fact.request
  }

  ghost predicate TurnsOk(s: State, rows: seq<Row>) {
    && (forall i :: TurnAt(rows, i) ==> s.terminal || s.pending == Some(rows[i].fact.turn))
    && (s.pending.Some? ==> exists i :: TurnAt(rows, i) && rows[i].fact.turn == s.pending.value)
    && (forall j :: DispatchAt(rows, j) ==> s.dispatched && (s.terminal || s.pending.Some?) && ForTurn(rows, j))
    && (s.dispatched ==> exists j :: DispatchAt(rows, j))
  }

  ghost predicate Single(rows: seq<Row>) {
    && (forall i, j :: TurnAt(rows, i) && TurnAt(rows, j) ==> i == j)
    && (forall i, j :: DispatchAt(rows, i) && DispatchAt(rows, j) ==> i == j)
    && (forall j :: DispatchAt(rows, j) ==> ForTurn(rows, j))
    && (forall j, k :: DispatchAt(rows, j) && j < k < |rows| ==> !rows[k].fact.Parked? && !rows[k].fact.TurnRequested?)
  }

  lemma TurnStep(s: State, row: Row)
    requires Apply(s, row).Ok?
    ensures TurnStepOk(s, Apply(s, row).value, row.fact)
  {
  }

  lemma PushKeepsTurns(s: State, rows: seq<Row>, row: Row)
    requires TurnsOk(s, rows) && Single(rows) && Apply(s, row).Ok?
    ensures TurnsOk(Apply(s, row).value, rows + [row]) && Single(rows + [row])
  {
    TurnStep(s, row);
    PushKeepsFor(s, rows, row);
    PushKeepsFacts(s, Apply(s, row).value, rows, row);
  }

  /** The earlier rows are where they were. */
  lemma OldRows(rows: seq<Row>, row: Row)
    ensures forall i :: TurnAt(rows, i) ==> TurnAt(rows + [row], i) && (rows + [row])[i] == rows[i]
    ensures forall i :: DispatchAt(rows, i) ==> DispatchAt(rows + [row], i) && (rows + [row])[i] == rows[i]
    ensures forall i :: TurnAt(rows + [row], i) && i < |rows| ==> TurnAt(rows, i)
    ensures forall i :: DispatchAt(rows + [row], i) && i < |rows| ==> DispatchAt(rows, i)
  {
  }

  lemma {:induction false} PushKeepsFor(s: State, rows: seq<Row>, row: Row)
    requires TurnsOk(s, rows)
    requires row.fact.DispatchStarted? ==> s.pending.Some? && s.pending.value.request == row.fact.request
    ensures forall j :: DispatchAt(rows + [row], j) ==> ForTurn(rows + [row], j)
  {
    var all, n := rows + [row], |rows|;
    OldRows(rows, row);
    forall j | DispatchAt(all, j) ensures ForTurn(all, j) {
      if j < n {
        assert ForTurn(rows, j);
      } else {
        assert s.pending.Some? && s.pending.value.request == row.fact.request;
      }
    }
  }

  /** How a row may change the turn and its dispatch. */
  predicate TurnStepOk(s: State, t: State, f: Fact) {
    && (s.terminal ==> t.terminal && t.dispatched == s.dispatched)
    && (f.TurnRequested? ==> !s.terminal && s.pending.None? && t.pending == Some(f.turn) && !t.dispatched)
    && (f.DispatchStarted? ==>
          && !s.terminal && !s.dispatched && t.dispatched && t.pending == s.pending
          && s.pending.Some? && s.pending.value.request == f.request)
    && (f.Parked? ==> !s.dispatched)
    && (!f.TurnRequested? ==> (t.pending == s.pending || (t.terminal && t.pending.None?)) && (s.dispatched ==> t.dispatched))
    && (!f.DispatchStarted? ==> t.dispatched ==> s.dispatched)
  }

  lemma {:induction false} PushKeepsFacts(s: State, t: State, rows: seq<Row>, row: Row)
    requires TurnsOk(s, rows) && Single(rows) && TurnStepOk(s, t, row.fact)
    requires forall j :: DispatchAt(rows + [row], j) ==> ForTurn(rows + [row], j)
    ensures TurnsOk(t, rows + [row]) && Single(rows + [row])
  {
    var all, n := rows + [row], |rows|;
    OldRows(rows, row);
    if row.fact.TurnRequested? {
      assert TurnAt(all, n);
      assert forall i :: !TurnAt(rows, i);
      assert forall i :: !DispatchAt(rows, i);
    }
    if row.fact.DispatchStarted? {
      assert DispatchAt(all, n);
      assert forall i :: !DispatchAt(rows, i);
    }
  }

  lemma {:induction false} TurnsOfLog(session: Id, rows: seq<Row>)
    requires Accepted(session, rows)
    ensures TurnsOk(StateOf(session, rows), rows) && Single(rows)
    decreases |rows|
  {
    if rows != [] {
      var n := |rows| - 1;
      TurnsOfLog(session, rows[..n]);
      PushKeepsTurns(StateOf(session, rows[..n]), rows[..n], rows[n]);
      assert rows[..n] + [rows[n]] == rows;
    }
  }

  /** An accepted log asks for one turn at most and dispatches it once at most, for the request it
      was asked with; once it is dispatched no worker checkpoints and no turn follows. */
  lemma AtMostOneDispatch(session: Id, rows: seq<Row>)
    requires Accepted(session, rows)
    ensures Single(rows)
    ensures StateOf(session, rows).dispatched <==> exists j :: DispatchAt(rows, j)
  {
    TurnsOfLog(session, rows);
    assert TurnsOk(StateOf(session, rows), rows);
  }

  // ---------------------------------------------------------------- leases

  function WorkerAt(session: Id, rows: seq<Row>, k: nat): Worker
    requires k <= |rows| && Accepted(session, rows[..k])
  {
    StateOf(session, rows[..k]).worker
  }

  /** Row `k` ends the lease `token`: its holder parked, or it was past its end. */
  ghost predicate Frees(session: Id, rows: seq<Row>, k: nat, token: Token) {
    && k < |rows| && Accepted(session, rows[..k])
    && WorkerAt(session, rows, k).token == Some(token) == TokenOf(rows[k].fact)
    && (rows[k].fact.Parked? || (rows[k].fact.Orphaned? && Expired(WorkerAt(session, rows, k), rows[k].at)))
  }

  ghost predicate FreedBetween(session: Id, rows: seq<Row>, i: nat, j: nat)
    requires i < j <= |rows| && AttachAt(rows, i)
  {
    exists k :: i < k < j && Frees(session, rows, k, rows[i].fact.token)
  }

  ghost predicate LeasesOk(session: Id, s: State, rows: seq<Row>) {
    forall i :: AttachAt(rows, i) ==>
      && rows[i].fact.token.epoch <= s.worker.epoch
      && (s.terminal || FreedBetween(session, rows, i, |rows|)
          || (s.worker.token == Some(rows[i].fact.token) && s.worker.status in {Live, Draining}))
  }

  /** Epochs grow from one attachment to the next, and the earlier lease was freed in between. */
  ghost predicate Handovers(session: Id, rows: seq<Row>) {
    forall i, j :: AttachAt(rows, i) && AttachAt(rows, j) && i < j ==> HandsOver(session, rows, i, j)
  }

  ghost predicate HandsOver(session: Id, rows: seq<Row>, i: int, j: int)
    requires i < j && AttachAt(rows, i) && AttachAt(rows, j)
  {
    rows[i].fact.token.epoch < rows[j].fact.token.epoch && FreedBetween(session, rows, i, j)
  }

  lemma FreedStays(session: Id, rows: seq<Row>, row: Row, i: nat, j: nat)
    requires i < j <= |rows| && AttachAt(rows, i)
    ensures FreedBetween(session, rows, i, j) ==> FreedBetween(session, rows + [row], i, j)
  {
    if FreedBetween(session, rows, i, j) {
      var k :| i < k < j && Frees(session, rows, k, rows[i].fact.token);
      assert (rows + [row])[..k] == rows[..k];
      assert Frees(session, rows + [row], k, (rows + [row])[i].fact.token);
    }
  }

  lemma WorkerLeaves(s: State, row: Row)
    requires StateOk(s) && Apply(s, row).Ok? && !s.terminal && s.worker.status in {Live, Draining}
    ensures var t := Apply(s, row).value;
      || (t.worker.token == s.worker.token && t.worker.status in {Live, Draining})
      || (TokenOf(row.fact) == s.worker.token && (row.fact.Parked? || (row.fact.Orphaned? && Expired(s.worker, row.at))))
    ensures !row.fact.Attached?
  {
  }

  lemma ApplyMonotone(s: State, row: Row)
    requires StateOk(s) && Apply(s, row).Ok?
    ensures var t := Apply(s, row).value;
      && (s.terminal ==> t.terminal && !row.fact.Attached?)
      && t.worker.epoch == s.worker.epoch + (if row.fact.Attached? then 1 else 0)
      && (row.fact.Attached? ==> t.worker.token == Some(row.fact.token) && row.fact.token.epoch == t.worker.epoch && t.worker.status == Live)
      && (!row.fact.Attached? && TokenOf(row.fact).Some? ==> s.worker.token == TokenOf(row.fact))
  {
  }

  /** Before a new attachment, each earlier lease has been freed. */
  lemma AllFreed(session: Id, rows: seq<Row>, row: Row, i: nat)
    requires Accepted(session, rows) && LeasesOk(session, StateOf(session, rows), rows)
    requires Apply(StateOf(session, rows), row).Ok? && row.fact.Attached? && AttachAt(rows, i)
    ensures FreedBetween(session, rows + [row], i, |rows|)
    ensures rows[i].fact.token.epoch < row.fact.token.epoch
  {
    var s := StateOf(session, rows);
    EveryStateOk(session, rows);
    ApplyMonotone(s, row);
    if s.worker.status in {Live, Draining} { WorkerLeaves(s, row); }
    FreedStays(session, rows, row, i, |rows|);
  }

  lemma {:induction false} PushKeepsHandover(session: Id, rows: seq<Row>, row: Row, i: nat, j: nat)
    requires Accepted(session, rows) && LeasesOk(session, StateOf(session, rows), rows) && Handovers(session, rows)
    requires Apply(StateOf(session, rows), row).Ok?
    requires AttachAt(rows + [row], i) && AttachAt(rows + [row], j) && i < j
    ensures HandsOver(session, rows + [row], i, j)
  {
    assert AttachAt(rows, i);
    if j < |rows| {
      assert AttachAt(rows, j);
      assert HandsOver(session, rows, i, j);
      FreedStays(session, rows, row, i, j);
    } else {
      AllFreed(session, rows, row, i);
    }
  }

  lemma {:induction false} PushKeepsHandovers(session: Id, rows: seq<Row>, row: Row)
    requires Accepted(session, rows) && LeasesOk(session, StateOf(session, rows), rows) && Handovers(session, rows)
    requires Apply(StateOf(session, rows), row).Ok?
    ensures Handovers(session, rows + [row])
  {
    forall i, j | AttachAt(rows + [row], i) && AttachAt(rows + [row], j) && i < j
      ensures HandsOver(session, rows + [row], i, j)
    {
      PushKeepsHandover(session, rows, row, i, j);
    }
  }

  lemma PushKeepsHeld(session: Id, rows: seq<Row>, row: Row, i: nat)
    requires Accepted(session, rows) && LeasesOk(session, StateOf(session, rows), rows)
    requires Apply(StateOf(session, rows), row).Ok? && AttachAt(rows, i)
    ensures var t, token := Apply(StateOf(session, rows), row).value, rows[i].fact.token;
      || t.terminal || FreedBetween(session, rows + [row], i, |rows| + 1)
      || (t.worker.token == Some(token) && t.worker.status in {Live, Draining})
  {
    var s, all, n := StateOf(session, rows), rows + [row], |rows|;
    EveryStateOk(session, rows);
    ApplyMonotone(s, row);
    if FreedBetween(session, rows, i, n) {
      FreedStays(session, rows, row, i, n);
      var k :| i < k < n && Frees(session, all, k, all[i].fact.token);
      assert FreedBetween(session, all, i, n + 1);
    } else if !s.terminal {
      WorkerLeaves(s, row);
      var t := Apply(s, row).value;
      if !(t.worker.token == s.worker.token && t.worker.status in {Live, Draining}) {
        assert all[..n] == rows;
        assert Frees(session, all, n, all[i].fact.token);
      }
    }
  }

  lemma PushKeepsLeases(session: Id, rows: seq<Row>, row: Row)
    requires Accepted(session, rows) && LeasesOk(session, StateOf(session, rows), rows)
    requires Apply(StateOf(session, rows), row).Ok?
    ensures LeasesOk(session, Apply(StateOf(session, rows), row).value, rows + [row])
  {
    var s, all, n := StateOf(session, rows), rows + [row], |rows|;
    var t := Apply(s, row).value;
    EveryStateOk(session, rows);
    ApplyMonotone(s, row);
    forall i | AttachAt(all, i)
      ensures all[i].fact.token.epoch <= t.worker.epoch
      ensures t.terminal || FreedBetween(session, all, i, n + 1)
          || (t.worker.token == Some(all[i].fact.token) && t.worker.status in {Live, Draining})
    {
      if i < n {
        assert AttachAt(rows, i);
        PushKeepsHeld(session, rows, row, i);
      }
    }
  }

  lemma {:induction false} LeasesOfLog(session: Id, rows: seq<Row>)
    requires Accepted(session, rows)
    ensures LeasesOk(session, StateOf(session, rows), rows) && Handovers(session, rows)
    decreases |rows|
  {
    if rows != [] {
      var n := |rows| - 1;
      LeasesOfLog(session, rows[..n]);
      PushKeepsLeases(session, rows[..n], rows[n]);
      PushKeepsHandovers(session, rows[..n], rows[n]);
      assert rows[..n] + [rows[n]] == rows;
    }
  }

  /** In every accepted log epochs strictly increase, and a worker attaches only after the lease
      before it was parked by its holder, or orphaned past its expiry or its drain deadline. */
  lemma LeasesHandOver(session: Id, rows: seq<Row>, i: nat, j: nat)
    requires Accepted(session, rows) && AttachAt(rows, i) && AttachAt(rows, j) && i < j
    ensures rows[i].fact.token.epoch < rows[j].fact.token.epoch
    ensures exists k :: i < k < j && Frees(session, rows, k, rows[i].fact.token)
  {
    LeasesOfLog(session, rows);
    assert HandsOver(session, rows, i, j);
  }

  /** A fencing token that names an epoch older than some attachment is refused from then on. */
  lemma SupersededRefused(session: Id, rows: seq<Row>, j: nat, row: Row)
    requires Accepted(session, rows) && AttachAt(rows, j)
    requires TokenOf(row.fact).Some? && TokenOf(row.fact).value.epoch < rows[j].fact.token.epoch
    ensures Apply(StateOf(session, rows), row).Err?
  {
    LeasesOfLog(session, rows);
    EveryStateOk(session, rows);
    var s := StateOf(session, rows);
    if Apply(s, row).Ok? { ApplyMonotone(s, row); }
  }

  /** A draining worker cannot move its lease: its deadline is never after its expiry, so every
      heartbeat is refused, whatever it says. */
  lemma DrainingCannotHeartbeat(session: Id, rows: seq<Row>, row: Row)
    requires Accepted(session, rows) && row.fact.Heartbeat?
    requires StateOf(session, rows).worker.status == Draining
    ensures Apply(StateOf(session, rows), row).Err?
  {
    EveryStateOk(session, rows);
  }

  function EventsIn(rows: seq<Row>): seq<RuntimeEvent> {
    if rows == [] then []
    else
      var n := |rows| - 1;
      EventsIn(rows[..n]) + (if rows[n].fact.Recorded? then [rows[n].fact.event] else [])
  }

  predicate Ends(e: RuntimeEvent) { e.kind.Completed? || e.kind.RunFailed? }

  /** The runtime events of an accepted log are numbered from one without a gap, come from the
      bound provider session, and only the last of them ends the run. */
  lemma {:induction false} EventsInOrder(session: Id, rows: seq<Row>)
    requires Accepted(session, rows)
    ensures var s, es := StateOf(session, rows), EventsIn(rows);
      && s.events == es
      && forall i :: 0 <= i < |es| ==>
        es[i].sequence == i + 1 && s.provider == Some(es[i].provider) && es[i].runtime == s.runtime
        && (Ends(es[i]) ==> i == |es| - 1 && s.terminal)
    decreases |rows|
  {
    if rows != [] {
      var n := |rows| - 1;
      EventsInOrder(session, rows[..n]);
      EveryStateOk(session, rows[..n]);
      EventStep(StateOf(session, rows[..n]), rows[n]);
    }
  }

  lemma EventStep(s: State, row: Row)
    requires StateOk(s) && Apply(s, row).Ok?
    ensures var t := Apply(s, row).value;
      && t.events == s.events + (if row.fact.Recorded? then [row.fact.event] else [])
      && (s.provider.Some? ==> t.provider == s.provider && t.runtime == s.runtime)
      && (s.terminal ==> t.terminal && !row.fact.Recorded?)
      && (row.fact.Recorded? ==>
            && s.provider == Some(row.fact.event.provider) && row.fact.event.runtime == s.runtime
            && row.fact.event.sequence == |s.events| + 1 && (Ends(row.fact.event) ==> t.terminal))
  {
  }
}
