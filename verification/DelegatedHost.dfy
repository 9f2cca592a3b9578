/** The delegated runtime host: what each worker operation appends, and exactly when it succeeds. */
module DelegatedHost {
  import opened Outcomes
  import opened R = DelegatedRuntime

  /** The log after an operation, and the state it returns or the error it throws. */
  datatype Answer = Answer(rows: seq<Row>, result: Result<State, Error>)

  datatype ClaimInput = ClaimInput(request: Id, worker: Id, ttl: int)

  datatype DrainInput = DrainInput(request: Id, token: Token, defer: int, reason: Id)

  predicate ClaimOk(i: ClaimInput) { 1 <= i.ttl <= MAX_WORKER_LEASE_MS }

  predicate DrainOk(i: DrainInput) { TokenOk(i.token) && 1 <= i.defer <= MAX_DEFER_SHUTDOWN_MS }

  /** `DelegatedRuntimeStore.append` of a fact made for version `expected`.  The state is read
      again, the fact is tried on it, and the ledger takes it only at that version. */
  function Append(session: Id, rows: seq<Row>, expected: int, at: Time, trace: Option<Id>, f: Fact): Answer {
    if !SchemaOk(f) then Answer(rows, Err(BadSchema))
    else
      match Fold(session, rows)
      case Err(e) => Answer(rows, Err(e))
      case Ok(s) =>
        var resolved := if s.trace.Some? then s.trace.value else if trace.Some? then trace.value else session;
        if trace.Some? && trace.value != resolved then Answer(rows, Err(Fragmented))
        else if s.last.Some? && at < s.last.value then Answer(rows, Err(BadSequence))
        else
          var row := Row(session, expected + 1, at, resolved, f);
          match Apply(s, row)
          case Err(e) => Answer(rows, Err(e))
          case Ok(t) => Answer(rows + [row], Ok(t))
  }

  /** Append of the next fact of a session that was just read. */
  function Write(rows: seq<Row>, s: State, at: Time, f: Fact): Answer {
    Append(s.session, rows, s.version, at, None, f)
  }

  /** `#expireWorkerIfNeeded` */
  function Expire(rows: seq<Row>, s: State, now: Time): Answer {
    if s.terminal || !Expired(s.worker, now) || s.worker.token.None? then Answer(rows, Ok(s))
    else Write(rows, s, now, Orphaned(s.worker.token.value, OrphanReason(s.worker, now)))
  }

  /** `#assertWorkerLease` */
  predicate Holds(s: State, token: Option<Token>, now: Time, statuses: set<Status>) {
    s.worker.status in statuses && s.worker.token == token && !Past(s.worker.expires, now) && !Past(s.worker.deadline, now)
  }

  function ClaimWorker(session: Id, rows: seq<Row>, now: Time, input: ClaimInput): Answer {
    if !ClaimOk(input) then Answer(rows, Err(BadSchema))
    else
      match Fold(session, rows)
      case Err(e) => Answer(rows, Err(e))
      case Ok(s) =>
        if s.provider.None? || s.terminal then Answer(rows, Err(NotLive))
        else
          var expired := Expire(rows, s, now);
          match expired.result
          case Err(e) => expired
          case Ok(t) => ClaimFrom(expired.rows, t, now, input)
  }

  function ClaimFrom(rows: seq<Row>, s: State, now: Time, input: ClaimInput): Answer {
    if s.worker.status == Gone && s.worker.token.Some? && s.worker.token.value.worker == input.worker then Answer(rows, Err(Fenced))
    else if s.worker.status in {Live, Draining} then Answer(rows, Err(LeaseConflict))
    else if now + input.ttl > MAX_TIME then Answer(rows, Err(BadClock))
    else Write(rows, s, now, Attaching(s, now, input))
  }

  function HeartbeatWorker(session: Id, rows: seq<Row>, now: Time, token: Token): Answer {
    if !TokenOk(token) then Answer(rows, Err(BadSchema))
    else
      match Fold(session, rows)
      case Err(e) => Answer(rows, Err(e))
      case Ok(s) =>
        var expired := Expire(rows, s, now);
        match expired.result
        case Err(e) => expired
        case Ok(t) => HeartbeatFrom(expired.rows, t, now, token)
  }

  function HeartbeatFrom(rows: seq<Row>, s: State, now: Time, token: Token): Answer {
    if !Holds(s, Some(token), now, {Live, Draining}) || s.worker.expires.None? then Answer(rows, Err(Fenced))
    else if now + s.worker.ttl > MAX_TIME then Answer(rows, Err(BadClock))
    else
      var expiry := if Past(s.worker.deadline, now + s.worker.ttl) then s.worker.deadline.value else now + s.worker.ttl;
      if expiry <= s.worker.expires.value then Answer(rows, Err(NoAdvance))
      else Write(rows, s, now, Heartbeat(token, s.worker.ttl, expiry))
  }

  /** The durable drain is the one this input asked for. */
  predicate SameDrain(w: Worker, input: DrainInput) {
    w.token == Some(input.token) && w.drain == Some(Drain(input.request, input.reason, input.defer))
  }

  function DrainWorker(session: Id, rows: seq<Row>, now: Time, input: DrainInput): Answer {
    if !DrainOk(input) then Answer(rows, Err(BadSchema))
    else
      match Fold(session, rows)
      case Err(e) => Answer(rows, Err(e))
      case Ok(s) =>
        if s.worker.status == Draining && SameDrain(s.worker, input) then Answer(rows, Ok(s))
        else
          var expired := Expire(rows, s, now);
          match expired.result
          case Err(e) => expired
          case Ok(t) => DrainFrom(expired.rows, t, now, input)
  }

  function DrainFrom(rows: seq<Row>, s: State, now: Time, input: DrainInput): Answer {
    if !Holds(s, Some(input.token), now, {Live}) || s.worker.expires.None? then Answer(rows, Err(Fenced))
    else if now + input.defer > MAX_TIME then Answer(rows, Err(BadClock))
    else
      var deadline := Min(now + input.defer, s.worker.expires.value);
      if deadline <= now then Answer(rows, Err(BadClock))
      else Write(rows, s, now, DrainRequested(input.token, input.request, input.defer, deadline, input.reason))
  }

  function ParkWorker(session: Id, rows: seq<Row>, now: Time, request: Id, token: Token, reason: Id): Answer {
    if !TokenOk(token) then Answer(rows, Err(BadSchema))
    else
      match Fold(session, rows)
      case Err(e) => Answer(rows, Err(e))
      case Ok(s) =>
        if s.worker.status == Resting && s.worker.token == Some(token) && s.worker.drain.Some?
          && s.worker.drain.value.request == request && s.worker.drain.value.reason == reason
        then Answer(rows, Ok(s))
        else
          var expired := Expire(rows, s, now);
          match expired.result
          case Err(e) => expired
          case Ok(t) => ParkFrom(expired.rows, t, now, token, reason)
  }

  function ParkFrom(rows: seq<Row>, s: State, now: Time, token: Token, reason: Id): Answer {
    if !Holds(s, Some(token), now, {Draining}) then Answer(rows, Err(Fenced))
    else if s.dispatched then Answer(rows, Err(InDoubt))
    else Write(rows, s, now, Parked(token, s.runtimeSequence, reason))
  }

  /** `drainAndParkWorker`; the two steps read the clock on their own. */
  function DrainAndPark(session: Id, rows: seq<Row>, now: Time, later: Time, input: DrainInput): Answer {
    if !DrainOk(input) then Answer(rows, Err(BadSchema))
    else
      match Fold(session, rows)
      case Err(e) => Answer(rows, Err(e))
      case Ok(s) =>
        if s.worker.status in {Draining, Resting} && !SameDrain(s.worker, input) then Answer(rows, Err(Fenced))
        else if s.worker.status == Resting then Answer(rows, Ok(s))
        else
          var drained := if s.worker.status == Draining then Answer(rows, Ok(s)) else DrainWorker(session, rows, now, input);
          if drained.result.Err? then drained
          else ParkWorker(session, drained.rows, later, input.request, input.token, input.reason)
  }

  function SweepWorker(session: Id, rows: seq<Row>, now: Time): Answer {
    match Fold(session, rows)
    case Err(e) => Answer(rows, Err(e))
    case Ok(s) => Expire(rows, s, now)
  }

  function RetireWorker(session: Id, rows: seq<Row>, now: Time, token: Token, reason: Id): Answer {
    if !TokenOk(token) then Answer(rows, Err(BadSchema))
    else
      match Fold(session, rows)
      case Err(e) => Answer(rows, Err(e))
      case Ok(s) =>
        if s.worker.token != Some(token) then Answer(rows, Err(Fenced))
        else Write(rows, s, now, Retired(token, reason))
  }

  /** `#continuable`: a live bound session, no dispatch in doubt, and the caller's lease is live. */
  function Continuable(s: State, lease: Option<Token>, now: Time): Result<(), Error> {
    if s.provider.None? then Err(InDoubt)
    else if s.terminal then Err(NotLive)
    else if s.dispatched then Err(InDoubt)
    else if s.worker.status == Unassigned then (if lease.Some? then Err(Fenced) else Ok(()))
    else if Holds(s, lease, now, {Live}) then Ok(())
    else Err(Fenced)
  }

  // ---------------------------------------------------------------- what the fold accepts

  /** The clock reads no earlier than the last fact. */
  predicate InOrder(s: State, now: Time) { s.last.Some? ==> s.last.value <= now }

  lemma Follows(rows: seq<Row>, s: State, at: Time, f: Fact)
    requires Fold(s.session, rows) == Ok(s) && s.version > 0
    ensures StateOk(s) && s.version == |rows|
    ensures Write(rows, s, at, f).result.Ok? <==> SchemaOk(f) && InOrder(s, at) && Effect(s, at, f).Ok?
    ensures Write(rows, s, at, f).result.Err? ==> Write(rows, s, at, f).rows == rows
    ensures SchemaOk(f) && InOrder(s, at) && Effect(s, at, f).Err? ==> Write(rows, s, at, f).result == Err(Effect(s, at, f).error)
    ensures var a := Write(rows, s, at, f); a.result.Ok? ==>
      && Fold(s.session, a.rows) == a.result && |a.rows| == |rows| + 1 && a.rows[..|rows|] == rows && a.rows[|rows|].fact == f
      && a.result.value == Effect(s, at, f).value.(trace := s.trace, version := s.version + 1, last := Some(at))
  {
    EveryStateOk(s.session, rows);
    var row := Row(s.session, s.version + 1, at, s.trace.value, f);
    FoldPush(s.session, rows, row);
  }

  /** An append names the version it saw: it takes effect only if that is still the last one. */
  lemma AppendExactly(session: Id, rows: seq<Row>, expected: int, at: Time, f: Fact)
    requires Accepted(session, rows)
    ensures var a := Append(session, rows, expected, at, None, f);
      && (a.result.Err? ==> a.rows == rows)
      && (a.result.Ok? ==>
            && expected == |rows| && |a.rows| == |rows| + 1 && a.rows[..|rows|] == rows && a.rows[|rows|].fact == f
            && Fold(session, a.rows) == a.result && Apply(StateOf(session, rows), a.rows[|rows|]) == a.result
            && a.rows == rows + [a.rows[|rows|]] && a.result.value.version == |a.rows|)
  {
    EveryStateOk(session, rows);
    var s := StateOf(session, rows);
    var row := Row(session, expected + 1, at, if s.trace.Some? then s.trace.value else session, f);
    FoldPush(session, rows, row);
    if Append(session, rows, expected, at, None, f).result.Ok? { EveryStateOk(session, rows + [row]); }
  }

  /** Only the worker, the version and the time of the last fact differ. */
  ghost predicate OnlyWorker(s: State, t: State) {
    t == s.(worker := t.worker, version := t.version, last := t.last)
  }

  /** The expiry step is always accepted: it orphans a worker past its end, and nothing else. */
  lemma ExpireExactly(rows: seq<Row>, s: State, now: Time)
    requires Fold(s.session, rows) == Ok(s)
    ensures var a := Expire(rows, s, now);
      && (a.result.Ok? <==> (InOrder(s, now) || s.terminal || !Expired(s.worker, now)))
      && (a.result.Err? ==> a.rows == rows)
      && (a.result.Ok? ==>
            && Fold(s.session, a.rows) == a.result && OnlyWorker(s, a.result.value)
            && if s.terminal || !Expired(s.worker, now) then a == Answer(rows, Ok(s)) else
              && a.result.value.worker == s.worker.(status := Orphan, expires := None, deadline := None)
              && a.result.value.last == Some(now) && |a.rows| == |rows| + 1)
  {
    EveryStateOk(s.session, rows);
    if !s.terminal && Expired(s.worker, now) {
      Follows(rows, s, now, Orphaned(s.worker.token.value, OrphanReason(s.worker, now)));
    }
  }

  /** Any lease on the session has ended, and `worker` did not retire from it last. */
  predicate Claimable(w: Worker, now: Time, worker: Id) {
    && (w.status in {Live, Draining} ==> Expired(w, now))
    && !(w.status == Gone && w.token.Some? && w.token.value.worker == worker)
  }

  function FreshWorker(w: Worker, now: Time, input: ClaimInput): Worker {
    Worker(Live, Some(Token(input.worker, w.epoch + 1)), w.epoch + 1, input.ttl, Some(now + input.ttl), None, None, None)
  }

  function Attaching(s: State, now: Time, input: ClaimInput): Fact {
    Attached(Token(input.worker, s.worker.epoch + 1), input.ttl, now + input.ttl)
  }

  lemma AttachExactly(s: State, now: Time, input: ClaimInput)
    requires WorkerOk(s.worker) && ClaimOk(input) && s.provider.Some? && !s.terminal
    ensures var f := Attaching(s, now, input);
      && (SchemaOk(f) && Effect(s, now, f).Ok? <==>
            && s.worker.status !in {Live, Draining} && Claimable(s.worker, now, input.worker)
            && s.worker.epoch < MAX_SAFE && now + input.ttl <= MAX_TIME)
      && (Effect(s, now, f).Ok? ==> Effect(s, now, f).value == s.(worker := FreshWorker(s.worker, now, input)))
  {
    var f := Attaching(s, now, input);
    assert TokenOf(f).Some?;
    assert WorkerEffect(s, now, f) == AttachWorker(s.worker, now, f);
    assert f == Attached(Token(input.worker, s.worker.epoch + 1), input.ttl, now + input.ttl);
    assert OnClock(now);
    assert TokenOk(f.token) <==> s.worker.epoch < MAX_SAFE;
    assert OnClock(now + input.ttl) <==> now + input.ttl <= MAX_TIME;
    assert SchemaOk(f) <==> s.worker.epoch < MAX_SAFE && now + input.ttl <= MAX_TIME;
  }

  lemma OtherTokenRefused(s: State, row: Row)
    requires s.worker.status == Live && TokenOf(row.fact).Some? && TokenOf(row.fact) != s.worker.token
    ensures Apply(s, row).Err?
  {
    assert WorkerEffect(s, row.at, row.fact).Err?;
  }

  lemma ClaimFromExactly(rows: seq<Row>, s: State, now: Time, input: ClaimInput)
    requires Fold(s.session, rows) == Ok(s) && ClaimOk(input) && s.provider.Some? && !s.terminal
    ensures var a := ClaimFrom(rows, s, now, input);
      && (a.result.Ok? <==>
            && s.worker.status !in {Live, Draining} && Claimable(s.worker, now, input.worker) && InOrder(s, now)
            && s.worker.epoch < MAX_SAFE && now + input.ttl <= MAX_TIME)
      && (a.result.Ok? ==>
            && Fold(s.session, a.rows) == a.result && OnlyWorker(s, a.result.value)
            && a.result.value.worker == FreshWorker(s.worker, now, input))
  {
    EveryStateOk(s.session, rows);
    AttachExactly(s, now, input);
    Follows(rows, s, now, Attaching(s, now, input));
  }

  /** A worker can take the session exactly when it is live and bound, any lease on it has ended,
      and the worker did not retire from it last. */
  lemma {:induction false} ClaimExactlyWhen(session: Id, rows: seq<Row>, now: Time, input: ClaimInput)
    requires Accepted(session, rows)
    ensures var s := StateOf(session, rows);
      ClaimWorker(session, rows, now, input).result.Ok? <==>
        && ClaimOk(input) && s.provider.Some? && !s.terminal && InOrder(s, now) && Claimable(s.worker, now, input.worker)
        && s.worker.epoch < MAX_SAFE && now + input.ttl <= MAX_TIME
    ensures var a, s := ClaimWorker(session, rows, now, input), StateOf(session, rows);
      a.result.Ok? ==>
        && Fold(session, a.rows) == a.result && OnlyWorker(s, a.result.value)
        && a.result.value.worker == FreshWorker(s.worker, now, input)
  {
    EveryStateOk(session, rows);
    var s := StateOf(session, rows);
    if ClaimOk(input) && s.provider.Some? && !s.terminal {
      ClaimUnfolds(session, rows, s, now, input);
      ClaimAfterExpiry(rows, s, now, input);
    }
  }

  lemma {:induction false} ClaimAfterExpiry(rows: seq<Row>, s: State, now: Time, input: ClaimInput)
    requires Fold(s.session, rows) == Ok(s) && ClaimOk(input) && s.provider.Some? && !s.terminal
    ensures var expired := Expire(rows, s, now);
      var a := if expired.result.Err? then expired else ClaimFrom(expired.rows, expired.result.value, now, input);
      && (a.result.Ok? <==>
            && InOrder(s, now) && Claimable(s.worker, now, input.worker) && s.worker.epoch < MAX_SAFE && now + input.ttl <= MAX_TIME)
      && (a.result.Ok? ==>
            && Fold(s.session, a.rows) == a.result && OnlyWorker(s, a.result.value)
            && a.result.value.worker == FreshWorker(s.worker, now, input))
  {
    ExpireExactly(rows, s, now);
    var expired := Expire(rows, s, now);
    if expired.result.Ok? { ClaimFromExactly(expired.rows, expired.result.value, now, input); }
  }

  lemma {:induction false} ClaimUnfolds(session: Id, rows: seq<Row>, s: State, now: Time, input: ClaimInput)
    requires Fold(session, rows) == Ok(s) && ClaimOk(input) && s.provider.Some? && !s.terminal
    ensures ClaimWorker(session, rows, now, input) ==
      var expired := Expire(rows, s, now);
      if expired.result.Err? then expired else ClaimFrom(expired.rows, expired.result.value, now, input)
  {
  }

  /** `token` holds a lease that runs at `now` and has not been asked to drain. */
  predicate Running(s: State, now: Time, token: Token) {
    s.worker.status == Live && s.worker.token == Some(token) && s.worker.expires.Some? && now < s.worker.expires.value && InOrder(s, now)
  }

  /** A lease moves exactly when its holder is not draining, and the clock takes it further. */
  lemma HeartbeatExactlyWhen(session: Id, rows: seq<Row>, now: Time, token: Token)
    requires Accepted(session, rows)
    ensures var s := StateOf(session, rows);
      HeartbeatWorker(session, rows, now, token).result.Ok? <==>
        Running(s, now, token) && s.worker.expires.value < now + s.worker.ttl <= MAX_TIME
    ensures var a, s := HeartbeatWorker(session, rows, now, token), StateOf(session, rows);
      a.result.Ok? ==>
        && Fold(session, a.rows) == a.result && OnlyWorker(s, a.result.value)
        && a.result.value.worker == s.worker.(expires := Some(now + s.worker.ttl))
  {
    EveryStateOk(session, rows);
    var s := StateOf(session, rows);
    if TokenOk(token) {
      ExpireExactly(rows, s, now);
      var expired := Expire(rows, s, now);
      if expired.result.Ok? { HeartbeatFromExactly(expired.rows, expired.result.value, now, token); }
    }
  }

  lemma HeartbeatFromExactly(rows: seq<Row>, s: State, now: Time, token: Token)
    requires Fold(s.session, rows) == Ok(s) && TokenOk(token)
    ensures var a := HeartbeatFrom(rows, s, now, token);
      && (a.result.Ok? <==> Running(s, now, token) && s.worker.expires.value < now + s.worker.ttl <= MAX_TIME)
      && (a.result.Ok? ==>
            && Fold(s.session, a.rows) == a.result && OnlyWorker(s, a.result.value)
            && a.result.value.worker == s.worker.(expires := Some(now + s.worker.ttl)))
  {
    EveryStateOk(s.session, rows);
    BeatWrites(rows, s, now, token);
    if Beats(s, now, token) {
      BeatEffect(s, now, token);
      Follows(rows, s, now, Heartbeat(token, s.worker.ttl, now + s.worker.ttl));
    }
  }

  /** The lease runs, is not draining, and the clock takes it further. */
  predicate Beats(s: State, now: Time, token: Token) {
    && s.worker.status == Live && s.worker.token == Some(token) && now + s.worker.ttl <= MAX_TIME
    && s.worker.expires.Some? && now < s.worker.expires.value < now + s.worker.ttl
  }

  /** A draining lease never gets further: its deadline is within its expiry. */
  lemma {:induction false} BeatWrites(rows: seq<Row>, s: State, now: Time, token: Token)
    requires WorkerOk(s.worker)
    ensures if Beats(s, now, token)
      then HeartbeatFrom(rows, s, now, token) == Write(rows, s, now, Heartbeat(token, s.worker.ttl, now + s.worker.ttl))
      else HeartbeatFrom(rows, s, now, token).result.Err?
  {
  }

  lemma {:induction false} BeatEffect(s: State, now: Time, token: Token)
    requires WorkerOk(s.worker) && TokenOk(token) && Beats(s, now, token)
    ensures var f := Heartbeat(token, s.worker.ttl, now + s.worker.ttl);
      SchemaOk(f) && Effect(s, now, f) == Ok(s.(worker := s.worker.(expires := Some(now + s.worker.ttl))))
  {
    assert OnClock(now) && OnClock(now + s.worker.ttl);
  }

  /** The holder begins to drain, with a window that is open now and closes with its lease. */
  predicate DrainsTo(w: Worker, v: Worker, now: Time, input: DrainInput) {
    && v == w.(status := Draining, deadline := v.deadline, drain := v.drain) && SameDrain(v, input)
    && w.expires.Some? && v.deadline == Some(Min(now + input.defer, w.expires.value)) && now < v.deadline.value
  }

  lemma DrainFromExactly(rows: seq<Row>, s: State, now: Time, input: DrainInput)
    requires Fold(s.session, rows) == Ok(s) && DrainOk(input)
    ensures var a := DrainFrom(rows, s, now, input);
      && (a.result.Ok? <==> Running(s, now, input.token) && now + input.defer <= MAX_TIME)
      && (a.result.Ok? ==>
            && Fold(s.session, a.rows) == a.result && OnlyWorker(s, a.result.value) && a.result.value.last == Some(now)
            && DrainsTo(s.worker, a.result.value.worker, now, input))
  {
    EveryStateOk(s.session, rows);
    if Holds(s, Some(input.token), now, {Live}) && s.worker.expires.Some? && now + input.defer <= MAX_TIME {
      DrainEffect(s, now, input);
      Follows(rows, s, now, DrainAsked(s, now, input));
    }
  }

  /** The drain a running lease is asked for. */
  function DrainAsked(s: State, now: Time, input: DrainInput): Fact
    requires s.worker.expires.Some?
  {
    DrainRequested(input.token, input.request, input.defer, Min(now + input.defer, s.worker.expires.value), input.reason)
  }

  /** The fact is well formed, and its window is open. */
  lemma DrainAskedOk(s: State, now: Time, input: DrainInput)
    requires DrainOk(input) && now + input.defer <= MAX_TIME
    requires s.worker.expires.Some? && now < s.worker.expires.value
    ensures SchemaOk(DrainAsked(s, now, input)) && DrainAsked(s, now, input).deadline > now
  {
    var f := DrainAsked(s, now, input);
    assert now < f.deadline <= now + input.defer;
    assert OnClock(now) && OnClock(f.deadline);
  }

  lemma {:induction false} DrainEffect(s: State, now: Time, input: DrainInput)
    requires WorkerOk(s.worker) && DrainOk(input) && now + input.defer <= MAX_TIME
    requires s.worker.status == Live && s.worker.token == Some(input.token) && s.worker.expires.Some? && now < s.worker.expires.value
    ensures var f := DrainAsked(s, now, input);
      && SchemaOk(f) && f.deadline > now && Effect(s, now, f).Ok?
      && Effect(s, now, f).value == s.(worker := Effect(s, now, f).value.worker)
      && DrainsTo(s.worker, Effect(s, now, f).value.worker, now, input)
  {
    var f := DrainAsked(s, now, input);
    DrainAskedOk(s, now, input);
    assert WorkerEffect(s, now, f) == R.DrainWorker(s.worker, now, f);
  }

  /** A drain is granted exactly to the holder of a running lease, or is the drain already granted;
      it always leaves a bounded window. */
  lemma DrainExactlyWhen(session: Id, rows: seq<Row>, now: Time, input: DrainInput)
    requires Accepted(session, rows)
    ensures var s := StateOf(session, rows);
      DrainWorker(session, rows, now, input).result.Ok? <==>
        && DrainOk(input)
        && if s.worker.status == Draining then SameDrain(s.worker, input)
           else Running(s, now, input.token) && now + input.defer <= MAX_TIME
    ensures var a, s := DrainWorker(session, rows, now, input), StateOf(session, rows);
      a.result.Ok? ==>
        && Fold(session, a.rows) == a.result && OnlyWorker(s, a.result.value)
        && if s.worker.status == Draining then a == Answer(rows, Ok(s)) else
          DrainsTo(s.worker, a.result.value.worker, now, input) && a.result.value.last == Some(now)
  {
    EveryStateOk(session, rows);
    var s := StateOf(session, rows);
    if DrainOk(input) && !(s.worker.status == Draining && SameDrain(s.worker, input)) {
      ExpireExactly(rows, s, now);
      var expired := Expire(rows, s, now);
      if expired.result.Ok? {
        DrainFromExactly(expired.rows, expired.result.value, now, input);
      }
    }
  }

  /** The park asked for is the one already recorded. */
  predicate ParkedAs(w: Worker, request: Id, token: Token, reason: Id) {
    w.status == Resting && w.token == Some(token) && w.drain.Some? && w.drain.value.request == request && w.drain.value.reason == reason
  }

  predicate DrainsFor(w: Worker, reason: Id) { w.drain.Some? && w.drain.value.reason == reason }

  /** What the host itself checks before it parks. */
  ghost predicate MayPark(s: State, now: Time, token: Token) {
    && s.worker.status == Draining && s.worker.token == Some(token) && !s.dispatched
    && s.worker.deadline.Some? && now < s.worker.deadline.value
  }

  /** A drained worker parks exactly within its window, with no dispatch in doubt and for the reason
      it drained for.  That last condition is not the host's: the fold refuses the fact. */
  lemma ParkExactlyWhen(session: Id, rows: seq<Row>, now: Time, request: Id, token: Token, reason: Id)
    requires Accepted(session, rows)
    ensures var s := StateOf(session, rows);
      ParkWorker(session, rows, now, request, token, reason).result.Ok? <==>
        || ParkedAs(s.worker, request, token, reason)
        || (MayPark(s, now, token) && DrainsFor(s.worker, reason) && InOrder(s, now) && s.runtimeSequence <= MAX_SAFE)
    ensures var s := StateOf(session, rows);
      MayPark(s, now, token) && InOrder(s, now) && s.runtimeSequence <= MAX_SAFE ==>
        (!DrainsFor(s.worker, reason) <==> ParkWorker(session, rows, now, request, token, reason).result == Err(BadFact))
    ensures var a, s := ParkWorker(session, rows, now, request, token, reason), StateOf(session, rows);
      a.result.Ok? ==>
        && Fold(session, a.rows) == a.result && OnlyWorker(s, a.result.value)
        && if s.worker.status == Resting then a == Answer(rows, Ok(s)) else
          a.result.value.worker == s.worker.(status := Resting, checkpoint := Some(s.runtimeSequence), expires := None, deadline := None)
  {
    EveryStateOk(session, rows);
    var s := StateOf(session, rows);
    if TokenOk(token) && !ParkedAs(s.worker, request, token, reason) {
      ExpireExactly(rows, s, now);
      var expired := Expire(rows, s, now);
      if expired.result.Ok? && Holds(s, Some(token), now, {Draining}) && !Expired(s.worker, now) {
        Follows(rows, s, now, Parked(token, s.runtimeSequence, reason));
      }
    }
  }

  /** Retiring needs the current token, and a session that ended or a worker that is at rest. */
  lemma RetireExactlyWhen(session: Id, rows: seq<Row>, now: Time, token: Token, reason: Id)
    requires Accepted(session, rows)
    ensures var s := StateOf(session, rows);
      RetireWorker(session, rows, now, token, reason).result.Ok? <==>
        s.worker.token == Some(token) && InOrder(s, now) && (s.terminal || s.worker.status in {Resting, Orphan})
    ensures var a, s := RetireWorker(session, rows, now, token, reason), StateOf(session, rows);
      a.result.Ok? ==>
        && Fold(session, a.rows) == a.result && OnlyWorker(s, a.result.value)
        && a.result.value.worker == s.worker.(status := Gone)
  {
    EveryStateOk(session, rows);
    var s := StateOf(session, rows);
    if TokenOk(token) && s.worker.token == Some(token) {
      Follows(rows, s, now, Retired(token, reason));
    }
  }

  /** From a running lease, one shutdown call drains and parks when its second step still falls in
      the window its first step opened; the same call again returns the same state and log. */
  lemma ShutdownParksOnce(session: Id, rows: seq<Row>, now: Time, later: Time, input: DrainInput)
    requires Accepted(session, rows) && StateOf(session, rows).worker.status == Live && now <= later
    requires DrainWorker(session, rows, now, input).result.Ok?
    ensures var a, s := DrainAndPark(session, rows, now, later, input), StateOf(session, rows);
      && (a.result.Ok? <==>
            !s.dispatched && s.runtimeSequence <= MAX_SAFE && later < now + input.defer && Running(s, later, input.token))
      && (a.result.Ok? ==>
            && Fold(session, a.rows) == a.result && OnlyWorker(s, a.result.value)
            && a.result.value.worker.status == Resting && SameDrain(a.result.value.worker, input)
            && forall n: Time, l: Time :: DrainAndPark(session, a.rows, n, l, input) == a)
  {
    DrainExactlyWhen(session, rows, now, input);
    var drained := DrainWorker(session, rows, now, input);
    EveryStateOk(session, rows);
    ParkExactlyWhen(session, drained.rows, later, input.request, input.token, input.reason);
  }

  /** No session is lost to a dead worker: once its end has passed, any worker that has not retired
      from it can claim it, and the dead worker's token is refused from then on. */
  lemma {:induction false} EndedLeaseCanBeTaken(session: Id, rows: seq<Row>, now: Time, input: ClaimInput, dead: Token, row: Row)
    requires Accepted(session, rows) && ClaimOk(input) && now + input.ttl <= MAX_TIME
    requires var s := StateOf(session, rows);
      && s.provider.Some? && !s.terminal && InOrder(s, now) && s.worker.epoch < MAX_SAFE
      && s.worker.token == Some(dead) && Expired(s.worker, now)
    requires TokenOf(row.fact) == Some(dead)
    ensures var a := ClaimWorker(session, rows, now, input);
      && a.result.Ok? && a.result.value.worker.token == Some(Token(input.worker, dead.epoch + 1))
      && Apply(a.result.value, row).Err?
  {
    EveryStateOk(session, rows);
    ClaimExactlyWhen(session, rows, now, input);
    OtherTokenRefused(ClaimWorker(session, rows, now, input).result.value, row);
  }
}
