/** Many hosts on one delegated session: `resumeAndSend` cut where other hosts can get in between,
    each ledger operation one step.  Hosts may crash anywhere, and anybody may append any fact the
    fold accepts. */
module DelegatedSystem {
  import opened Outcomes
  import opened DelegatedRuntime
  import opened DelegatedHost

  datatype Send = Send(turn: Turn, lease: Option<Token>)

  /** Where one host is in `resumeAndSend`; `version` is that of the state it read last. */
  datatype Place =
    | Idle
    | Reattaching(send: Send)
    | Requesting(send: Send, version: int)
    | Dispatching(send: Send, version: int)
    | Sending(send: Send)
    | Awaiting(send: Send)

  datatype Sent = Sent(host: nat, send: Send)

  /** `owner` is the host whose dispatch fact the ledger took. */
  datatype System = System(session: Id, rows: seq<Row>, hosts: seq<Place>, sent: seq<Sent>, owner: Option<nat>)

  datatype Step =
    | Begin(host: nat, send: Send, now: Time)
    | Reattached(host: nat, now: Time)
    | Request(host: nat, now: Time)
    | Dispatch(host: nat, now: Time)
    | CallProvider(host: nat)
    | Crash(host: nat)
    | Foreign(row: Row)

  function Start(session: Id, hosts: nat): System {
    System(session, [], seq(hosts, i => Idle), [], None)
  }

  function Move(y: System, h: nat, place: Place): System
    requires h < |y.hosts|
  {
    y.(hosts := y.hosts[h := place])
  }

  function BeginStep(y: System, h: nat, send: Send, now: Time): System
    requires h < |y.hosts|
  {
    match Fold(y.session, y.rows)
    case Err(_) => y
    case Ok(s) =>
      if y.hosts[h].Idle? && Continuable(s, send.lease, now).Ok? && (s.pending.Some? ==> s.pending.value == send.turn)
      then Move(y, h, Reattaching(send)) else y
  }

  function ReattachedStep(y: System, h: nat, now: Time): System
    requires h < |y.hosts| && y.hosts[h].Reattaching?
  {
    var send := y.hosts[h].send;
    match Fold(y.session, y.rows)
    case Err(_) => Move(y, h, Idle)
    case Ok(s) =>
      if Continuable(s, send.lease, now).Err? then Move(y, h, Idle)
      else if s.pending.None? then Move(y, h, Requesting(send, s.version))
      else Move(y, h, Dispatching(send, s.version))
  }

  function RequestStep(y: System, h: nat, now: Time): System
    requires h < |y.hosts| && y.hosts[h].Requesting?
  {
    var p := y.hosts[h];
    var a := Append(y.session, y.rows, p.version, now, None, TurnRequested(p.send.turn));
    if a.result.Ok? then Move(y, h, Dispatching(p.send, a.result.value.version)).(rows := a.rows) else Move(y, h, Idle)
  }

  function DispatchStep(y: System, h: nat, now: Time): System
    requires h < |y.hosts| && y.hosts[h].Dispatching?
  {
    var p := y.hosts[h];
    var a := Append(y.session, y.rows, p.version, now, None, DispatchStarted(p.send.turn.request));
    if a.result.Ok? then Move(y, h, Sending(p.send)).(rows := a.rows, owner := Some(h)) else Move(y, h, Idle)
  }

  function Next(y: System, step: Step): System {
    match step
    case Begin(h, send, now) => if h < |y.hosts| then BeginStep(y, h, send, now) else y
    case Reattached(h, now) => if h < |y.hosts| && y.hosts[h].Reattaching? then ReattachedStep(y, h, now) else y
    case Request(h, now) => if h < |y.hosts| && y.hosts[h].Requesting? then RequestStep(y, h, now) else y
    case Dispatch(h, now) => if h < |y.hosts| && y.hosts[h].Dispatching? then DispatchStep(y, h, now) else y
    case CallProvider(h) =>
      if h < |y.hosts| && y.hosts[h].Sending?
      then Move(y, h, Awaiting(y.hosts[h].send)).(sent := y.sent + [Sent(h, y.hosts[h].send)]) else y
    case Crash(h) => if h < |y.hosts| then Move(y, h, Idle) else y
    case Foreign(row) => if Accepted(y.session, y.rows + [row]) then y.(rows := y.rows + [row]) else y
  }

  function Run(session: Id, hosts: nat, steps: seq<Step>): System
    decreases |steps|
  {
    if steps == [] then Start(session, hosts)
    else Next(Run(session, hosts, steps[..|steps| - 1]), steps[|steps| - 1])
  }

  // ---------------------------------------------------------------- what every run keeps

  predicate Under(s: State, lease: Option<Token>) {
    if s.worker.status == Unassigned then lease.None? else s.worker.status == Live && s.worker.token == lease
  }

  /** The ledger holds the dispatch fact of this send, made while its lease was the current one. */
  ghost predicate DispatchedUnder(session: Id, rows: seq<Row>, send: Send) {
    exists j :: DispatchAt(rows, j) && rows[j].fact.request == send.turn.request
      && Accepted(session, rows[..j]) && Under(StateOf(session, rows[..j]), send.lease)
  }

  /** A version read earlier, if it is still the last one, stands for a state under the lease. */
  ghost predicate ViewOk(session: Id, rows: seq<Row>, send: Send, version: int) {
    Accepted(session, rows) && (version == |rows| ==> Under(StateOf(session, rows), send.lease))
  }

  ghost predicate PlaceOk(y: System, h: nat)
    requires h < |y.hosts|
  {
    match y.hosts[h]
    case Requesting(send, version) => version <= |y.rows| && ViewOk(y.session, y.rows, send, version)
    case Dispatching(send, version) => version <= |y.rows| && ViewOk(y.session, y.rows, send, version)
    case Sending(send) => y.owner == Some(h) && y.sent == [] && DispatchedUnder(y.session, y.rows, send)
    case _ => true
  }

  ghost predicate SystemOk(y: System) {
    && Accepted(y.session, y.rows)
    && (forall h :: 0 <= h < |y.hosts| ==> PlaceOk(y, h))
    && (y.owner.Some? || y.sent != [] ==> StateOf(y.session, y.rows).dispatched)
    && |y.sent| <= 1
    && (y.sent != [] ==> DispatchedUnder(y.session, y.rows, y.sent[0].send) && y.owner == Some(y.sent[0].host))
  }

  lemma DispatchedStays(session: Id, rows: seq<Row>, row: Row, send: Send)
    requires DispatchedUnder(session, rows, send)
    ensures DispatchedUnder(session, rows + [row], send)
  {
    var j :| DispatchAt(rows, j) && rows[j].fact.request == send.turn.request
      && Accepted(session, rows[..j]) && Under(StateOf(session, rows[..j]), send.lease);
    assert (rows + [row])[..j] == rows[..j];
    assert DispatchAt(rows + [row], j);
  }

  /** Another row does not disturb what holds of a system. */
  lemma RowKeepsSystem(y: System, row: Row)
    requires SystemOk(y) && Accepted(y.session, y.rows + [row])
    ensures SystemOk(y.(rows := y.rows + [row]))
    ensures StateOf(y.session, y.rows).dispatched ==> !row.fact.DispatchStarted?
  {
    var z := y.(rows := y.rows + [row]);
    FoldPush(y.session, y.rows, row);
    TurnStep(StateOf(y.session, y.rows), row);
    AtMostOneDispatch(y.session, y.rows);
    if row.fact.TurnRequested? && StateOf(y.session, y.rows).dispatched {
      NoTurnAfterDispatch(y.session, y.rows, row);
    }
    forall h | 0 <= h < |z.hosts| ensures PlaceOk(z, h) {
      assert PlaceOk(y, h);
      if y.hosts[h].Sending? { DispatchedStays(y.session, y.rows, row, y.hosts[h].send); }
    }
    if y.sent != [] { DispatchedStays(y.session, y.rows, row, y.sent[0].send); }
  }

  lemma NoTurnAfterDispatch(session: Id, rows: seq<Row>, row: Row)
    requires Accepted(session, rows) && StateOf(session, rows).dispatched && row.fact.TurnRequested?
    ensures Apply(StateOf(session, rows), row).Err?
  {
    TurnsOfLog(session, rows);
    var j :| DispatchAt(rows, j);
    assert ForTurn(rows, j);
  }

  lemma MoveKeepsSystem(y: System, h: nat, place: Place)
    requires SystemOk(y) && h < |y.hosts| && PlaceOk(Move(y, h, place), h)
    ensures SystemOk(Move(y, h, place))
  {
    var z := Move(y, h, place);
    forall i | 0 <= i < |z.hosts| ensures PlaceOk(z, i) {
      assert PlaceOk(y, i);
    }
  }

  lemma RequestKeepsSystem(y: System, h: nat, now: Time)
    requires SystemOk(y) && h < |y.hosts| && y.hosts[h].Requesting?
    ensures SystemOk(RequestStep(y, h, now))
  {
    var p := y.hosts[h];
    assert PlaceOk(y, h);
    AppendExactly(y.session, y.rows, p.version, now, TurnRequested(p.send.turn));
    var a := Append(y.session, y.rows, p.version, now, None, TurnRequested(p.send.turn));
    if a.result.Ok? {
      RowKeepsSystem(y, a.rows[|y.rows|]);
      assert a.result.value.worker == StateOf(y.session, y.rows).worker;
      MoveKeepsSystem(y.(rows := a.rows), h, Dispatching(p.send, a.result.value.version));
    } else {
      MoveKeepsSystem(y, h, Idle);
    }
  }

  lemma DispatchKeepsSystem(y: System, h: nat, now: Time)
    requires SystemOk(y) && h < |y.hosts| && y.hosts[h].Dispatching?
    ensures SystemOk(DispatchStep(y, h, now))
  {
    var p := y.hosts[h];
    assert PlaceOk(y, h);
    AppendExactly(y.session, y.rows, p.version, now, DispatchStarted(p.send.turn.request));
    var a := Append(y.session, y.rows, p.version, now, None, DispatchStarted(p.send.turn.request));
    if a.result.Ok? {
      TurnStep(StateOf(y.session, y.rows), a.rows[|y.rows|]);
      RowKeepsSystem(y, a.rows[|y.rows|]);
      assert y.owner.None? && y.sent == [];
      assert DispatchAt(a.rows, |y.rows|) && DispatchedUnder(y.session, a.rows, p.send);
      var z := y.(rows := a.rows, owner := Some(h));
      forall i | 0 <= i < |z.hosts| ensures PlaceOk(z, i) {
        assert PlaceOk(y.(rows := a.rows), i) && PlaceOk(y, i);
      }
      MoveKeepsSystem(z, h, Sending(p.send));
    } else {
      MoveKeepsSystem(y, h, Idle);
    }
  }

  lemma ProviderKeepsSystem(y: System, h: nat)
    requires SystemOk(y)
    ensures SystemOk(Next(y, CallProvider(h)))
  {
    if h < |y.hosts| && y.hosts[h].Sending? {
      var z := Next(y, CallProvider(h));
      assert PlaceOk(y, h);
      forall i | 0 <= i < |z.hosts| ensures PlaceOk(z, i) {
        assert PlaceOk(y, i);
      }
    }
  }

  lemma NextKeepsSystem(y: System, step: Step)
    requires SystemOk(y)
    ensures SystemOk(Next(y, step)) && Next(y, step).session == y.session
  {
    EveryStateOk(y.session, y.rows);
    match step
    case Begin(h, send, now) =>
      if h < |y.hosts| && BeginStep(y, h, send, now) != y { MoveKeepsSystem(y, h, Reattaching(send)); }
    case Reattached(h, now) =>
      if h < |y.hosts| && y.hosts[h].Reattaching? {
        var z := ReattachedStep(y, h, now);
        assert PlaceOk(z, h);
        MoveKeepsSystem(y, h, z.hosts[h]);
      }
    case Request(h, now) => if h < |y.hosts| && y.hosts[h].Requesting? { RequestKeepsSystem(y, h, now); }
    case Dispatch(h, now) => if h < |y.hosts| && y.hosts[h].Dispatching? { DispatchKeepsSystem(y, h, now); }
    case CallProvider(h) => ProviderKeepsSystem(y, h);
    case Crash(h) => if h < |y.hosts| { MoveKeepsSystem(y, h, Idle); }
    case Foreign(row) => if Accepted(y.session, y.rows + [row]) { RowKeepsSystem(y, row); }
  }

  lemma {:induction false} EverySystem(session: Id, hosts: nat, steps: seq<Step>)
    ensures SystemOk(Run(session, hosts, steps)) && Run(session, hosts, steps).session == session
    decreases |steps|
  {
    if steps != [] {
      EverySystem(session, hosts, steps[..|steps| - 1]);
      NextKeepsSystem(Run(session, hosts, steps[..|steps| - 1]), steps[|steps| - 1]);
    }
  }

  /** Whatever the hosts do, in any order, with retries and crashes, the provider is called at most
      once for a session, for the turn the log asked for, by a host whose lease was the current one
      when its dispatch fact was written. */
  lemma SendsAtMostOnce(session: Id, hosts: nat, steps: seq<Step>)
    ensures var y := Run(session, hosts, steps);
      && Accepted(session, y.rows) && |y.sent| <= 1
      && forall n :: 0 <= n < |y.sent| ==>
        DispatchedUnder(session, y.rows, y.sent[n].send) && Asked(y.rows, y.sent[n].send.turn.request)
  {
    EverySystem(session, hosts, steps);
    SystemSends(Run(session, hosts, steps));
  }

  lemma SystemSends(y: System)
    requires SystemOk(y)
    ensures forall n :: 0 <= n < |y.sent| ==>
      DispatchedUnder(y.session, y.rows, y.sent[n].send) && Asked(y.rows, y.sent[n].send.turn.request)
  {
    if y.sent != [] { DispatchedAsked(y.session, y.rows, y.sent[0].send); }
  }

  /** The log asks for a turn under this request id. */
  ghost predicate Asked(rows: seq<Row>, request: Id) {
    exists i :: TurnAt(rows, i) && rows[i].fact.turn.request == request
  }

  lemma DispatchedAsked(session: Id, rows: seq<Row>, send: Send)
    requires Accepted(session, rows) && DispatchedUnder(session, rows, send)
    ensures Asked(rows, send.turn.request)
  {
    AtMostOneDispatch(session, rows);
    var j :| DispatchAt(rows, j) && rows[j].fact.request == send.turn.request;
    assert ForTurn(rows, j);
  }

  // ---------------------------------------------------------------- which message is sent

  /** Every caller uses one request id for one turn. */
  ghost predicate Named(book: Id -> Turn, step: Step) {
    match step
    case Begin(_, send, _) => book(send.turn.request) == send.turn
    case Foreign(row) => row.fact.TurnRequested? ==> book(row.fact.turn.request) == row.fact.turn
    case _ => true
  }

  ghost predicate SystemNamed(book: Id -> Turn, y: System) {
    && (forall i :: TurnAt(y.rows, i) ==> book(y.rows[i].fact.turn.request) == y.rows[i].fact.turn)
    && (forall h :: 0 <= h < |y.hosts| && !y.hosts[h].Idle? ==> book(y.hosts[h].send.turn.request) == y.hosts[h].send.turn)
    && (forall n :: 0 <= n < |y.sent| ==> book(y.sent[n].send.turn.request) == y.sent[n].send.turn)
  }

  lemma NextKeepsNames(book: Id -> Turn, y: System, step: Step)
    requires SystemOk(y) && SystemNamed(book, y) && Named(book, step)
    ensures SystemNamed(book, Next(y, step))
  {
    match step
    case Begin(h, send, now) => if h < |y.hosts| { MoveKeepsNames(book, y, h, Reattaching(send)); }
    case Reattached(h, now) =>
      if h < |y.hosts| && y.hosts[h].Reattaching? { MoveKeepsNames(book, y, h, ReattachedStep(y, h, now).hosts[h]); }
    case Request(h, now) =>
      if h < |y.hosts| && y.hosts[h].Requesting? {
        var send := y.hosts[h].send;
        AppendExactly(y.session, y.rows, y.hosts[h].version, now, TurnRequested(send.turn));
        var z := RequestStep(y, h, now);
        MoveKeepsNames(book, y, h, z.hosts[h]);
        RowKeepsNames(book, Move(y, h, z.hosts[h]), z, TurnRequested(send.turn));
      }
    case Dispatch(h, now) =>
      if h < |y.hosts| && y.hosts[h].Dispatching? {
        var send := y.hosts[h].send;
        AppendExactly(y.session, y.rows, y.hosts[h].version, now, DispatchStarted(send.turn.request));
        var z := DispatchStep(y, h, now);
        MoveKeepsNames(book, y, h, z.hosts[h]);
        RowKeepsNames(book, Move(y, h, z.hosts[h]), z, DispatchStarted(send.turn.request));
      }
    case CallProvider(h) => if h < |y.hosts| && y.hosts[h].Sending? { MoveKeepsNames(book, y, h, Awaiting(y.hosts[h].send)); }
    case Crash(h) => if h < |y.hosts| { MoveKeepsNames(book, y, h, Idle); }
    case Foreign(row) => RowKeepsNames(book, y, Next(y, step), row.fact);
  }

  lemma MoveKeepsNames(book: Id -> Turn, y: System, h: nat, place: Place)
    requires SystemNamed(book, y) && h < |y.hosts|
    requires !place.Idle? ==> book(place.send.turn.request) == place.send.turn
    ensures SystemNamed(book, Move(y, h, place))
  {
  }

  lemma RowKeepsNames(book: Id -> Turn, y: System, z: System, f: Fact)
    requires SystemNamed(book, y) && (f.TurnRequested? ==> book(f.turn.request) == f.turn)
    requires z.rows == y.rows || (|z.rows| == |y.rows| + 1 && z.rows[..|y.rows|] == y.rows && z.rows[|y.rows|].fact == f)
    requires z.hosts == y.hosts && z.sent == y.sent
    ensures SystemNamed(book, z)
  {
    forall i | TurnAt(z.rows, i) ensures book(z.rows[i].fact.turn.request) == z.rows[i].fact.turn {
      if i < |y.rows| {
        assert z.rows[i] == z.rows[..|y.rows|][i];
        assert TurnAt(y.rows, i);
      }
    }
  }

  lemma {:induction false} EveryName(book: Id -> Turn, session: Id, hosts: nat, steps: seq<Step>)
    requires forall k :: 0 <= k < |steps| ==> Named(book, steps[k])
    ensures SystemNamed(book, Run(session, hosts, steps))
    decreases |steps|
  {
    if steps != [] {
      EveryName(book, session, hosts, steps[..|steps| - 1]);
      EverySystem(session, hosts, steps[..|steps| - 1]);
      NextKeepsNames(book, Run(session, hosts, steps[..|steps| - 1]), steps[|steps| - 1]);
    }
  }

  /** When callers name turns by their request ids, what is sent is the very turn on record. */
  lemma SendsRecordedTurn(book: Id -> Turn, session: Id, hosts: nat, steps: seq<Step>)
    requires forall k :: 0 <= k < |steps| ==> Named(book, steps[k])
    ensures var y := Run(session, hosts, steps);
      forall n :: 0 <= n < |y.sent| ==> Recorded(y.rows, y.sent[n].send.turn)
  {
    EveryName(book, session, hosts, steps);
    SendsAtMostOnce(session, hosts, steps);
    var y := Run(session, hosts, steps);
    forall n | 0 <= n < |y.sent| ensures Recorded(y.rows, y.sent[n].send.turn) {
      assert Asked(y.rows, y.sent[n].send.turn.request);
      var i :| TurnAt(y.rows, i) && y.rows[i].fact.turn.request == y.sent[n].send.turn.request;
      assert y.rows[i].fact.turn == y.sent[n].send.turn;
    }
  }

  ghost predicate Recorded(rows: seq<Row>, turn: Turn) {
    exists i :: TurnAt(rows, i) && rows[i].fact.turn == turn
  }

  /** Without that, it need not be: the message is compared with the pending turn before the
      provider is reattached and not after, so a turn recorded meanwhile under the same request id
      is dispatched with this host's message in its place. */
  lemma OtherMessageCanBeSent(session: Id, mine: Turn, other: Turn)
    requires mine.request == other.request && mine != other
    ensures var y := Run(session, 1, Swapped(session, mine, other));
      y.sent == [Sent(0, Send(mine, None))] && Recorded(y.rows, other) && !Recorded(y.rows, mine)
  {
    var steps := Swapped(session, mine, other);
    var states := seq(8, k requires k >= 0 => SwappedAt(session, mine, other, k));
    forall k | 0 <= k < 7 ensures states[k + 1] == Next(states[k], steps[k]) {
      SwappedStep(session, mine, other, k);
    }
    Follow(session, 1, steps, states);
    var log := LogOf(session, mine, other, 4);
    forall k: nat | k < 4 ensures log[k] == RowAt(session, mine, other, k) {
      LogAt(session, mine, other, 4, k);
    }
    assert TurnAt(log, 2);
  }

  lemma {:induction false} Follow(session: Id, hosts: nat, steps: seq<Step>, states: seq<System>)
    requires |states| == |steps| + 1 && states[0] == Start(session, hosts)
    requires forall k :: 0 <= k < |steps| ==> states[k + 1] == Next(states[k], steps[k])
    ensures Run(session, hosts, steps) == states[|steps|]
    decreases |steps|
  {
    if steps != [] {
      var n := |steps| - 1;
      Follow(session, hosts, steps[..n], states[..n + 1]);
      assert states[n + 1] == Next(states[n], steps[n]);
    }
  }

  function SwappedAt(session: Id, mine: Turn, other: Turn, k: nat): System {
    var send := Send(mine, None);
    if k <= 2 then System(session, LogOf(session, mine, other, k), [Idle], [], None)
    else if k == 3 then System(session, LogOf(session, mine, other, 2), [Reattaching(send)], [], None)
    else if k == 4 then System(session, LogOf(session, mine, other, 3), [Reattaching(send)], [], None)
    else if k == 5 then System(session, LogOf(session, mine, other, 3), [Dispatching(send, 3)], [], None)
    else if k == 6 then System(session, LogOf(session, mine, other, 4), [Sending(send)], [], Some(0))
    else System(session, LogOf(session, mine, other, 4), [Awaiting(send)], [Sent(0, send)], Some(0))
  }

  lemma SwappedStep(session: Id, mine: Turn, other: Turn, k: nat)
    requires k < 7 && mine.request == other.request
    ensures SwappedAt(session, mine, other, k + 1) == Next(SwappedAt(session, mine, other, k), Swapped(session, mine, other)[k])
  {
    var y := SwappedAt(session, mine, other, k);
    if k in {0, 1, 3} {
      var n := if k == 3 then 2 else k;
      LogStates(session, mine, other, n + 1);
      ForeignTaken(y, RowAt(session, mine, other, n));
    } else if k == 2 {
      LogStates(session, mine, other, 2);
      BeginTaken(y, StateAfter(session, other, 2), Send(mine, None));
    } else if k == 4 {
      LogStates(session, mine, other, 3);
      ReattachTaken(y, StateAfter(session, other, 3), Send(mine, None));
    } else if k == 5 {
      LogStates(session, mine, other, 3);
      LogStep(session, mine, other, 3);
      DispatchTaken(y, StateAfter(session, other, 3), RowAt(session, mine, other, 3), Send(mine, None));
    }
  }

  lemma ForeignTaken(y: System, row: Row)
    requires Accepted(y.session, y.rows + [row])
    ensures Next(y, Foreign(row)) == y.(rows := y.rows + [row])
  {
  }

  lemma BeginTaken(y: System, s: State, send: Send)
    requires y.hosts == [Idle] && Fold(y.session, y.rows) == Ok(s)
    requires s.provider.Some? && !s.terminal && !s.dispatched && s.worker == NoWorker && send.lease.None? && s.pending.None?
    ensures Next(y, Begin(0, send, 0)) == y.(hosts := [Reattaching(send)])
  {
  }

  lemma ReattachTaken(y: System, s: State, send: Send)
    requires y.hosts == [Reattaching(send)] && Fold(y.session, y.rows) == Ok(s)
    requires s.provider.Some? && !s.terminal && !s.dispatched && s.worker == NoWorker && send.lease.None? && s.pending.Some?
    ensures Next(y, Reattached(0, 0)) == y.(hosts := [Dispatching(send, s.version)])
  {
  }

  lemma DispatchTaken(y: System, s: State, row: Row, send: Send)
    requires Fold(y.session, y.rows) == Ok(s) && y.hosts == [Dispatching(send, s.version)]
    requires row == Row(y.session, s.version + 1, 0, y.session, DispatchStarted(send.turn.request))
    requires s.trace == Some(y.session) && s.last == Some(0) && s.session == y.session && Apply(s, row).Ok?
    ensures Next(y, Dispatch(0, 0)) == y.(rows := y.rows + [row], hosts := [Sending(send)], owner := Some(0))
  {
  }

  function FactAt(session: Id, mine: Turn, other: Turn, k: nat): Fact {
    if k == 0 then Created(Spec(session, true, "p"))
    else if k == 1 then Bound("r", "p")
    else if k == 2 then TurnRequested(other)
    else DispatchStarted(mine.request)
  }

  function RowAt(session: Id, mine: Turn, other: Turn, k: nat): Row {
    Row(session, k + 1, 0, session, FactAt(session, mine, other, k))
  }

  function LogOf(session: Id, mine: Turn, other: Turn, n: nat): (log: seq<Row>)
    ensures |log| == n
  {
    if n == 0 then [] else LogOf(session, mine, other, n - 1) + [RowAt(session, mine, other, n - 1)]
  }

  function Swapped(session: Id, mine: Turn, other: Turn): seq<Step> {
    [ Foreign(RowAt(session, mine, other, 0)),
      Foreign(RowAt(session, mine, other, 1)),
      Begin(0, Send(mine, None), 0),
      Foreign(RowAt(session, mine, other, 2)),
      Reattached(0, 0),
      Dispatch(0, 0),
      CallProvider(0)
    ]
  }

  lemma {:induction false} LogAt(session: Id, mine: Turn, other: Turn, n: nat, k: nat)
    requires k < n
    ensures LogOf(session, mine, other, n)[k] == RowAt(session, mine, other, k)
  {
    if k < n - 1 { LogAt(session, mine, other, n - 1, k); }
  }

  function StateAfter(session: Id, other: Turn, k: nat): State {
    var s := Initial(session);
    var t := s.(trace := Some(session), version := 1, spec := Some(Spec(session, true, "p")), last := Some(0));
    var u := t.(version := 2, provider := Some("p"), runtime := "r");
    var v := u.(version := 3, pending := Some(other));
    if k == 0 then s else if k == 1 then t else if k == 2 then u else if k == 3 then v else v.(version := 4, dispatched := true)
  }

  lemma LogStep(session: Id, mine: Turn, other: Turn, k: nat)
    requires mine.request == other.request && k < 4
    ensures Apply(StateAfter(session, other, k), RowAt(session, mine, other, k)) == Ok(StateAfter(session, other, k + 1))
  {
    var s, row := StateAfter(session, other, k), RowAt(session, mine, other, k);
    assert Admit(s, row).Ok?;
    assert Effect(s, 0, row.fact) == SessionEffect(s, row.fact);
  }

  /** The states the log of that run goes through. */
  lemma {:induction false} LogStates(session: Id, mine: Turn, other: Turn, k: nat)
    requires mine.request == other.request && k <= 4
    ensures Fold(session, LogOf(session, mine, other, k)) == Ok(StateAfter(session, other, k))
  {
    if k > 0 {
      LogStates(session, mine, other, k - 1);
      FoldPush(session, LogOf(session, mine, other, k - 1), RowAt(session, mine, other, k - 1));
      LogStep(session, mine, other, k - 1);
    }
  }
}
