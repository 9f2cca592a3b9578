/** The message store as an object whose table grows in place; a transaction that fails puts the
    table back. */
module MessageStoreClass {
  import opened Outcomes
  import opened S = MessageStore

  lemma {:induction false} ReadRefused(rows: seq<Row>, id: Id, n: nat)
    requires n <= |rows| && S.Read(rows[..n], id).Err?
    ensures S.Read(rows, id) == S.Read(rows[..n], id)
    decreases |rows|
  {
    if n < |rows| {
      assert rows[..|rows| - 1][..n] == rows[..n];
      ReadRefused(rows[..|rows| - 1], id, n);
    } else {
      assert rows[..n] == rows;
    }
  }

  lemma {:induction false} ReadEachPush(rows: seq<Row>, ids: seq<Id>, n: nat)
    requires n < |ids| && ReadEach(rows, ids[..n]).Ok?
    ensures ReadEach(rows, ids[..n + 1]) ==
      match S.Read(rows, ids[n])
      case Err(e) => Err(e)
      case Ok(None) => Err(BadStream)
      case Ok(Some(m)) => Ok(ReadEach(rows, ids[..n]).value + [m])
    decreases n
  {
    assert ids[..n + 1][0] == ids[0];
    if n > 0 {
      assert ids[..n + 1][1..] == ids[1..][..n] && ids[..n][1..] == ids[1..][..n - 1];
      ReadEachPush(rows, ids[1..], n - 1);
      var rest := ReadEach(rows, ids[1..][..n - 1]).value;
      assert ids[1..][..n] == ids[1..][..n - 1 + 1];
      assert forall m: Message, x: Message :: [m] + (rest + [x]) == ([m] + rest) + [x];
    } else {
      assert ids[..1][1..] == [];
      assert forall x: Message :: [x] + [] == [] + [x];
    }
  }

  lemma {:induction false} ReadEachRefused(rows: seq<Row>, ids: seq<Id>, n: nat)
    requires n <= |ids| && ReadEach(rows, ids[..n]).Err?
    ensures ReadEach(rows, ids) == ReadEach(rows, ids[..n])
    decreases n
  {
    if n > 0 {
      assert ids[..n][0] == ids[0] && ids[..n][1..] == ids[1..][..n - 1];
      if S.Read(rows, ids[0]).Ok? && S.Read(rows, ids[0]).value.Some? { ReadEachRefused(rows, ids[1..], n - 1); }
    }
  }

  class SqliteAgentMessageStore {
    var rows: seq<Row>

    constructor ()
      ensures rows == []
    {
      rows := [];
    }

    method ReadUnsafe(id: Id) returns (r: Result<Option<Message>, Error>)
      ensures r == S.Read(rows, id)
    {
      var state: Option<Message> := None;
      for n := 0 to |rows|
        invariant S.Read(rows[..n], id) == Ok(state)
      {
        assert rows[..n + 1] == rows[..n] + [rows[n]];
        ReadPush(rows[..n], rows[n], id);
        if rows[n].message == id {
          var next := Apply(state, rows[n]);
          if next.Err? {
            ReadRefused(rows, id, n + 1);
            return Err(next.error);
          }
          state := Some(next.value);
        }
      }
      assert rows[..|rows|] == rows;
      r := Ok(state);
    }

    method MessageIds() returns (ids: seq<Id>)
      ensures ids == Ids(rows)
    {
      ids := [];
      for n := 0 to |rows|
        invariant ids == Ids(rows[..n])
      {
        assert rows[..n + 1] == rows[..n] + [rows[n]];
        IdsPush(rows[..n], rows[n]);
        if rows[n].message !in ids { ids := ids + [rows[n].message]; }
      }
      assert rows[..|rows|] == rows;
    }

    method StatesUnsafe() returns (r: Result<seq<Message>, Error>)
      ensures r == States(rows)
    {
      var ids := MessageIds();
      if |ids| > MAX_MESSAGES { return Err(StoreFull); }
      var states: seq<Message> := [];
      for n := 0 to |ids|
        invariant ReadEach(rows, ids[..n]) == Ok(states)
      {
        ReadEachPush(rows, ids, n);
        var m := ReadUnsafe(ids[n]);
        if m.Err? || m.value.None? {
          ReadEachRefused(rows, ids, n + 1);
          return Err(if m.Err? then m.error else BadStream);
        }
        states := states + [m.value.value];
      }
      assert ids[..|ids|] == ids;
      r := Ok(states);
    }

    method InsertRow(row: Row) returns (ok: bool)
      modifies this
      ensures ok <==> Insert(old(rows), row).Ok?
      ensures rows == if ok then Insert(old(rows), row).value else old(rows)
    {
      for n := 0 to |rows|
        invariant rows == old(rows) && !Clashes(rows[..n], row)
      {
        if (rows[n].message == row.message && rows[n].sequence == row.sequence)
          || (rows[n].payload.Enqueue? && row.payload.Enqueue? && rows[n].sender == row.sender && rows[n].key == row.key)
        {
          return false;
        }
        assert rows[..n + 1] == rows[..n] + [rows[n]];
      }
      assert rows[..|rows|] == rows;
      rows := rows + [row];
      ok := true;
    }

    method TransitionUnsafe(m: Message, move: Move, at: Time) returns (problem: Option<Error>)
      modifies this
      ensures match Transit(old(rows), m, move, at)
        case Ok(next) => problem.None? && rows == next
        case Err(e) => problem == Some(e)
    {
      var ok := InsertRow(MoveRow(m, move, at));
      if !ok { return Some(Conflict); }
      var read := ReadUnsafe(m.request.message);
      problem := if read.Err? then Some(read.error) else None;
    }

    /** One pass over the states read before it. */
    method MoveAll(states: seq<Message>, at: Time, choose: Message -> Choice) returns (problem: Option<Error>)
      modifies this
      ensures match MoveEach(old(rows), states, at, choose)
        case Ok(next) => problem.None? && rows == next
        case Err(e) => problem == Some(e)
    {
      for n := 0 to |states|
        invariant MoveEach(old(rows), states, at, choose) == MoveEach(rows, states[n..], at, choose)
      {
        assert states[n..][0] == states[n] && states[n..][1..] == states[n + 1..];
        match choose(states[n]) {
          case Keep =>
          case Invalid => return Some(BadDecision);
          case Go(move) =>
            problem := TransitionUnsafe(states[n], move, at);
            if problem.Some? { return; }
        }
      }
      problem := None;
    }

    method ExpireRows(now: Time) returns (problem: Option<Error>)
      modifies this
      ensures match ExpireUnsafe(old(rows), now)
        case Ok(next) => problem.None? && rows == next
        case Err(e) => problem == Some(e)
    {
      var states := StatesUnsafe();
      if states.Err? { return Some(states.error); }
      problem := MoveAll(states.value, now, Due(now));
    }

    method Expire(now: Time) returns (problem: Option<Error>)
      modifies this
      ensures match S.Expire(old(rows), now)
        case Ok(next) => problem.None? && rows == next
        case Err(e) => problem == Some(e) && rows == old(rows)
    {
      if !InTime(rows, now) { return Some(ClockRegressed); }
      var saved := rows;
      problem := ExpireRows(now);
      if problem.Some? { rows := saved; }
    }

    method FindByIdempotency(sender: Id, key: Id) returns (found: Option<Id>)
      ensures found == FindByKey(rows, sender, key)
    {
      found := None;
      for n := 0 to |rows|
        invariant found == FindByKey(rows[..n], sender, key)
      {
        assert rows[..n + 1][..n] == rows[..n];
        if found.None? && rows[n].payload.Enqueue? && rows[n].sender == sender && rows[n].key == key {
          found := Some(rows[n].message);
        }
      }
      assert rows[..|rows|] == rows;
    }

    /** `states.filter(test).length` */
    method CountStates(states: seq<Message>, test: Message -> bool) returns (n: nat)
      ensures n == Count(states, test)
    {
      n := 0;
      for k := 0 to |states|
        invariant n == Count(states[..k], test)
      {
        assert states[..k + 1][..k] == states[..k];
        if test(states[k]) { n := n + 1; }
      }
      assert states[..|states|] == states;
    }

    method EnforceBounds(r: Request, now: Time, l: Limits) returns (problem: Option<Error>)
      ensures match States(rows)
        case Err(e) => problem == Some(e)
        case Ok(states) => match Bounds(states, r, now, l) case Ok(_) => problem.None? case Err(e) => problem == Some(e)
    {
      var states := StatesUnsafe();
      if states.Err? { return Some(states.error); }
      if |states.value| >= MAX_MESSAGES { return Some(StoreFull); }
      var sent := CountStates(states.value, FromSince(r.sender, now - l.rateWindow));
      if sent >= l.rateLimit { return Some(RateLimited); }
      var waiting := CountStates(states.value, Waiting(r.recipient));
      if waiting >= l.maxInbox { return Some(InboxFull); }
      problem := None;
    }

    /** The two rows of a new message. */
    method EnterRows(r: Request, now: Time, l: Limits, d: Decision) returns (a: Result<Message, Error>)
      modifies this
      ensures match States(old(rows))
        case Err(e) => a == Err(e)
        case Ok(states) =>
          match Enter(old(rows), states, r, now, l, d)
          case Ok(answer) => a == Ok(answer.message) && rows == answer.rows && !answer.replayed
          case Err(e) => a == Err(e)
    {
      var problem := EnforceBounds(r, now, l);
      if problem.Some? { return Err(problem.value); }
      if d == Nonsense { return Err(BadDecision); }
      if now + r.ttl > MAX_TIME { return Err(OutOfClock); }
      var ok := InsertRow(EnqueueRow(r, now));
      if !ok { return Err(Conflict); }
      ok := InsertRow(InboundRow(r, now, d));
      if !ok { return Err(Conflict); }
      var read := ReadUnsafe(r.message);
      a := if read.Err? then Err(read.error) else if read.value.None? then Err(BadStream) else Ok(read.value.value);
    }

    method SendRows(r: Request, now: Time, l: Limits, d: Decision) returns (a: Result<Message, Error>, replayed: bool)
      modifies this
      ensures match SendAged(old(rows), r, now, l, d)
        case Ok(answer) => a == Ok(answer.message) && rows == answer.rows && replayed == answer.replayed
        case Err(e) => a == Err(e)
    {
      replayed := false;
      var found := FindByIdempotency(r.sender, r.key);
      if found.Some? {
        var m := ReadUnsafe(found.value);
        if m.Err? { return Err(m.error), false; }
        if m.value.None? { return Err(BadStream), false; }
        if m.value.value.request != r { return Err(DedupConflict), false; }
        return Ok(m.value.value), true;
      }
      a := EnterRows(r, now, l, d);
    }

    method AtomicSend(r: Request, now: Time, l: Limits, d: Decision) returns (a: Result<Message, Error>, replayed: bool)
      modifies this
      ensures match Send(old(rows), r, now, l, d)
        case Ok(answer) => a == Ok(answer.message) && rows == answer.rows && replayed == answer.replayed
        case Err(e) => a == Err(e) && rows == old(rows)
    {
      if !InTime(rows, now) { return Err(ClockRegressed), false; }
      var saved := rows;
      var problem := ExpireRows(now);
      if problem.Some? {
        rows := saved;
        return Err(problem.value), false;
      }
      a, replayed := SendRows(r, now, l, d);
      if a.Err? { rows := saved; }
    }

    method AcknowledgeAtomic(id: Id, recipient: Id, now: Time) returns (a: Result<Message, Error>)
      modifies this
      ensures (rows, a) == Acknowledge(old(rows), id, recipient, now)
    {
      if !InTime(rows, now) { return Err(ClockRegressed); }
      var saved := rows;
      var problem := ExpireRows(now);
      if problem.Some? {
        rows := saved;
        return Err(problem.value);
      }
      var state := ReadUnsafe(id);
      if state.Err? {
        rows := saved;
        return Err(state.error);
      }
      if state.value.None? || !CanAck(state.value.value, id, recipient, now) { return Err(NotAcknowledgeable); }
      var m := state.value.value;
      problem := TransitionUnsafe(m, ToAcknowledged, now);
      if problem.Some? {
        rows := saved;
        return Err(problem.value);
      }
      a := Ok(Moved(m, ToAcknowledged, now));
    }

    method FlushHeldAtomic(recipient: Id, now: Time, decide: Message -> Decision) returns (problem: Option<Error>)
      modifies this
      ensures match Flush(old(rows), recipient, now, decide)
        case Ok(next) => problem.None? && rows == next
        case Err(e) => problem == Some(e) && rows == old(rows)
    {
      if !InTime(rows, now) { return Some(ClockRegressed); }
      var saved := rows;
      problem := ExpireRows(now);
      if problem.None? {
        var states := StatesUnsafe();
        if states.Err? {
          problem := Some(states.error);
        } else {
          problem := MoveAll(states.value, now, Flushing(recipient, decide));
        }
      }
      if problem.Some? { rows := saved; }
    }
  }
}
