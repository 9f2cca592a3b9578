/** The agent message store: one table of immutable rows, folded per message into its state; sends,
    acknowledgements, flushes and expiry each run as one transaction. */
module MessageStore {
  import opened Outcomes

  type Id = string

  const MAX_TEXT_BYTES := 65_536
  const MAX_TTL_MS := 604_800_000
  const MAX_MESSAGES := 10_000
  const MAX_TIME := 8_640_000_000_000_000

  datatype Request = Request(message: Id, sender: Id, recipient: Id, key: Id, text: string, ttl: int)

  datatype Status = Enqueued | Delivered | Held | Refused | Expired

  datatype Move = ToDelivered | ToHeld | ToRefused | ToExpired | ToAcknowledged

  datatype Reason = InboundAccept | InboundHold | InboundRefuse | TtlElapsed | RecipientAck

  datatype Payload =
    | Enqueue(request: Request, created: int, expires: int)
    | Transition(move: Move, reason: Reason)

  datatype Row = Row(message: Id, sequence: int, at: int, sender: Id, recipient: Id, key: Id, payload: Payload)

  datatype Message = Message(
    request: Request,
    created: int,
    expires: int,
    status: Status,
    acknowledged: bool,
    reason: Option<Reason>,
    version: int,
    last: int)

  datatype Error = BadStream | BadMessage | ClockRegressed | StoreFull | RateLimited | InboxFull | DedupConflict | Conflict
    | BadDecision | OutOfClock | NotAcknowledgeable

  // ---------------------------------------------------------------- one message

  /** UTF-8 length of a character. */
  function Width(c: char): (n: nat)
    ensures 1 <= n <= 4
  {
    if c as int < 0x80 then 1 else if c as int < 0x800 then 2 else if c as int < 0x1_0000 then 3 else 4
  }

  function Bytes(s: string): nat {
    if s == [] then 0 else Width(s[0]) + Bytes(s[1..])
  }

  predicate Blank(c: char) {
    c <= ' ' || c in {'\U{7f}', '\U{a0}', '\U{1680}', '\U{2028}', '\U{2029}', '\U{202f}', '\U{205f}', '\U{3000}', '\U{feff}'}
    || '\U{2000}' <= c <= '\U{200a}'
  }

  predicate Identifier(s: Id) {
    1 <= |s| <= 256 && (forall c <- s :: !Blank(c)) && s !in {"__proto__", "prototype", "constructor"}
  }

  predicate RequestOk(r: Request) {
    && 1 <= Bytes(r.text) <= MAX_TEXT_BYTES && 1 <= r.ttl <= MAX_TTL_MS
    && Identifier(r.message) && Identifier(r.sender) && Identifier(r.recipient) && Identifier(r.key)
  }

  predicate OnClock(t: int) { -MAX_TIME <= t <= MAX_TIME }

  type Time = t: int | OnClock(t) witness 0

  function ReasonFor(m: Move): Reason {
    match m
    case ToDelivered => InboundAccept
    case ToHeld => InboundHold
    case ToRefused => InboundRefuse
    case ToExpired => TtlElapsed
    case ToAcknowledged => RecipientAck
  }

  predicate Allowed(s: Status, m: Move) {
    match s
    case Enqueued => m in {ToDelivered, ToHeld, ToRefused}
    case Held => m in {ToDelivered, ToRefused, ToExpired}
    case Delivered => m in {ToExpired, ToAcknowledged}
    case Refused => false
    case Expired => false
  }

  /** The move may happen to the message at this time. */
  predicate CanMove(m: Message, move: Move, at: int) {
    && !m.acknowledged && Allowed(m.status, move) && m.last <= at && OnClock(at)
    && (move == ToExpired <==> m.expires <= at)
  }

  function Moved(m: Message, move: Move, at: int): Message {
    var t := m.(version := m.version + 1, last := at, reason := Some(ReasonFor(move)));
    match move
    case ToDelivered => t.(status := Delivered)
    case ToHeld => t.(status := Held)
    case ToRefused => t.(status := Refused)
    case ToExpired => t.(status := Expired)
    case ToAcknowledged => t.(acknowledged := true)
  }

  /** `applyEvent`; no message yet is None. */
  function Apply(state: Option<Message>, row: Row): Result<Message, Error> {
    if !(Identifier(row.message) && Identifier(row.sender) && Identifier(row.recipient) && Identifier(row.key) && OnClock(row.at))
    then Err(BadMessage)
    else match state
      case None =>
        if row.sequence != 1 || !row.payload.Enqueue? then Err(BadStream)
        else
          var p := row.payload;
          if !RequestOk(p.request) || !OnClock(p.expires) then Err(BadMessage)
          else if p.created != row.at || p.expires != p.created + p.request.ttl
            || (row.message, row.sender, row.recipient, row.key) != (p.request.message, p.request.sender, p.request.recipient, p.request.key)
          then Err(BadStream)
          else Ok(Message(p.request, p.created, p.expires, Enqueued, false, None, 1, row.at))
      case Some(m) =>
        if row.sequence != m.version + 1 || row.at < m.last || !row.payload.Transition? then Err(BadStream)
        else if (row.message, row.sender, row.recipient, row.key) != (m.request.message, m.request.sender, m.request.recipient, m.request.key)
        then Err(BadStream)
        else if row.payload.reason != ReasonFor(row.payload.move) || !CanMove(m, row.payload.move, row.at) then Err(BadStream)
        else Ok(Moved(m, row.payload.move, row.at))
  }

  /** `#readUnsafe` */
  function Read(rows: seq<Row>, id: Id): Result<Option<Message>, Error>
    decreases |rows|
  {
    if rows == [] then Ok(None)
    else
      var n := |rows| - 1;
      var m :- Read(rows[..n], id);
      if rows[n].message != id then Ok(m)
      else
        var next :- Apply(m, rows[n]);
        Ok(Some(next))
  }

  /** Message ids by first position. */
  function Ids(rows: seq<Row>): (ids: seq<Id>)
    decreases |rows|
  {
    if rows == [] then []
    else
      var n := |rows| - 1;
      var ids := Ids(rows[..n]);
      if rows[n].message in ids then ids else ids + [rows[n].message]
  }

  function ReadEach(rows: seq<Row>, ids: seq<Id>): Result<seq<Message>, Error> {
    if ids == [] then Ok([])
    else
      var m :- Read(rows, ids[0]);
      if m.None? then Err(BadStream)
      else
        var rest :- ReadEach(rows, ids[1..]);
        Ok([m.value] + rest)
  }

  /** `#statesUnsafe` */
  function States(rows: seq<Row>): Result<seq<Message>, Error> {
    if |Ids(rows)| > MAX_MESSAGES then Err(StoreFull) else ReadEach(rows, Ids(rows))
  }

  // ---------------------------------------------------------------- the table

  /** Both unique indexes. */
  predicate Clashes(rows: seq<Row>, row: Row) {
    exists i :: 0 <= i < |rows| && (
      || (rows[i].message == row.message && rows[i].sequence == row.sequence)
      || (rows[i].payload.Enqueue? && row.payload.Enqueue? && rows[i].sender == row.sender && rows[i].key == row.key))
  }

  function Insert(rows: seq<Row>, row: Row): Result<seq<Row>, Error> {
    if Clashes(rows, row) then Err(Conflict) else Ok(rows + [row])
  }

  function MoveRow(m: Message, move: Move, at: int): Row {
    Row(m.request.message, m.version + 1, at, m.request.sender, m.request.recipient, m.request.key, Transition(move, ReasonFor(move)))
  }

  /** `#transitionUnsafe` */
  function Transit(rows: seq<Row>, m: Message, move: Move, at: int): Result<seq<Row>, Error> {
    var next :- Insert(rows, MoveRow(m, move, at));
    var _ :- Read(next, m.request.message);
    Ok(next)
  }

  datatype Choice = Keep | Go(move: Move) | Invalid

  /** One pass over the messages, moving those that are chosen. */
  function MoveEach(rows: seq<Row>, states: seq<Message>, at: int, choose: Message -> Choice): Result<seq<Row>, Error>
    decreases |states|
  {
    if states == [] then Ok(rows)
    else match choose(states[0])
      case Keep => MoveEach(rows, states[1..], at, choose)
      case Invalid => Err(BadDecision)
      case Go(move) =>
        var next :- Transit(rows, states[0], move, at);
        MoveEach(next, states[1..], at, choose)
  }

  predicate Live(m: Message) { m.status in {Held, Delivered} && !m.acknowledged }

  function Due(now: Time): Message -> Choice {
    (m: Message) => if Live(m) && m.expires <= now then Go(ToExpired) else Keep
  }

  predicate InTime(rows: seq<Row>, now: Time) {
    rows == [] || rows[|rows| - 1].at <= now
  }

  function ExpireUnsafe(rows: seq<Row>, now: Time): Result<seq<Row>, Error> {
    var states :- States(rows);
    MoveEach(rows, states, now, Due(now))
  }

  function Expire(rows: seq<Row>, now: Time): Result<seq<Row>, Error> {
    if !InTime(rows, now) then Err(ClockRegressed) else ExpireUnsafe(rows, now)
  }

  // ---------------------------------------------------------------- send, acknowledge, flush

  datatype Limits = Limits(maxInbox: int, rateLimit: int, rateWindow: int)

  datatype Decision = Accept | Hold | Refuse | Nonsense

  function FindByKey(rows: seq<Row>, sender: Id, key: Id): Option<Id>
    decreases |rows|
  {
    if rows == [] then None
    else
      var n := |rows| - 1;
      var found := FindByKey(rows[..n], sender, key);
      if found.Some? then found
      else if rows[n].payload.Enqueue? && rows[n].sender == sender && rows[n].key == key then Some(rows[n].message)
      else None
  }

  function Count(states: seq<Message>, test: Message -> bool): nat {
    if states == [] then 0
    else
      var n := |states| - 1;
      Count(states[..n], test) + (if test(states[n]) then 1 else 0)
  }

  function FromSince(sender: Id, since: int): Message -> bool {
    (m: Message) => m.request.sender == sender && m.created >= since
  }

  function Waiting(recipient: Id): Message -> bool {
    (m: Message) => m.request.recipient == recipient && Live(m)
  }

  /** `enforceBounds` */
  function Bounds(states: seq<Message>, r: Request, now: Time, l: Limits): Result<(), Error> {
    if |states| >= MAX_MESSAGES then Err(StoreFull)
    else if Count(states, FromSince(r.sender, now - l.rateWindow)) >= l.rateLimit then Err(RateLimited)
    else if Count(states, Waiting(r.recipient)) >= l.maxInbox then Err(InboxFull)
    else Ok(())
  }

  function EnqueueRow(r: Request, now: Time): Row {
    Row(r.message, 1, now, r.sender, r.recipient, r.key, Enqueue(r, now, now + r.ttl))
  }

  function Inbound(d: Decision): Move {
    match d case Hold => ToHeld case Refuse => ToRefused case _ => ToDelivered
  }

  function InboundRow(r: Request, now: Time, d: Decision): Row {
    Row(r.message, 2, now, r.sender, r.recipient, r.key, Transition(Inbound(d), ReasonFor(Inbound(d))))
  }

  datatype Answer = Answer(rows: seq<Row>, message: Message, replayed: bool)

  function Enter(rows: seq<Row>, states: seq<Message>, r: Request, now: Time, l: Limits, d: Decision): Result<Answer, Error> {
    var _ :- Bounds(states, r, now, l);
    if d == Nonsense then Err(BadDecision)
    else if now + r.ttl > MAX_TIME then Err(OutOfClock)
    else
      var first :- Insert(rows, EnqueueRow(r, now));
      var second :- Insert(first, InboundRow(r, now, d));
      var m :- Read(second, r.message);
      if m.None? then Err(BadStream) else Ok(Answer(second, m.value, false))
  }

  function SendAged(rows: seq<Row>, r: Request, now: Time, l: Limits, d: Decision): Result<Answer, Error> {
    var found := FindByKey(rows, r.sender, r.key);
    if found.Some? then
      var m :- Read(rows, found.value);
      if m.None? then Err(BadStream) else if m.value.request != r then Err(DedupConflict) else Ok(Answer(rows, m.value, true))
    else
      var states :- States(rows);
      Enter(rows, states, r, now, l, d)
  }

  /** `atomicSend`: an error leaves the table as it was. */
  function Send(rows: seq<Row>, r: Request, now: Time, l: Limits, d: Decision): Result<Answer, Error> {
    if !InTime(rows, now) then Err(ClockRegressed)
    else
      var aged :- ExpireUnsafe(rows, now);
      SendAged(aged, r, now, l, d)
  }

  predicate CanAck(m: Message, id: Id, recipient: Id, now: Time) {
    m.request.message == id && m.request.recipient == recipient && m.status == Delivered && !m.acknowledged && now < m.expires
  }

  /** The rows to commit; None when the transaction fails and nothing is. */
  function AcknowledgeAged(rows: seq<Row>, id: Id, recipient: Id, now: Time): (Option<seq<Row>>, Result<Message, Error>) {
    match Read(rows, id)
    case Err(e) => (None, Err(e))
    case Ok(None) => (Some(rows), Err(NotAcknowledgeable))
    case Ok(Some(m)) =>
      if !CanAck(m, id, recipient, now) then (Some(rows), Err(NotAcknowledgeable))
      else
        match Transit(rows, m, ToAcknowledged, now)
        case Err(e) => (None, Err(e))
        case Ok(done) => (Some(done), Ok(Moved(m, ToAcknowledged, now)))
  }

  /** `acknowledgeAtomic`: its refusal comes after the transaction, so expiry is kept. */
  function Acknowledge(rows: seq<Row>, id: Id, recipient: Id, now: Time): (seq<Row>, Result<Message, Error>) {
    if !InTime(rows, now) then (rows, Err(ClockRegressed))
    else
      match ExpireUnsafe(rows, now)
      case Err(e) => (rows, Err(e))
      case Ok(aged) =>
        var a := AcknowledgeAged(aged, id, recipient, now);
        (if a.0.Some? then a.0.value else rows, a.1)
  }

  function Flushing(recipient: Id, decide: Message -> Decision): Message -> Choice {
    (m: Message) =>
      if m.request.recipient != recipient || m.status != Held then Keep
      else match decide(m)
        case Accept => Go(ToDelivered)
        case Refuse => Go(ToRefused)
        case Hold => Keep
        case Nonsense => Invalid
  }

  /** `flushHeldAtomic` */
  function Flush(rows: seq<Row>, recipient: Id, now: Time, decide: Message -> Decision): Result<seq<Row>, Error> {
    if !InTime(rows, now) then Err(ClockRegressed)
    else
      var aged :- ExpireUnsafe(rows, now);
      FlushAged(aged, recipient, now, decide)
  }

  function FlushAged(rows: seq<Row>, recipient: Id, now: Time, decide: Message -> Decision): Result<seq<Row>, Error> {
    var states :- States(rows);
    MoveEach(rows, states, now, Flushing(recipient, decide))
  }

  datatype Step =
    | DoExpire(now: Time)
    | DoSend(request: Request, now: Time, decision: Decision)
    | DoAcknowledge(id: Id, recipient: Id, now: Time)
    | DoFlush(recipient: Id, now: Time, decide: Message -> Decision)

  function Next(rows: seq<Row>, l: Limits, step: Step): seq<Row> {
    match step
    case DoExpire(now) => var r := Expire(rows, now); if r.Ok? then r.value else rows
    case DoSend(request, now, d) => var r := Send(rows, request, now, l, d); if r.Ok? then r.value.rows else rows
    case DoAcknowledge(id, recipient, now) => Acknowledge(rows, id, recipient, now).0
    case DoFlush(recipient, now, decide) => var r := Flush(rows, recipient, now, decide); if r.Ok? then r.value else rows
  }

  function Run(l: Limits, steps: seq<Step>): seq<Row>
    decreases |steps|
  {
    if steps == [] then [] else Next(Run(l, steps[..|steps| - 1]), l, steps[|steps| - 1])
  }

  // ---------------------------------------------------------------- what a message's rows say

  ghost predicate MessageOk(m: Message) {
    && RequestOk(m.request) && m.expires == m.created + m.request.ttl && OnClock(m.expires) && OnClock(m.created)
    && m.created <= m.last && (m.acknowledged ==> m.status == Delivered) && (m.status != Expired ==> m.last < m.expires)
    && match m.status
       case Enqueued => m.version == 1
       case Held => m.version == 2
       case Refused => 2 <= m.version <= 3
       case Delivered => if m.acknowledged then 3 <= m.version <= 4 else 2 <= m.version <= 3
       case Expired => 3 <= m.version <= 4
  }

  lemma ApplyKeepsOk(state: Option<Message>, row: Row)
    requires Apply(state, row).Ok? && (state.Some? ==> MessageOk(state.value))
    ensures MessageOk(Apply(state, row).value) && Apply(state, row).value.request.message == row.message
    ensures Apply(state, row).value.version == row.sequence
  {
  }

  predicate RowOf(rows: seq<Row>, i: int, id: Id) { 0 <= i < |rows| && rows[i].message == id }

  ghost predicate Acked(rows: seq<Row>, id: Id) {
    exists i :: RowOf(rows, i, id) && rows[i].payload.Transition? && rows[i].payload.move == ToAcknowledged
  }

  ghost predicate HasExpired(rows: seq<Row>, id: Id) {
    exists i :: RowOf(rows, i, id) && rows[i].payload.Transition? && rows[i].payload.move == ToExpired
  }

  function RowsOf(rows: seq<Row>, id: Id): (n: nat)
    decreases |rows|
  {
    if rows == [] then 0 else RowsOf(rows[..|rows| - 1], id) + (if rows[|rows| - 1].message == id then 1 else 0)
  }

  /** What the fold of one message's rows tells about them. */
  ghost predicate Tells(rows: seq<Row>, id: Id, state: Option<Message>) {
    match state
    case None => forall i :: !RowOf(rows, i, id)
    case Some(m) =>
      && m.request.message == id && MessageOk(m) && RowsOf(rows, id) == m.version
      && (m.acknowledged <==> Acked(rows, id)) && (m.status == Expired <==> HasExpired(rows, id))
      && (forall i :: RowOf(rows, i, id) ==>
            && 1 <= rows[i].sequence <= m.version && rows[i].sender == m.request.sender && rows[i].key == m.request.key
            && (rows[i].payload.Enqueue? ==> rows[i].payload.request == m.request && rows[i].sequence == 1))
      && (exists i :: RowOf(rows, i, id) && rows[i].payload.Enqueue?)
  }

  lemma RowsOfNone(rows: seq<Row>, id: Id)
    requires forall i :: !RowOf(rows, i, id)
    ensures RowsOf(rows, id) == 0
    decreases |rows|
  {
    if rows != [] {
      var n := |rows| - 1;
      assert !RowOf(rows, n, id);
      forall i ensures !RowOf(rows[..n], i, id) { assert !RowOf(rows, i, id); }
      RowsOfNone(rows[..n], id);
    }
  }

  lemma ApplyMarks(state: Option<Message>, row: Row)
    requires Apply(state, row).Ok? && (state.Some? ==> MessageOk(state.value))
    ensures var m := Apply(state, row).value; var p := row.payload;
      && (m.acknowledged <==> (state.Some? && state.value.acknowledged) || (p.Transition? && p.move == ToAcknowledged))
      && (m.status == Expired <==> (state.Some? && state.value.status == Expired) || (p.Transition? && p.move == ToExpired))
      && m.request.sender == row.sender && m.request.key == row.key
      && (state.None? ==> p.Enqueue? && p.request == m.request)
      && (state.Some? ==> !p.Enqueue? && m.request == state.value.request && m.version == state.value.version + 1)
      && (state.None? ==> m.version == 1)
  {
  }

  lemma PushTells(rows: seq<Row>, row: Row, state: Option<Message>)
    requires Tells(rows, row.message, state) && Apply(state, row).Ok?
    ensures Tells(rows + [row], row.message, Some(Apply(state, row).value))
  {
    var all, n, id, m := rows + [row], |rows|, row.message, Apply(state, row).value;
    ApplyKeepsOk(state, row);
    ApplyMarks(state, row);
    assert all[..n] == rows;
    assert RowOf(all, n, id);
    assert forall i :: i != n ==> (RowOf(all, i, id) <==> RowOf(rows, i, id));
    assert forall i :: RowOf(rows, i, id) ==> all[i] == rows[i];
    if state.None? { RowsOfNone(rows, id); }
  }

  lemma {:induction false} ReadTells(rows: seq<Row>, id: Id)
    requires Read(rows, id).Ok?
    ensures Tells(rows, id, Read(rows, id).value)
    decreases |rows|
  {
    if rows != [] {
      var n := |rows| - 1;
      var row := rows[n];
      ReadTells(rows[..n], id);
      var state := Read(rows[..n], id).value;
      assert rows[..n] + [row] == rows;
      if row.message == id {
        PushTells(rows[..n], row, state);
      } else {
        SkipTells(rows[..n], row, id, state);
      }
    }
  }

  lemma SkipTells(rows: seq<Row>, row: Row, id: Id, state: Option<Message>)
    requires Tells(rows, id, state) && row.message != id
    ensures Tells(rows + [row], id, state)
  {
    var all, n := rows + [row], |rows|;
    assert all[..n] == rows;
    assert forall i :: RowOf(all, i, id) <==> RowOf(rows, i, id);
    assert forall i :: RowOf(rows, i, id) ==> all[i] == rows[i];
  }

  lemma ReadPush(rows: seq<Row>, row: Row, id: Id)
    ensures Read(rows + [row], id) ==
      match Read(rows, id)
      case Err(e) => Err(e)
      case Ok(m) =>
        if row.message != id then Ok(m)
        else match Apply(m, row) case Err(e) => Err(e) case Ok(next) => Ok(Some(next))
  {
    assert (rows + [row])[..|rows|] == rows;
  }

  // ---------------------------------------------------------------- the store behind the rows

  /** The rows stand for these messages, in order of arrival, and every one reads back. */
  ghost predicate Stands(rows: seq<Row>, ms: seq<Message>) {
    && |Ids(rows)| == |ms|
    && (forall k :: 0 <= k < |ms| ==> Ids(rows)[k] == ms[k].request.message)
    && (forall k :: 0 <= k < |ms| ==> Read(rows, ms[k].request.message) == Ok(Some(ms[k])))
    && (forall id :: id !in Ids(rows) ==> Read(rows, id) == Ok(None))
  }

  ghost predicate KeysDiffer(ms: seq<Message>) {
    && (forall i, j :: 0 <= i < j < |ms| ==> ms[i].request.message != ms[j].request.message)
    && (forall i, j :: 0 <= i < j < |ms| ==> ms[i].request.sender != ms[j].request.sender || ms[i].request.key != ms[j].request.key)
  }

  /** Every message has had its inbound decision. */
  ghost predicate Decided(ms: seq<Message>) {
    forall k :: 0 <= k < |ms| ==> ms[k].status != Enqueued
  }

  ghost predicate StoreOk(rows: seq<Row>, ms: seq<Message>) {
    StoreBase(rows, ms) && Decided(ms)
  }

  ghost predicate StoreBase(rows: seq<Row>, ms: seq<Message>) {
    && Stands(rows, ms) && KeysDiffer(ms) && |ms| <= MAX_MESSAGES
    && (forall k :: 0 <= k < |ms| ==> MessageOk(ms[k]))
    && (forall k :: 0 <= k < |ms| ==> rows != [] && ms[k].last <= rows[|rows| - 1].at)
  }

  lemma IdsPush(rows: seq<Row>, row: Row)
    ensures Ids(rows + [row]) == if row.message in Ids(rows) then Ids(rows) else Ids(rows) + [row.message]
  {
    assert (rows + [row])[..|rows|] == rows;
  }

  lemma {:induction false} ReadEachStands(rows: seq<Row>, ids: seq<Id>, ms: seq<Message>)
    requires |ids| == |ms|
    requires forall k :: 0 <= k < |ms| ==> Read(rows, ids[k]) == Ok(Some(ms[k]))
    ensures ReadEach(rows, ids) == Ok(ms)
    decreases |ids|
  {
    if ids != [] {
      ReadEachStands(rows, ids[1..], ms[1..]);
      assert ms == [ms[0]] + ms[1..];
    }
  }

  lemma StatesStand(rows: seq<Row>, ms: seq<Message>)
    requires Stands(rows, ms) && |ms| <= MAX_MESSAGES
    ensures States(rows) == Ok(ms)
  {
    ReadEachStands(rows, Ids(rows), ms);
  }

  /** A legal move of one message is taken, and moves that message only. */
  lemma TransitOk(rows: seq<Row>, ms: seq<Message>, k: nat, move: Move, at: Time)
    requires StoreOk(rows, ms) && k < |ms| && CanMove(ms[k], move, at) && InTime(rows, at)
    ensures var next := rows + [MoveRow(ms[k], move, at)];
      Transit(rows, ms[k], move, at) == Ok(next) && StoreOk(next, ms[k := Moved(ms[k], move, at)])
  {
    TransitBase(rows, ms, k, move, at);
  }

  /** The row of a legal move clashes with none, and moves the message. */
  lemma MoveApplies(rows: seq<Row>, m: Message, move: Move, at: Time)
    requires Read(rows, m.request.message) == Ok(Some(m)) && CanMove(m, move, at) && MessageOk(m)
    ensures !Clashes(rows, MoveRow(m, move, at))
    ensures Apply(Some(m), MoveRow(m, move, at)) == Ok(Moved(m, move, at)) && MessageOk(Moved(m, move, at))
  {
    ReadTells(rows, m.request.message);
    assert forall i :: 0 <= i < |rows| && rows[i].message == m.request.message ==> RowOf(rows, i, m.request.message);
    ApplyKeepsOk(Some(m), MoveRow(m, move, at));
  }

  lemma TransitBase(rows: seq<Row>, ms: seq<Message>, k: nat, move: Move, at: Time)
    requires StoreBase(rows, ms) && k < |ms| && CanMove(ms[k], move, at) && InTime(rows, at)
    ensures var next := rows + [MoveRow(ms[k], move, at)];
      Transit(rows, ms[k], move, at) == Ok(next) && StoreBase(next, ms[k := Moved(ms[k], move, at)])
  {
    var m, row := ms[k], MoveRow(ms[k], move, at);
    var id, next, after := m.request.message, rows + [row], ms[k := Moved(ms[k], move, at)];
    assert Ids(rows)[k] == id;
    MoveApplies(rows, m, move, at);
    IdsPush(rows, row);
    ReadPush(rows, row, id);
    forall i | 0 <= i < |after| ensures Read(next, after[i].request.message) == Ok(Some(after[i])) {
      ReadPush(rows, row, after[i].request.message);
    }
    forall other | other !in Ids(next) ensures Read(next, other) == Ok(None) {
      ReadPush(rows, row, other);
    }
  }

  function Chosen(m: Message, at: Time, choose: Message -> Choice): Message {
    match choose(m) case Go(move) => Moved(m, move, at) case _ => m
  }

  /** The messages from `j` on, each moved as chosen. */
  function MapFrom(ms: seq<Message>, j: nat, at: Time, choose: Message -> Choice): (r: seq<Message>)
    ensures |r| == |ms|
  {
    seq(|ms|, i requires 0 <= i < |ms| => if i < j then ms[i] else Chosen(ms[i], at, choose))
  }

  ghost predicate Sound(ms: seq<Message>, j: nat, at: Time, choose: Message -> Choice) {
    forall i :: j <= i < |ms| ==> choose(ms[i]) != Invalid && (choose(ms[i]).Go? ==> CanMove(ms[i], choose(ms[i]).move, at))
  }

  /** One message of a pass. */
  lemma MoveEachStep(rows: seq<Row>, ms: seq<Message>, j: nat, at: Time, choose: Message -> Choice) returns (next: seq<Row>, after: seq<Message>)
    requires StoreOk(rows, ms) && j < |ms| && InTime(rows, at) && Sound(ms, j, at, choose)
    ensures StoreOk(next, after) && InTime(next, at) && after == ms[j := Chosen(ms[j], at, choose)]
    ensures MoveEach(rows, ms[j..], at, choose) == MoveEach(next, after[j + 1..], at, choose)
  {
    var m := ms[j];
    after := ms[j := Chosen(m, at, choose)];
    assert ms[j..][0] == m && ms[j..][1..] == ms[j + 1..] == after[j + 1..];
    if choose(m).Go? {
      TransitOk(rows, ms, j, choose(m).move, at);
      next := rows + [MoveRow(m, choose(m).move, at)];
    } else {
      assert after == ms;
      next := rows;
    }
  }

  /** One pass in which every chosen move is legal takes them all. */
  lemma {:induction false} MoveEachOk(rows: seq<Row>, ms: seq<Message>, j: nat, at: Time, choose: Message -> Choice)
    requires StoreOk(rows, ms) && j <= |ms| && InTime(rows, at) && Sound(ms, j, at, choose)
    ensures var r := MoveEach(rows, ms[j..], at, choose);
      r.Ok? && StoreOk(r.value, MapFrom(ms, j, at, choose)) && InTime(r.value, at)
    decreases |ms| - j
  {
    if j == |ms| {
      assert MapFrom(ms, j, at, choose) == ms;
    } else {
      var next, after := MoveEachStep(rows, ms, j, at, choose);
      MapFromStep(ms, j, at, choose);
      MoveEachOk(next, after, j + 1, at, choose);
    }
  }

  lemma MapFromStep(ms: seq<Message>, j: nat, at: Time, choose: Message -> Choice)
    requires j < |ms| && Sound(ms, j, at, choose)
    ensures var after := ms[j := Chosen(ms[j], at, choose)];
      Sound(after, j + 1, at, choose) && MapFrom(after, j + 1, at, choose) == MapFrom(ms, j, at, choose)
  {
  }

  function ExpiredAll(ms: seq<Message>, now: Time): (r: seq<Message>)
    ensures |r| == |ms|
  {
    MapFrom(ms, 0, now, Due(now))
  }

  /** Nothing live is due any more, and nothing else has changed. */
  lemma ExpiredWhat(ms: seq<Message>, now: Time)
    ensures forall k :: 0 <= k < |ms| ==> var m := ExpiredAll(ms, now)[k];
      && m == (if Live(ms[k]) && ms[k].expires <= now then Moved(ms[k], ToExpired, now) else ms[k])
      && m.request == ms[k].request && m.created == ms[k].created && (Live(m) ==> Live(ms[k]) && now < m.expires)
  {
  }

  /** Expiry never fails on a store the program built, and leaves nothing live that is due. */
  lemma ExpireOk(rows: seq<Row>, ms: seq<Message>, now: Time)
    requires StoreOk(rows, ms) && InTime(rows, now)
    ensures var r := ExpireUnsafe(rows, now);
      r.Ok? && StoreOk(r.value, ExpiredAll(ms, now)) && InTime(r.value, now)
  {
    StatesStand(rows, ms);
    assert ms[0..] == ms;
    MoveEachOk(rows, ms, 0, now, Due(now));
  }

  // ---------------------------------------------------------------- each operation, exactly

  predicate Keyed(m: Message, sender: Id, key: Id) { m.request.sender == sender && m.request.key == key }

  predicate EnqueueAt(rows: seq<Row>, i: int, sender: Id, key: Id) {
    0 <= i < |rows| && rows[i].payload.Enqueue? && rows[i].sender == sender && rows[i].key == key
  }

  lemma {:induction false} FindFirst(rows: seq<Row>, sender: Id, key: Id)
    ensures var f := FindByKey(rows, sender, key);
      if f.Some? then exists i :: EnqueueAt(rows, i, sender, key) && rows[i].message == f.value
      else forall i :: !EnqueueAt(rows, i, sender, key)
    decreases |rows|
  {
    if rows != [] {
      var n := |rows| - 1;
      FindFirst(rows[..n], sender, key);
      var f := FindByKey(rows[..n], sender, key);
      if f.Some? {
        var i :| EnqueueAt(rows[..n], i, sender, key) && rows[..n][i].message == f.value;
        assert EnqueueAt(rows, i, sender, key);
      } else {
        assert forall i :: i != n && EnqueueAt(rows, i, sender, key) ==> EnqueueAt(rows[..n], i, sender, key);
        assert EnqueueAt(rows, n, sender, key) <==> rows[n].payload.Enqueue? && rows[n].sender == sender && rows[n].key == key;
      }
    }
  }

  /** An enqueue row belongs to the message that has its sender and key. */
  lemma EnqueueOf(rows: seq<Row>, ms: seq<Message>, i: int, sender: Id, key: Id) returns (k: nat)
    requires StoreOk(rows, ms) && EnqueueAt(rows, i, sender, key)
    ensures k < |ms| && Keyed(ms[k], sender, key) && ms[k].request.message == rows[i].message
  {
    var id := rows[i].message;
    assert RowOf(rows, i, id);
    ReadTells(rows, id);
    assert id in Ids(rows);
    k :| 0 <= k < |ms| && Ids(rows)[k] == id;
  }

  lemma HasEnqueue(rows: seq<Row>, ms: seq<Message>, k: nat) returns (i: int)
    requires StoreOk(rows, ms) && k < |ms|
    ensures EnqueueAt(rows, i, ms[k].request.sender, ms[k].request.key) && rows[i].message == ms[k].request.message && rows[i].sequence == 1
  {
    var id := ms[k].request.message;
    ReadTells(rows, id);
    i :| RowOf(rows, i, id) && rows[i].payload.Enqueue?;
  }

  /** A sender's key names one message, or none. */
  lemma FindExactly(rows: seq<Row>, ms: seq<Message>, sender: Id, key: Id)
    requires StoreOk(rows, ms)
    ensures forall k :: 0 <= k < |ms| && Keyed(ms[k], sender, key) ==> FindByKey(rows, sender, key) == Some(ms[k].request.message)
    ensures (forall k :: 0 <= k < |ms| ==> !Keyed(ms[k], sender, key)) ==> FindByKey(rows, sender, key).None?
  {
    FindFirst(rows, sender, key);
    var f := FindByKey(rows, sender, key);
    if f.Some? {
      var i :| EnqueueAt(rows, i, sender, key) && rows[i].message == f.value;
      var j := EnqueueOf(rows, ms, i, sender, key);
      assert Keyed(ms[j], sender, key);
    } else {
      forall k | 0 <= k < |ms| ensures !Keyed(ms[k], sender, key) {
        var i := HasEnqueue(rows, ms, k);
      }
    }
  }

  function Entered(r: Request, now: Time, d: Decision): Message {
    Moved(Fresh(r, now), Inbound(d), now)
  }

  predicate NewId(ms: seq<Message>, id: Id) {
    forall k :: 0 <= k < |ms| ==> ms[k].request.message != id
  }

  predicate NewKey(ms: seq<Message>, sender: Id, key: Id) {
    forall k :: 0 <= k < |ms| ==> !Keyed(ms[k], sender, key)
  }

  lemma NoClash(rows: seq<Row>, ms: seq<Message>, r: Request, now: Time)
    requires StoreOk(rows, ms) && NewKey(ms, r.sender, r.key)
    ensures Clashes(rows, EnqueueRow(r, now)) <==> !NewId(ms, r.message)
  {
    var row := EnqueueRow(r, now);
    if !NewId(ms, r.message) {
      var k :| 0 <= k < |ms| && ms[k].request.message == r.message;
      var i := HasEnqueue(rows, ms, k);
    } else {
      NoRows(rows, ms, r.message);
      forall i | 0 <= i < |rows|
        ensures rows[i].message != r.message && !(rows[i].payload.Enqueue? && rows[i].sender == r.sender && rows[i].key == r.key)
      {
        assert !RowOf(rows, i, r.message);
        if EnqueueAt(rows, i, r.sender, r.key) { var k := EnqueueOf(rows, ms, i, r.sender, r.key); }
      }
    }
  }

  lemma NoRows(rows: seq<Row>, ms: seq<Message>, id: Id)
    requires StoreOk(rows, ms) && NewId(ms, id)
    ensures id !in Ids(rows) && Read(rows, id) == Ok(None) && forall i :: !RowOf(rows, i, id)
  {
    assert id !in Ids(rows);
    ReadTells(rows, id);
  }

  function Fresh(r: Request, now: Time): Message {
    Message(r, now, now + r.ttl, Enqueued, false, None, 1, now)
  }

  /** The enqueue row alone: one more message, not decided yet. */
  lemma EnqueueStands(rows: seq<Row>, ms: seq<Message>, r: Request, now: Time)
    requires StoreOk(rows, ms) && NewId(ms, r.message) && NewKey(ms, r.sender, r.key) && RequestOk(r) && |ms| < MAX_MESSAGES
    requires now + r.ttl <= MAX_TIME && InTime(rows, now)
    ensures StoreBase(rows + [EnqueueRow(r, now)], ms + [Fresh(r, now)])
  {
    var row, after := EnqueueRow(r, now), ms + [Fresh(r, now)];
    NoRows(rows, ms, r.message);
    IdsPush(rows, row);
    assert OnClock(now) && OnClock(now + r.ttl);
    assert Apply(None, row) == Ok(Fresh(r, now));
    forall k | 0 <= k < |after| ensures Read(rows + [row], after[k].request.message) == Ok(Some(after[k])) {
      ReadPush(rows, row, after[k].request.message);
    }
    forall other | other !in Ids(rows + [row]) ensures Read(rows + [row], other) == Ok(None) {
      ReadPush(rows, row, other);
    }
  }

  /** Enqueue and decision together. */
  lemma EnterStands(rows: seq<Row>, ms: seq<Message>, r: Request, now: Time, d: Decision)
    requires StoreOk(rows, ms) && NewId(ms, r.message) && NewKey(ms, r.sender, r.key) && RequestOk(r) && |ms| < MAX_MESSAGES
    requires now + r.ttl <= MAX_TIME && InTime(rows, now)
    ensures var some := rows + [EnqueueRow(r, now)]; var all := some + [InboundRow(r, now, d)];
      && Insert(some, InboundRow(r, now, d)) == Ok(all) && Read(all, r.message) == Ok(Some(Entered(r, now, d)))
      && StoreOk(all, ms + [Entered(r, now, d)])
  {
    EnqueueStands(rows, ms, r, now);
    var some, more := rows + [EnqueueRow(r, now)], ms + [Fresh(r, now)];
    TransitBase(some, more, |ms|, Inbound(d), now);
    assert MoveRow(more[|ms|], Inbound(d), now) == InboundRow(r, now, d);
    assert more[|ms| := Entered(r, now, d)] == ms + [Entered(r, now, d)];
  }

  lemma BadRequestUnread(rows: seq<Row>, r: Request, now: Time, second: Row)
    requires Read(rows, r.message) == Ok(None) && !RequestOk(r)
    ensures Read(rows + [EnqueueRow(r, now)] + [second], r.message).Err?
  {
    ReadPush(rows, EnqueueRow(r, now), r.message);
    ReadPush(rows + [EnqueueRow(r, now)], second, r.message);
  }

  /** A message is taken exactly within its bounds, when it is well formed, its id is new and the
      policy decides; then it stands behind all others. */
  lemma EnterExactly(rows: seq<Row>, ms: seq<Message>, r: Request, now: Time, l: Limits, d: Decision)
    requires StoreOk(rows, ms) && InTime(rows, now) && NewKey(ms, r.sender, r.key)
    ensures var e := Enter(rows, ms, r, now, l, d);
      && (e.Ok? <==>
            Bounds(ms, r, now, l).Ok? && d != Nonsense && now + r.ttl <= MAX_TIME && RequestOk(r) && NewId(ms, r.message))
      && (e.Ok? ==>
            && e.value.message == Entered(r, now, d) && !e.value.replayed
            && StoreOk(e.value.rows, ms + [Entered(r, now, d)]))
  {
    if Bounds(ms, r, now, l).Ok? && d != Nonsense && now + r.ttl <= MAX_TIME {
      NoClash(rows, ms, r, now);
      if NewId(ms, r.message) {
        if RequestOk(r) {
          EnterStands(rows, ms, r, now, d);
        } else {
          NoRows(rows, ms, r.message);
          BadRequestUnread(rows, r, now, InboundRow(r, now, d));
        }
      }
    }
  }

  lemma SendAgedExactly(rows: seq<Row>, ms: seq<Message>, r: Request, now: Time, l: Limits, d: Decision)
    requires StoreOk(rows, ms) && InTime(rows, now)
    ensures var sent := SendAged(rows, r, now, l, d);
      && (forall k :: 0 <= k < |ms| && Keyed(ms[k], r.sender, r.key) ==>
            sent == if ms[k].request == r then Ok(Answer(rows, ms[k], true)) else Err(DedupConflict))
      && (NewKey(ms, r.sender, r.key) ==> sent == Enter(rows, ms, r, now, l, d))
  {
    FindExactly(rows, ms, r.sender, r.key);
    StatesStand(rows, ms);
  }

  /** A sender's key is used once: the same request again returns the message it made, any other
      request under the key is refused. */
  lemma ResendExactly(rows: seq<Row>, ms: seq<Message>, k: nat, r: Request, now: Time, l: Limits, d: Decision)
    requires StoreOk(rows, ms) && InTime(rows, now) && k < |ms| && Keyed(ms[k], r.sender, r.key)
    ensures var aged, sent := ExpiredAll(ms, now), Send(rows, r, now, l, d);
      if ms[k].request == r
      then sent.Ok? && sent.value.replayed && sent.value.message == aged[k] && aged[k].request == r && StoreOk(sent.value.rows, aged)
      else sent == Err(DedupConflict)
  {
    ExpireOk(rows, ms, now);
    ExpiredWhat(ms, now);
    SendAgedExactly(ExpireUnsafe(rows, now).value, ExpiredAll(ms, now), r, now, l, d);
  }

  /** A new key enters a message exactly within the bounds, for a well-formed request with a new id
      that the policy decides on. */
  lemma SendExactly(rows: seq<Row>, ms: seq<Message>, r: Request, now: Time, l: Limits, d: Decision)
    requires StoreOk(rows, ms) && InTime(rows, now) && NewKey(ms, r.sender, r.key)
    ensures var aged, sent := ExpiredAll(ms, now), Send(rows, r, now, l, d);
      && (sent.Ok? <==>
            Bounds(aged, r, now, l).Ok? && d != Nonsense && now + r.ttl <= MAX_TIME && RequestOk(r) && NewId(ms, r.message))
      && (sent.Ok? ==>
            && sent.value.message == Entered(r, now, d) && !sent.value.replayed
            && StoreOk(sent.value.rows, aged + [Entered(r, now, d)]))
  {
    ExpireOk(rows, ms, now);
    ExpiredWhat(ms, now);
    var aged, next := ExpiredAll(ms, now), ExpireUnsafe(rows, now).value;
    assert NewKey(aged, r.sender, r.key) && (NewId(aged, r.message) <==> NewId(ms, r.message)) by {
      assert forall k :: 0 <= k < |ms| ==> aged[k].request == ms[k].request;
    }
    SendAgedExactly(next, aged, r, now, l, d);
    EnterExactly(next, aged, r, now, l, d);
  }

  /** What an acknowledgement leaves behind. */
  function AckedAll(ms: seq<Message>, id: Id, recipient: Id, now: Time): (r: seq<Message>)
    ensures |r| == |ms|
  {
    seq(|ms|, i requires 0 <= i < |ms| => if CanAck(ms[i], id, recipient, now) then Moved(ms[i], ToAcknowledged, now) else ms[i])
  }

  lemma AcknowledgeAgedExactly(rows: seq<Row>, ms: seq<Message>, id: Id, recipient: Id, now: Time)
    requires StoreOk(rows, ms) && InTime(rows, now)
    ensures var a := AcknowledgeAged(rows, id, recipient, now);
      && (a.1.Ok? <==> exists k :: 0 <= k < |ms| && CanAck(ms[k], id, recipient, now))
      && (a.1.Err? ==> a.1 == Err(NotAcknowledgeable))
      && a.0.Some? && StoreOk(a.0.value, AckedAll(ms, id, recipient, now))
  {
    if k :| 0 <= k < |ms| && ms[k].request.message == id {
      assert Read(rows, id) == Ok(Some(ms[k]));
      assert forall j :: 0 <= j < |ms| && ms[j].request.message == id ==> j == k;
      if CanAck(ms[k], id, recipient, now) {
        TransitOk(rows, ms, k, ToAcknowledged, now);
        assert AckedAll(ms, id, recipient, now) == ms[k := Moved(ms[k], ToAcknowledged, now)];
      } else {
        assert AckedAll(ms, id, recipient, now) == ms;
      }
    } else {
      NoRows(rows, ms, id);
      assert AckedAll(ms, id, recipient, now) == ms;
    }
  }

  /** An acknowledgement is taken exactly from the recipient of a delivered, live message; refused or
      not, what was due has expired. */
  lemma AcknowledgeExactly(rows: seq<Row>, ms: seq<Message>, id: Id, recipient: Id, now: Time)
    requires StoreOk(rows, ms) && InTime(rows, now)
    ensures var aged, a := ExpiredAll(ms, now), Acknowledge(rows, id, recipient, now);
      && (a.1.Ok? <==> exists k :: 0 <= k < |ms| && CanAck(aged[k], id, recipient, now))
      && (a.1.Err? ==> a.1 == Err(NotAcknowledgeable))
      && StoreOk(a.0, AckedAll(aged, id, recipient, now))
  {
    ExpireOk(rows, ms, now);
    AcknowledgeAgedExactly(ExpireUnsafe(rows, now).value, ExpiredAll(ms, now), id, recipient, now);
  }

  /** An invalid decision stops the pass. */
  lemma {:induction false} MoveEachInvalid(rows: seq<Row>, ms: seq<Message>, j: nat, at: Time, choose: Message -> Choice)
    requires StoreOk(rows, ms) && j <= |ms| && InTime(rows, at)
    requires forall i :: j <= i < |ms| && choose(ms[i]).Go? ==> CanMove(ms[i], choose(ms[i]).move, at)
    requires exists i :: j <= i < |ms| && choose(ms[i]) == Invalid
    ensures MoveEach(rows, ms[j..], at, choose) == Err(BadDecision)
    decreases |ms| - j
  {
    assert ms[j..][0] == ms[j] && ms[j..][1..] == ms[j + 1..];
    match choose(ms[j])
    case Invalid =>
    case Keep => MoveEachInvalid(rows, ms, j + 1, at, choose);
    case Go(move) =>
      TransitOk(rows, ms, j, move, at);
      var after := ms[j := Moved(ms[j], move, at)];
      assert after[j + 1..] == ms[j + 1..];
      var i :| j <= i < |ms| && choose(ms[i]) == Invalid;
      assert choose(after[i]) == Invalid;
      MoveEachInvalid(rows + [MoveRow(ms[j], move, at)], after, j + 1, at, choose);
  }

  /** The policy decides on every held message of the recipient. */
  predicate Decides(ms: seq<Message>, recipient: Id, decide: Message -> Decision) {
    forall k :: 0 <= k < |ms| && ms[k].request.recipient == recipient && ms[k].status == Held ==> decide(ms[k]) != Nonsense
  }

  lemma FlushAgedExactly(rows: seq<Row>, ms: seq<Message>, recipient: Id, now: Time, decide: Message -> Decision)
    requires StoreOk(rows, ms) && InTime(rows, now) && forall k :: 0 <= k < |ms| && Live(ms[k]) ==> now < ms[k].expires
    ensures var f := FlushAged(rows, recipient, now, decide);
      && (f.Ok? <==> Decides(ms, recipient, decide))
      && (f.Ok? ==> StoreOk(f.value, MapFrom(ms, 0, now, Flushing(recipient, decide))))
  {
    var choose := Flushing(recipient, decide);
    StatesStand(rows, ms);
    assert ms[0..] == ms;
    forall i | 0 <= i < |ms| && choose(ms[i]).Go? ensures CanMove(ms[i], choose(ms[i]).move, now) {
      assert Live(ms[i]);
    }
    if k :| 0 <= k < |ms| && choose(ms[k]) == Invalid {
      MoveEachInvalid(rows, ms, 0, now, choose);
    } else {
      MoveEachOk(rows, ms, 0, now, choose);
    }
  }

  /** A flush succeeds exactly when the policy decides on every held message of the recipient that
      is still live. */
  lemma FlushExactly(rows: seq<Row>, ms: seq<Message>, recipient: Id, now: Time, decide: Message -> Decision)
    requires StoreOk(rows, ms) && InTime(rows, now)
    ensures var aged, f := ExpiredAll(ms, now), Flush(rows, recipient, now, decide);
      && (f.Ok? <==> Decides(aged, recipient, decide))
      && (f.Ok? ==> StoreOk(f.value, MapFrom(aged, 0, now, Flushing(recipient, decide))))
  {
    ExpireOk(rows, ms, now);
    ExpiredWhat(ms, now);
    FlushAgedExactly(ExpireUnsafe(rows, now).value, ExpiredAll(ms, now), recipient, now, decide);
  }
}
