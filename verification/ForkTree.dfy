/** Session logs on one ledger: default-causation appends, and forks that attach a child to its
    parent and start its log in one batch. */
module ForkTree {
  import opened Outcomes

  type Id = string

  datatype Limits = Limits(turns: int, tokens: int, duration: int, toolCalls: int, children: int, workflowSteps: int)

  datatype Spec = Spec(session: Id, parent: Option<Id>, authority: Id, policy: Id, limits: Limits)

  datatype Event =
    | Created(spec: Spec)
    | Forked(parent: Id, sequence: int)
    | Attached(child: Id, ceiling: Id)
    | Requested
    | Ended
    | Other(kind: Id)

  /** What an event is caused by: the root anchor of its session, or an event. */
  datatype Cause = Root(session: Id) | By(event: Id)

  datatype Row = Row(id: Id, position: nat, trace: Id, cause: Cause, event: Event)

  datatype Ledger = Ledger(streams: map<Id, seq<Row>>, next: nat)

  datatype Error = Invalid | Trace | Causation | Replay | Version | NotFound | ParentMismatch | AuthorityWidening | LimitWidening
    | ChildConflict | ChildLimit | DuplicateId

  function Stream(l: Ledger, s: Id): seq<Row> { if s in l.streams then l.streams[s] else [] }

  // ---------------------------------------------------------------- the part of the session fold that forks use

  datatype Summary = Summary(spec: Spec, children: seq<Id>, requested: bool, ended: bool)

  function Step(s: Summary, session: Id, n: nat, e: Event): Option<Summary> {
    if s.ended then None
    else match e
    case Created(_) => None
    case Ended => Some(s.(ended := true))
    case Requested => if s.requested then None else Some(s.(requested := true))
    case Forked(parent, _) => if n != 1 || s.spec.parent != Some(parent) then None else Some(s)
    case Attached(child, _) =>
      if child == session || child in s.children || |s.children| >= s.spec.limits.children then None
      else Some(s.(children := s.children + [child]))
    case _ => Some(s)
  }

  function Fold(session: Id, rows: seq<Row>): Option<Summary>
    decreases |rows|
  {
    if rows == [] then None
    else if |rows| == 1 then
      if rows[0].event.Created? && rows[0].event.spec.session == session && rows[0].event.spec.parent != Some(session)
      then Some(Summary(rows[0].event.spec, [], false, false)) else None
    else
      var n := |rows| - 1;
      var s := Fold(session, rows[..n]);
      if s.None? then None else Step(s.value, session, n, rows[n].event)
  }

  // ---------------------------------------------------------------- what a reader checks

  predicate UniformTrace(rows: seq<Row>) {
    forall i :: 0 <= i < |rows| ==> rows[i].trace == rows[0].trace
  }

  predicate AttachesAt(rows: seq<Row>, i: int, id: Id, child: Id) {
    0 <= i < |rows| && rows[i].event.Attached? && rows[i].id == id && rows[i].event.child == child
  }

  /** `findIndex` of the attachment; -1 if there is none. */
  function FindAttachment(rows: seq<Row>, id: Id, child: Id, from: nat): (i: int)
    requires from <= |rows|
    ensures i == -1 || (from <= i && AttachesAt(rows, i, id, child))
    ensures i == -1 ==> forall k :: from <= k ==> !AttachesAt(rows, k, id, child)
    ensures i >= 0 ==> forall k :: from <= k < i ==> !AttachesAt(rows, k, id, child)
    decreases |rows| - from
  {
    if from == |rows| then -1
    else if AttachesAt(rows, from, id, child) then from
    else FindAttachment(rows, id, child, from + 1)
  }

  /** The first row of a child is caused by its attachment, and that by the event it forked from. */
  predicate AnchorOk(l: Ledger, session: Id, rows: seq<Row>)
    requires rows != []
  {
    rows[0].event.Created?
    && var spec := rows[0].event.spec;
    if spec.parent.None? then rows[0].cause == Root(session)
    else
      var parent := Stream(l, spec.parent.value);
      && rows[0].cause.By?
      && var a := FindAttachment(parent, rows[0].cause.event, session, 0);
      && a >= 0 && parent[a].trace == rows[0].trace && parent[a].position < rows[0].position
      && |rows| > 1 && rows[1].event.Forked? && Some(rows[1].event.parent) == spec.parent
      && 1 <= rows[1].event.sequence <= |parent|
      && parent[a].cause == By(parent[rows[1].event.sequence - 1].id)
  }

  predicate Links(rows: seq<Row>, k: nat)
    requires 0 < k < |rows|
  {
    || rows[k].cause == By(rows[k - 1].id)
    || (rows[k].event.Attached? && rows[k].cause.By? && exists i :: 0 <= i < k && rows[i].id == rows[k].cause.event)
  }

  /** `assertSessionCausation` */
  predicate CausationOk(l: Ledger, session: Id, rows: seq<Row>) {
    rows == [] || (AnchorOk(l, session, rows) && forall k :: 0 < k < |rows| ==> Links(rows, k))
  }

  /** A read of a session's first rows. */
  function ReadPrefix(l: Ledger, session: Id, rows: seq<Row>): Result<(), Error> {
    if !UniformTrace(rows) then Err(Trace) else if !CausationOk(l, session, rows) then Err(Causation) else Ok(())
  }

  // ---------------------------------------------------------------- writing

  /** The rows of new events: each caused by the one before it, the first by `cause`. */
  function RowsOf(events: seq<(Id, Event)>, cause: Cause, trace: Id, position: nat): (rows: seq<Row>)
    ensures |rows| == |events|
  {
    seq(|events|, k requires 0 <= k < |events| =>
      Row(events[k].0, position + k, trace, if k == 0 then cause else By(events[k - 1].0), events[k].1))
  }

  predicate NewIds(rows: seq<Row>) {
    forall i, j :: 0 <= i < j < |rows| ==> rows[i].id != rows[j].id
  }

  function TraceFor(l: Ledger, session: Id, trace: Option<Id>): Id {
    var rows := Stream(l, session);
    if rows != [] then rows[0].trace else if trace.Some? then trace.value else session
  }

  /** The cause of an event behind the first `n` rows of a session, if the caller names none. */
  function CauseAt(l: Ledger, session: Id, n: nat): Cause
    requires n <= |Stream(l, session)|
  {
    if n == 0 then Root(session) else By(Stream(l, session)[n - 1].id)
  }

  function DefaultCause(l: Ledger, session: Id): Cause {
    CauseAt(l, session, |Stream(l, session)|)
  }

  /** The rows from `from` on begin with these events. */
  predicate SameEvents(rows: seq<Row>, from: nat, added: seq<Row>) {
    from + |added| <= |rows|
    && forall k :: 0 <= k < |added| ==> rows[from + k].id == added[k].id && rows[from + k].event == added[k].event
  }

  /** Events stored with these causes and traces. */
  predicate SameRows(rows: seq<Row>, from: nat, added: seq<Row>) {
    from + |added| <= |rows|
    && forall k :: 0 <= k < |added| ==> added[k].(position := rows[from + k].position) == rows[from + k]
  }

  /** The stream with the new events behind it. */
  function Extended(l: Ledger, session: Id, events: seq<(Id, Event)>, trace: Option<Id>): (rows: seq<Row>)
    ensures |rows| == |Stream(l, session)| + |events|
  {
    Stream(l, session) + RowsOf(events, DefaultCause(l, session), TraceFor(l, session, trace), l.next)
  }

  predicate RootFirst(events: seq<(Id, Event)>)
    requires events != []
  {
    events[0].1.Created? && events[0].1.spec.parent.None?
  }

  /** An append with the cause it defaults to: behind the stream, or once more as it is stored. */
  function Append(l: Ledger, session: Id, expected: nat, events: seq<(Id, Event)>, trace: Option<Id>): Result<Ledger, Error> {
    var rows := Stream(l, session);
    var t := TraceFor(l, session, trace);
    if events == [] || !NewIds(RowsOf(events, Root(session), t, 0)) then Err(Invalid)
    else
      var _ :- ReadPrefix(l, session, rows);
      if trace.Some? && trace.value != t then Err(Trace)
      else if |rows| == expected then
        var all := Extended(l, session, events, trace);
        if Fold(session, all).None? then Err(Replay)
        else if expected == 0 && !RootFirst(events) then Err(Causation)
        else if !NewIds(all) then Err(DuplicateId)
        else Ok(Ledger(l.streams[session := all], l.next + |events|))
      else if expected < |rows| && SameEvents(rows, expected, RowsOf(events, Root(session), t, 0)) then
        if expected == 0 && !RootFirst(events) then Err(Causation)
        else if !SameRows(rows, expected, RowsOf(events, CauseAt(l, session, expected), t, 0)) then Err(DuplicateId)
        else Ok(l)
      else Err(Version)
  }

  predicate Within(a: Limits, b: Limits) {
    a.turns <= b.turns && a.tokens <= b.tokens && a.duration <= b.duration && a.toolCalls <= b.toolCalls
    && a.children <= b.children && a.workflowSteps <= b.workflowSteps
  }

  datatype ForkInput = ForkInput(parent: Id, sequence: int, spec: Spec, request: bool, attached: Id, created: Id, forked: Id, requested: Id, trace: Option<Id>)

  function ChildEvents(i: ForkInput): (events: seq<(Id, Event)>)
    ensures |events| >= 2
  {
    [(i.created, Created(i.spec)), (i.forked, Forked(i.parent, i.sequence))] + (if i.request then [(i.requested, Requested)] else [])
  }

  function Attachment(l: Ledger, i: ForkInput): Row
    requires 1 <= i.sequence <= |Stream(l, i.parent)|
  {
    var rows := Stream(l, i.parent);
    Row(i.attached, l.next, rows[0].trace, By(rows[i.sequence - 1].id), Attached(i.spec.session, i.spec.authority))
  }

  /** The parent's stream with the attachment behind it. */
  function Attach(l: Ledger, i: ForkInput): seq<Row>
    requires 1 <= i.sequence <= |Stream(l, i.parent)|
  {
    Stream(l, i.parent) + [Attachment(l, i)]
  }

  /** Where the child was attached already; -1 if it was not. */
  function AttachedAt(rows: seq<Row>, child: Id): (a: int)
    ensures -1 <= a < |rows|
    ensures a >= 0 ==> rows[a].event.Attached? && rows[a].event.child == child
    ensures a == -1 ==> forall k :: 0 <= k < |rows| ==> !(rows[k].event.Attached? && rows[k].event.child == child)
    decreases |rows|
  {
    if rows == [] then -1
    else
      var n := |rows| - 1;
      var a := AttachedAt(rows[..n], child);
      if a >= 0 then a else if rows[n].event.Attached? && rows[n].event.child == child then n else -1
  }

  /** The parent's stream once the child is attached: an attachment on record has to be this one. */
  function ParentRows(l: Ledger, i: ForkInput): Result<seq<Row>, Error>
    requires 1 <= i.sequence <= |Stream(l, i.parent)|
  {
    var rows := Stream(l, i.parent);
    var a := AttachedAt(rows, i.spec.session);
    if a < 0 then (if Fold(i.parent, Attach(l, i)).None? then Err(Replay) else Ok(Attach(l, i)))
    else if rows[a].event != Attached(i.spec.session, i.spec.authority) then Err(Version)
    else Ok(rows)
  }

  /** The first rows of a child whose parent's stream is then `parent`. */
  function ChildRows(l: Ledger, i: ForkInput, parent: seq<Row>): (rows: seq<Row>)
    requires 1 <= i.sequence <= |Stream(l, i.parent)|
    ensures |rows| >= 2
  {
    RowsOf(ChildEvents(i), By(i.attached), Stream(l, i.parent)[0].trace, l.next + if parent == Stream(l, i.parent) then 0 else 1)
  }

  /** What keeps the child's rows from being prepared. */
  function ChildProblem(l: Ledger, i: ForkInput, parent: seq<Row>): Option<Error>
    requires 1 <= i.sequence <= |Stream(l, i.parent)|
  {
    var rows, added := Stream(l, i.spec.session), ChildRows(l, i, parent);
    var read := ReadPrefix(l, i.spec.session, rows);
    var a := AttachedAt(parent, i.spec.session);
    if !NewIds(added) then Some(Invalid)
    else if read.Err? then Some(read.error)
    else if rows != [] && rows[0].trace != added[0].trace then Some(Trace)
    else if rows == [] && Fold(i.spec.session, added).None? then Some(Replay)
    else if rows != [] && !SameEvents(rows, 0, added) then Some(Version)
    else if a < 0 || parent[a].cause != By(Stream(l, i.parent)[i.sequence - 1].id) then Some(Causation)
    else None
  }

  /** Both streams, in one batch: what is stored already has to be stored as it is now. */
  function Commit(l: Ledger, i: ForkInput, parent: seq<Row>): Result<Ledger, Error>
    requires 1 <= i.sequence <= |Stream(l, i.parent)|
  {
    var rows, added := Stream(l, i.spec.session), ChildRows(l, i, parent);
    if !NewIds(parent) || (rows != [] && !SameRows(rows, 0, added)) then Err(DuplicateId)
    else
      var child := if rows == [] then added else rows;
      var attached := if parent == Stream(l, i.parent) then 0 else 1;
      Ok(Ledger(l.streams[i.parent := parent][i.spec.session := child], l.next + attached + if rows == [] then |added| else 0))
  }

  /** What keeps a session with this state and log from a fork. */
  function ForkProblem(i: ForkInput, parent: Summary, rows: seq<Row>): Option<Error>
    requires rows != []
  {
    var a := AttachedAt(rows, i.spec.session);
    if i.spec.parent != Some(i.parent) then Some(ParentMismatch)
    else if i.spec.authority != parent.spec.authority || i.spec.policy != parent.spec.policy then Some(AuthorityWidening)
    else if !Within(i.spec.limits, parent.spec.limits) then Some(LimitWidening)
    else if a >= 0 && rows[a].id != i.attached then Some(ChildConflict)
    else if a < 0 && |parent.children| >= parent.spec.limits.children then Some(ChildLimit)
    else if i.trace.Some? && i.trace.value != rows[0].trace then Some(Trace)
    else None
  }

  /** `forkSession` */
  function Fork(l: Ledger, i: ForkInput): Result<Ledger, Error> {
    var rows := Stream(l, i.parent);
    if !(1 <= i.sequence <= |rows|) then Err(NotFound)
    else
      var _ :- ReadPrefix(l, i.parent, rows[..i.sequence]);
      var _ :- ReadPrefix(l, i.parent, rows);
      var source, state := Fold(i.parent, rows[..i.sequence]), Fold(i.parent, rows);
      if source.None? || state.None? then Err(Replay)
      else
        var problem := ForkProblem(i, state.value, rows);
        if problem.Some? then Err(problem.value)
        else
          var parent :- ParentRows(l, i);
          var wrong := ChildProblem(l, i, parent);
          if wrong.Some? then Err(wrong.value) else Commit(l, i, parent)
  }

  datatype Op = DoAppend(session: Id, expected: nat, events: seq<(Id, Event)>, trace: Option<Id>) | DoFork(input: ForkInput)

  function Next(l: Ledger, op: Op): Ledger {
    var r := match op
      case DoAppend(s, n, events, trace) => Append(l, s, n, events, trace)
      case DoFork(i) => Fork(l, i);
    if r.Ok? then r.value else l
  }

  function Run(ops: seq<Op>): Ledger
    decreases |ops|
  {
    if ops == [] then Ledger(map[], 0) else Next(Run(ops[..|ops| - 1]), ops[|ops| - 1])
  }

  // ---------------------------------------------------------------- what every run keeps

  function ChildrenOf(rows: seq<Row>): seq<Id>
    decreases |rows|
  {
    if rows == [] then []
    else
      var n := |rows| - 1;
      ChildrenOf(rows[..n]) + (if rows[n].event.Attached? then [rows[n].event.child] else [])
  }

  lemma {:induction false} FoldTells(session: Id, rows: seq<Row>)
    requires Fold(session, rows).Some?
    ensures rows[0].event.Created? && Fold(session, rows).value.spec == rows[0].event.spec
    ensures Fold(session, rows).value.children == ChildrenOf(rows) && Fold(session, rows).value.ended == rows[|rows| - 1].event.Ended?
    ensures rows[0].event.spec.session == session && |ChildrenOf(rows)| <= (if ChildrenOf(rows) == [] then 0 else rows[0].event.spec.limits.children)
    ensures session !in ChildrenOf(rows)
    decreases |rows|
  {
    if |rows| > 1 {
      FoldTells(session, rows[..|rows| - 1]);
    } else {
      assert rows[..0] == [];
    }
  }

  lemma {:induction false} ChildrenAttached(rows: seq<Row>, child: Id)
    ensures child in ChildrenOf(rows) <==> exists k :: 0 <= k < |rows| && rows[k].event.Attached? && rows[k].event.child == child
    decreases |rows|
  {
    if rows != [] {
      var n := |rows| - 1;
      ChildrenAttached(rows[..n], child);
      if child in ChildrenOf(rows[..n]) {
        var k :| 0 <= k < n && rows[..n][k].event.Attached? && rows[..n][k].event.child == child;
        assert rows[k].event.Attached?;
      }
      assert forall k :: 0 <= k < n ==> rows[..n][k] == rows[k];
    }
  }

  lemma {:induction false} FindGrows(rows: seq<Row>, more: seq<Row>, id: Id, child: Id, from: nat)
    requires from <= |rows| && FindAttachment(rows, id, child, from) >= 0
    ensures FindAttachment(rows + more, id, child, from) == FindAttachment(rows, id, child, from)
    decreases |rows| - from
  {
    if !AttachesAt(rows, from, id, child) { FindGrows(rows, more, id, child, from + 1); }
  }

  /** What a child owes its parent. */
  ghost predicate Inherits(parent: Spec, child: Spec) {
    child.authority == parent.authority && child.policy == parent.policy && Within(child.limits, parent.limits)
  }

  /** A log of its own: it reads, folds, and its rows are in order on the ledger. */
  ghost predicate LogOk(l: Ledger, s: Id, rows: seq<Row>) {
    && UniformTrace(rows) && CausationOk(l, s, rows) && Fold(s, rows).Some? && NewIds(rows)
    && (forall k :: 0 <= k < |rows| ==> rows[k].position < l.next)
    && (forall j, k :: 0 <= j < k < |rows| ==> rows[j].position < rows[k].position)
  }

  /** The log of a session that was forked, next to its parent's. */
  ghost predicate FamilyOk(l: Ledger, s: Id, rows: seq<Row>)
    requires rows != [] && rows[0].event.Created?
  {
    var spec := rows[0].event.spec;
    spec.parent.Some? ==>
      var parent := Stream(l, spec.parent.value);
      && parent != [] && parent[0].event.Created? && Inherits(parent[0].event.spec, spec)
      && parent[0].trace == rows[0].trace && parent[0].position < rows[0].position && s in ChildrenOf(parent)
  }

  /** A session whose log names `s` as its parent. */
  ghost predicate ChildOk(l: Ledger, s: Id, child: Id) {
    var rows := Stream(l, child);
    rows != [] && rows[0].event.Created? && rows[0].event.spec.parent == Some(s)
  }

  ghost predicate LedgerOk(l: Ledger) {
    && (forall s :: Stream(l, s) != [] ==> LogOk(l, s, Stream(l, s)))
    && (forall s :: Stream(l, s) != [] ==> Stream(l, s)[0].event.Created? && FamilyOk(l, s, Stream(l, s)))
  }

  /** Every stream of `l` is a prefix of the one in `m`. */
  ghost predicate Extends(l: Ledger, m: Ledger) {
    l.next <= m.next && forall s :: Stream(l, s) <= Stream(m, s)
  }

  lemma AnchorStays(l: Ledger, m: Ledger, s: Id, rows: seq<Row>)
    requires Extends(l, m) && rows != [] && AnchorOk(l, s, rows)
    ensures AnchorOk(m, s, rows)
  {
    var spec := rows[0].event.spec;
    if spec.parent.Some? {
      var was, now := Stream(l, spec.parent.value), Stream(m, spec.parent.value);
      assert now == was + now[|was|..];
      FindGrows(was, now[|was|..], rows[0].cause.event, s, 0);
    }
  }

  lemma LogStays(l: Ledger, m: Ledger, s: Id, rows: seq<Row>)
    requires Extends(l, m) && rows != [] && LogOk(l, s, rows)
    ensures LogOk(m, s, rows)
  {
    AnchorStays(l, m, s, rows);
  }

  lemma LinksGrow(rows: seq<Row>, more: seq<Row>)
    requires forall k :: 0 < k < |rows| ==> Links(rows, k)
    ensures forall k :: 0 < k < |rows| ==> Links(rows + more, k)
  {
    var all := rows + more;
    forall k | 0 < k < |rows| ensures Links(all, k) {
      assert Links(rows, k);
      assert all[k] == rows[k] && all[k - 1] == rows[k - 1];
      if rows[k].cause != By(rows[k - 1].id) {
        var i :| 0 <= i < k && rows[i].id == rows[k].cause.event;
        assert all[i].id == all[k].cause.event;
      }
    }
  }

  /** Rows put behind a log that reads: linked, in the same trace. */
  lemma LogGrows(l: Ledger, m: Ledger, s: Id, rows: seq<Row>, more: seq<Row>, all: seq<Row>)
    requires Extends(l, m) && rows != [] && LogOk(l, s, rows) && all == rows + more
    requires Fold(s, all).Some? && NewIds(all)
    requires forall k :: 0 <= k < |more| ==> more[k].trace == rows[0].trace && more[k].position == l.next + k && l.next + k < m.next
    requires forall k :: |rows| <= k < |all| ==> Links(all, k)
    ensures LogOk(m, s, all)
  {
    AnchorStays(l, m, s, rows);
    AnchorGrows(m, s, rows, all);
    LinksGrow(rows, more);
    forall k | 0 <= k < |all| ensures all[k].trace == all[0].trace && all[k].position < m.next {
      if k >= |rows| { assert all[k] == more[k - |rows|]; }
    }
    forall j, k | 0 <= j < k < |all| ensures all[j].position < all[k].position {
      if k >= |rows| { assert all[k] == more[k - |rows|]; }
      if j >= |rows| { assert all[j] == more[j - |rows|]; }
    }
  }

  lemma AnchorGrows(m: Ledger, s: Id, rows: seq<Row>, all: seq<Row>)
    requires rows != [] && rows <= all && AnchorOk(m, s, rows)
    ensures AnchorOk(m, s, all)
  {
    assert all[0] == rows[0];
    if |rows| > 1 { assert all[1] == rows[1]; }
  }

  lemma {:induction false} ExtendsChildren(rows: seq<Row>, more: seq<Row>)
    ensures forall c :: c in ChildrenOf(rows) ==> c in ChildrenOf(rows + more)
  {
    forall c | c in ChildrenOf(rows) ensures c in ChildrenOf(rows + more) {
      ChildrenAttached(rows, c);
      ChildrenAttached(rows + more, c);
      var k :| 0 <= k < |rows| && rows[k].event.Attached? && rows[k].event.child == c;
      assert (rows + more)[k] == rows[k];
    }
  }

  lemma FamilyStays(l: Ledger, m: Ledger, s: Id, rows: seq<Row>)
    requires Extends(l, m) && rows != [] && rows[0].event.Created? && FamilyOk(l, s, rows)
    ensures FamilyOk(m, s, rows)
  {
    var spec := rows[0].event.spec;
    if spec.parent.Some? {
      var was, now := Stream(l, spec.parent.value), Stream(m, spec.parent.value);
      assert now == was + now[|was|..];
      ExtendsChildren(was, now[|was|..]);
    }
  }

  // -- an append

  lemma FirstLog(m: Ledger, session: Id, rows: seq<Row>, events: seq<(Id, Event)>, cause: Cause, trace: Id, position: nat)
    requires rows == RowsOf(events, cause, trace, position) && events != [] && position + |events| <= m.next
    requires Fold(session, rows).Some? && NewIds(rows) && AnchorOk(m, session, rows)
    ensures LogOk(m, session, rows)
  {
    forall k | 0 < k < |rows| ensures Links(rows, k) {
      assert rows[k].cause == By(rows[k - 1].id);
    }
  }

  lemma MoreLinks(rows: seq<Row>, events: seq<(Id, Event)>, trace: Id, position: nat, all: seq<Row>)
    requires rows != [] && all == rows + RowsOf(events, By(rows[|rows| - 1].id), trace, position)
    ensures forall k :: |rows| <= k < |all| ==> Links(all, k)
  {
    var more := RowsOf(events, By(rows[|rows| - 1].id), trace, position);
    forall k | |rows| <= k < |all| ensures Links(all, k) {
      assert all[k] == more[k - |rows|];
      if k > |rows| {
        assert all[k - 1] == more[k - 1 - |rows|];
      } else {
        assert all[k - 1] == rows[|rows| - 1];
      }
      assert all[k].cause == By(all[k - 1].id);
    }
  }

  lemma AppendedLog(l: Ledger, session: Id, expected: nat, events: seq<(Id, Event)>, trace: Option<Id>)
    requires Append(l, session, expected, events, trace).Ok? && |Stream(l, session)| == expected
    requires Stream(l, session) != [] ==> LogOk(l, session, Stream(l, session))
    ensures var m := Append(l, session, expected, events, trace).value;
      Extends(l, m) && LogOk(m, session, Extended(l, session, events, trace))
  {
    var m, rows, all := Append(l, session, expected, events, trace).value, Stream(l, session), Extended(l, session, events, trace);
    var t := TraceFor(l, session, trace);
    assert Extends(l, m);
    if rows != [] {
      MoreLinks(rows, events, t, l.next, all);
      LogGrows(l, m, session, rows, RowsOf(events, DefaultCause(l, session), t, l.next), all);
    } else {
      assert all == RowsOf(events, Root(session), t, l.next);
      FirstLog(m, session, all, events, Root(session), t, l.next);
    }
  }

  /** An append extends its own stream, or leaves the ledger as it is. */
  lemma AppendedStreams(l: Ledger, session: Id, expected: nat, events: seq<(Id, Event)>, trace: Option<Id>)
    requires Append(l, session, expected, events, trace).Ok?
    ensures var m := Append(l, session, expected, events, trace).value;
      if |Stream(l, session)| != expected then m == l
      else
        && Stream(m, session) == Extended(l, session, events, trace) != []
        && (Stream(l, session) == [] ==> Stream(m, session)[0].event == events[0].1 && RootFirst(events))
        && forall s :: s != session ==> Stream(m, s) == Stream(l, s)
  {
  }

  lemma AppendKeeps(l: Ledger, session: Id, expected: nat, events: seq<(Id, Event)>, trace: Option<Id>)
    requires LedgerOk(l) && Append(l, session, expected, events, trace).Ok?
    ensures LedgerOk(Append(l, session, expected, events, trace).value)
    ensures Extends(l, Append(l, session, expected, events, trace).value)
  {
    var m := Append(l, session, expected, events, trace).value;
    AppendedStreams(l, session, expected, events, trace);
    if |Stream(l, session)| == expected {
      AppendedLog(l, session, expected, events, trace);
      forall s | Stream(m, s) != [] ensures LogOk(m, s, Stream(m, s)) && Stream(m, s)[0].event.Created? && FamilyOk(m, s, Stream(m, s)) {
        if Stream(l, s) != [] {
          assert Stream(m, s)[0] == Stream(l, s)[0];
          if s != session { LogStays(l, m, s, Stream(l, s)); }
          FamilyStays(l, m, s, Stream(l, s));
        }
      }
    }
  }

  // -- a fork

  /** The parent's stream a fork writes, and what it holds. */
  lemma ForkedRows(l: Ledger, i: ForkInput)
    requires Fork(l, i).Ok?
    ensures 1 <= i.sequence <= |Stream(l, i.parent)| && ParentRows(l, i).Ok? && Fork(l, i) == Commit(l, i, ParentRows(l, i).value)
    ensures ChildProblem(l, i, ParentRows(l, i).value).None? && Fold(i.parent, Stream(l, i.parent)).Some?
    ensures ForkProblem(i, Fold(i.parent, Stream(l, i.parent)).value, Stream(l, i.parent)).None?
    ensures var parent, rows := ParentRows(l, i).value, Stream(l, i.parent);
      parent == if AttachedAt(rows, i.spec.session) < 0 then Attach(l, i) else rows
  {
  }

  lemma {:induction false} AttachedLast(rows: seq<Row>, row: Row, child: Id)
    requires AttachedAt(rows, child) < 0 && row.event.Attached? && row.event.child == child
    ensures AttachedAt(rows + [row], child) == |rows|
  {
    assert (rows + [row])[..|rows|] == rows;
  }

  /** The attachment a fork goes by, new or on record, is the one a reader finds. */
  lemma AttachmentFound(l: Ledger, i: ForkInput)
    requires Fork(l, i).Ok?
    ensures ParentRows(l, i).Ok?
    ensures var parent, rows := ParentRows(l, i).value, Stream(l, i.parent);
      var a := FindAttachment(parent, i.attached, i.spec.session, 0);
      && a >= 0 && parent[a].cause == By(rows[i.sequence - 1].id)
      && (AttachedAt(rows, i.spec.session) < 0 ==> a == |rows|)
  {
    ForkedRows(l, i);
    var parent, rows := ParentRows(l, i).value, Stream(l, i.parent);
    if AttachedAt(rows, i.spec.session) < 0 {
      AttachedLast(rows, Attachment(l, i), i.spec.session);
    }
    var n := AttachedAt(parent, i.spec.session);
    assert AttachesAt(parent, n, i.attached, i.spec.session);
    var a := FindAttachment(parent, i.attached, i.spec.session, 0);
    assert NewIds(parent);
    assert a == n;
  }

  /** Nobody is both the parent and the child of one fork. */
  lemma ForkedApart(l: Ledger, i: ForkInput)
    requires Fork(l, i).Ok?
    ensures i.spec.session != i.parent
  {
    ForkedRows(l, i);
    var parent := ParentRows(l, i).value;
    var rows := Stream(l, i.parent);
    if AttachedAt(rows, i.spec.session) < 0 {
      assert Attach(l, i)[..|rows|] == rows;
    } else {
      FoldTells(i.parent, rows);
      ChildrenAttached(rows, i.spec.session);
    }
  }

  lemma ForkedStreams(l: Ledger, i: ForkInput)
    requires Fork(l, i).Ok?
    ensures ParentRows(l, i).Ok?
    ensures var m, s, parent := Fork(l, i).value, i.spec.session, ParentRows(l, i).value;
      && s != i.parent && Extends(l, m) && Stream(m, i.parent) == parent
      && Stream(m, s) == (if Stream(l, s) == [] then ChildRows(l, i, parent) else Stream(l, s))
      && (forall o :: o != s && o != i.parent ==> Stream(m, o) == Stream(l, o))
  {
    ForkedRows(l, i);
    ForkedApart(l, i);
  }

  lemma ForkedChildren(l: Ledger, i: ForkInput)
    requires Fork(l, i).Ok?
    ensures ParentRows(l, i).Ok?
    ensures forall c :: c in ChildrenOf(ParentRows(l, i).value) <==> c in ChildrenOf(Stream(l, i.parent)) || c == i.spec.session
  {
    ForkedRows(l, i);
    var rows := Stream(l, i.parent);
    if AttachedAt(rows, i.spec.session) < 0 {
      var all := Attach(l, i);
      assert all[..|all| - 1] == rows;
      assert ChildrenOf(all) == ChildrenOf(rows) + [i.spec.session];
    } else {
      ChildrenAttached(rows, i.spec.session);
    }
  }

  lemma AttachedLog(l: Ledger, m: Ledger, i: ForkInput)
    requires 1 <= i.sequence <= |Stream(l, i.parent)| && LogOk(l, i.parent, Stream(l, i.parent))
    requires Extends(l, m) && l.next < m.next && Fold(i.parent, Attach(l, i)).Some? && NewIds(Attach(l, i))
    ensures LogOk(m, i.parent, Attach(l, i))
  {
    var rows, all := Stream(l, i.parent), Attach(l, i);
    assert all[|rows|] == Attachment(l, i) && all[i.sequence - 1] == rows[i.sequence - 1];
    assert Links(all, |rows|);
    LogGrows(l, m, i.parent, rows, [Attachment(l, i)], all);
  }

  lemma ForkedParent(l: Ledger, i: ForkInput)
    requires Fork(l, i).Ok? && LogOk(l, i.parent, Stream(l, i.parent))
    ensures ParentRows(l, i).Ok? && LogOk(Fork(l, i).value, i.parent, ParentRows(l, i).value)
  {
    ForkedRows(l, i);
    ForkedStreams(l, i);
    var m, rows := Fork(l, i).value, Stream(l, i.parent);
    if AttachedAt(rows, i.spec.session) < 0 {
      AttachedLog(l, m, i);
    } else {
      LogStays(l, m, i.parent, rows);
    }
  }

  /** The first rows of a new child read as a fork of its parent. */
  lemma ForkedAnchor(l: Ledger, i: ForkInput)
    requires Fork(l, i).Ok? && LogOk(l, i.parent, Stream(l, i.parent)) && Stream(l, i.spec.session) == []
    ensures ParentRows(l, i).Ok?
    ensures AnchorOk(Fork(l, i).value, i.spec.session, ChildRows(l, i, ParentRows(l, i).value))
  {
    ForkedRows(l, i);
    ForkedStreams(l, i);
    AttachmentFound(l, i);
    AttachmentBefore(l, i);
    var parent, rows := ParentRows(l, i).value, Stream(l, i.parent);
    assert parent[i.sequence - 1] == rows[i.sequence - 1] && parent[0] == rows[0];
  }

  lemma AttachmentBefore(l: Ledger, i: ForkInput)
    requires Fork(l, i).Ok? && LogOk(l, i.parent, Stream(l, i.parent))
    ensures ParentRows(l, i).Ok?
    ensures var parent := ParentRows(l, i).value;
      forall a :: 0 <= a < |parent| ==> parent[a].trace == Stream(l, i.parent)[0].trace && parent[a].position < ChildRows(l, i, parent)[0].position
  {
    ForkedRows(l, i);
  }

  lemma ForkedChild(l: Ledger, i: ForkInput)
    requires Fork(l, i).Ok? && LogOk(l, i.parent, Stream(l, i.parent)) && Stream(l, i.spec.session) == []
    ensures var m, s := Fork(l, i).value, i.spec.session;
      Stream(m, s) != [] && LogOk(m, s, Stream(m, s)) && Stream(m, s)[0].event == Created(i.spec) && FamilyOk(m, s, Stream(m, s))
  {
    ForkedRows(l, i);
    ForkedStreams(l, i);
    ForkedAnchor(l, i);
    ForkedChildren(l, i);
    var m, parent := Fork(l, i).value, ParentRows(l, i).value;
    var rows, t := ChildRows(l, i, parent), Stream(l, i.parent)[0].trace;
    FirstLog(m, i.spec.session, rows, ChildEvents(i), By(i.attached), t, rows[0].position);
    FoldTells(i.parent, Stream(l, i.parent));
    assert parent[0] == Stream(l, i.parent)[0];
  }

  lemma ForkKeepsLog(l: Ledger, i: ForkInput, s: Id)
    requires LedgerOk(l) && Fork(l, i).Ok? && Stream(Fork(l, i).value, s) != []
    ensures var m := Fork(l, i).value;
      LogOk(m, s, Stream(m, s)) && Stream(m, s)[0].event.Created? && FamilyOk(m, s, Stream(m, s))
  {
    var m := Fork(l, i).value;
    ForkedRows(l, i);
    ForkedStreams(l, i);
    if Stream(l, s) == [] {
      ForkedChild(l, i);
    } else {
      if s == i.parent { ForkedParent(l, i); } else { LogStays(l, m, s, Stream(l, s)); }
      FamilyStays(l, m, s, Stream(l, s));
      FamilyGrows(m, s, Stream(l, s), Stream(m, s));
    }
  }

  lemma ForkKeeps(l: Ledger, i: ForkInput)
    requires LedgerOk(l) && Fork(l, i).Ok?
    ensures LedgerOk(Fork(l, i).value) && Extends(l, Fork(l, i).value)
  {
    var m := Fork(l, i).value;
    ForkedStreams(l, i);
    forall s | Stream(m, s) != [] ensures LogOk(m, s, Stream(m, s)) && Stream(m, s)[0].event.Created? && FamilyOk(m, s, Stream(m, s)) {
      ForkKeepsLog(l, i, s);
    }
  }

  lemma FamilyGrows(m: Ledger, s: Id, rows: seq<Row>, all: seq<Row>)
    requires rows != [] && rows <= all && rows[0].event.Created? && FamilyOk(m, s, rows)
    ensures FamilyOk(m, s, all)
  {
    assert all[0] == rows[0];
  }

  lemma NextKeeps(l: Ledger, op: Op)
    requires LedgerOk(l)
    ensures LedgerOk(Next(l, op)) && Extends(l, Next(l, op))
  {
    match op
    case DoAppend(s, n, events, trace) => if Append(l, s, n, events, trace).Ok? { AppendKeeps(l, s, n, events, trace); }
    case DoFork(i) => if Fork(l, i).Ok? { ForkKeeps(l, i); }
  }

  lemma {:induction false} EveryLedger(ops: seq<Op>)
    ensures LedgerOk(Run(ops))
    decreases |ops|
  {
    if ops != [] {
      EveryLedger(ops[..|ops| - 1]);
      NextKeeps(Run(ops[..|ops| - 1]), ops[|ops| - 1]);
    }
  }

  lemma RunLast(ops: seq<Op>)
    requires ops != []
    ensures Run(ops) == Next(Run(ops[..|ops| - 1]), ops[|ops| - 1])
  {
  }

  lemma RunMore(ops: seq<Op>, more: seq<Op>)
    requires more != []
    ensures Run(ops + more) == Next(Run(ops + more[..|more| - 1]), more[|more| - 1])
  {
    var all, n := ops + more, |more| - 1;
    assert all[..|all| - 1] == ops + more[..n] && all[|all| - 1] == more[n];
    RunLast(all);
  }

  lemma ExtendsTwice(k: Ledger, l: Ledger, m: Ledger)
    requires Extends(k, l) && Extends(l, m)
    ensures Extends(k, m)
  {
    forall s ensures Stream(k, s) <= Stream(m, s) {
      assert Stream(k, s) <= Stream(l, s);
    }
  }

  /** Later operations only put rows behind what is stored. */
  lemma {:induction false} LaterExtends(ops: seq<Op>, more: seq<Op>)
    ensures Extends(Run(ops), Run(ops + more))
    decreases |more|
  {
    if more == [] {
      assert ops + more == ops;
    } else {
      var n := |more| - 1;
      var l := Run(ops + more[..n]);
      LaterExtends(ops, more[..n]);
      EveryLedger(ops + more[..n]);
      NextKeeps(l, more[n]);
      ExtendsTwice(Run(ops), l, Next(l, more[n]));
      RunMore(ops, more);
    }
  }

  // ---------------------------------------------------------------- main results

  /** Every log written by default-causation appends and forks passes the reader's checks of trace
      and causation, and its session has at most its limit of children. */
  lemma EveryLogReads(ops: seq<Op>, s: Id)
    ensures ReadPrefix(Run(ops), s, Stream(Run(ops), s)).Ok?
    ensures Stream(Run(ops), s) != [] ==>
      var f := Fold(s, Stream(Run(ops), s)); f.Some? && (f.value.children == [] || |f.value.children| <= f.value.spec.limits.children)
  {
    EveryLedger(ops);
    var rows := Stream(Run(ops), s);
    if rows != [] {
      assert LogOk(Run(ops), s, rows);
      FoldTells(s, rows);
    }
  }

  /** A chain of sessions, each the parent of the one before. */
  ghost predicate Ancestry(l: Ledger, chain: seq<Id>) {
    && chain != []
    && (forall k :: 0 <= k < |chain| ==> Stream(l, chain[k]) != [] && Stream(l, chain[k])[0].event.Created?)
    && (forall k :: 0 <= k < |chain| - 1 ==> Stream(l, chain[k])[0].event.spec.parent == Some(chain[k + 1]))
  }

  function SpecOf(l: Ledger, s: Id): Spec
    requires Stream(l, s) != [] && Stream(l, s)[0].event.Created?
  {
    Stream(l, s)[0].event.spec
  }

  /** A descendant has the authority, the policy and the trace of every ancestor, none of its limits
      is wider, and it began later. */
  lemma {:induction false} DescendantsInherit(ops: seq<Op>, chain: seq<Id>)
    requires Ancestry(Run(ops), chain)
    ensures var l, s, a := Run(ops), chain[0], chain[|chain| - 1];
      && Inherits(SpecOf(l, a), SpecOf(l, s)) && Stream(l, s)[0].trace == Stream(l, a)[0].trace
      && (|chain| > 1 ==> Stream(l, a)[0].position < Stream(l, s)[0].position)
    decreases |chain|
  {
    var l, n := Run(ops), |chain| - 1;
    if n > 0 {
      assert Ancestry(l, chain[..n]);
      DescendantsInherit(ops, chain[..n]);
      EveryLedger(ops);
      assert Stream(l, chain[n - 1])[0].event.spec.parent == Some(chain[n - 1 + 1]);
      assert FamilyOk(l, chain[n - 1], Stream(l, chain[n - 1]));
    }
  }

  predicate NamesChild(events: seq<(Id, Event)>, c: Id) {
    exists k :: 0 <= k < |events| && events[k].1.Attached? && events[k].1.child == c
  }

  predicate AppendNames(l: Ledger, op: Op, s: Id, c: Id) {
    op.DoAppend? && op.session == s && NamesChild(op.events, c) && Append(l, s, op.expected, op.events, op.trace).Ok?
  }

  predicate ForkNames(l: Ledger, op: Op, s: Id, c: Id) {
    op.DoFork? && op.input.parent == s && op.input.spec.session == c && Fork(l, op.input).Ok?
  }

  /** An accepted append named `c` as a child of `s`. */
  predicate PlainlyAttached(ops: seq<Op>, s: Id, c: Id)
    decreases |ops|
  {
    if ops == [] then false
    else
      var n := |ops| - 1;
      PlainlyAttached(ops[..n], s, c) || AppendNames(Run(ops[..n]), ops[n], s, c)
  }

  /** A fork of `c` from `s` was accepted. */
  predicate ForkedFrom(ops: seq<Op>, s: Id, c: Id)
    decreases |ops|
  {
    if ops == [] then false
    else
      var n := |ops| - 1;
      ForkedFrom(ops[..n], s, c) || ForkNames(Run(ops[..n]), ops[n], s, c)
  }

  lemma MoreChildren(rows: seq<Row>, events: seq<(Id, Event)>, cause: Cause, trace: Id, position: nat, c: Id)
    ensures c in ChildrenOf(rows + RowsOf(events, cause, trace, position)) <==> c in ChildrenOf(rows) || NamesChild(events, c)
  {
    var more := RowsOf(events, cause, trace, position);
    var all := rows + more;
    ChildrenAttached(rows, c);
    ChildrenAttached(all, c);
    if k :| 0 <= k < |rows| && rows[k].event.Attached? && rows[k].event.child == c {
      assert all[k] == rows[k];
    }
    if k :| 0 <= k < |events| && events[k].1.Attached? && events[k].1.child == c {
      assert all[|rows| + k] == more[k];
    }
    if k :| 0 <= k < |all| && all[k].event.Attached? && all[k].event.child == c {
      if k < |rows| { assert rows[k] == all[k]; } else { assert all[k] == more[k - |rows|]; }
    }
  }

  lemma StoredChildren(rows: seq<Row>, from: nat, added: seq<Row>, events: seq<(Id, Event)>, c: Id)
    requires SameEvents(rows, from, added) && |added| == |events| && NamesChild(events, c)
    requires forall k :: 0 <= k < |events| ==> added[k].event == events[k].1
    ensures c in ChildrenOf(rows)
  {
    var k :| 0 <= k < |events| && events[k].1.Attached? && events[k].1.child == c;
    ChildrenAttached(rows, c);
    assert rows[from + k].event == added[k].event;
  }

  lemma AppendedNames(l: Ledger, session: Id, expected: nat, events: seq<(Id, Event)>, trace: Option<Id>, c: Id)
    requires Append(l, session, expected, events, trace).Ok?
    ensures c in ChildrenOf(Stream(Append(l, session, expected, events, trace).value, session))
      <==> c in ChildrenOf(Stream(l, session)) || NamesChild(events, c)
  {
    var t := TraceFor(l, session, trace);
    AppendedStreams(l, session, expected, events, trace);
    if |Stream(l, session)| == expected {
      MoreChildren(Stream(l, session), events, DefaultCause(l, session), t, l.next, c);
    } else if NamesChild(events, c) {
      StoredChildren(Stream(l, session), expected, RowsOf(events, Root(session), t, 0), events, c);
    }
  }

  lemma AppendedParents(l: Ledger, session: Id, expected: nat, events: seq<(Id, Event)>, trace: Option<Id>, s: Id, c: Id)
    requires LedgerOk(l) && Append(l, session, expected, events, trace).Ok?
    ensures ChildOk(Append(l, session, expected, events, trace).value, s, c) <==> ChildOk(l, s, c)
  {
    var m := Append(l, session, expected, events, trace).value;
    AppendedStreams(l, session, expected, events, trace);
    if |Stream(l, session)| == expected && Stream(l, c) != [] {
      assert Stream(m, c)[0] == Stream(l, c)[0];
    }
  }

  lemma ForkedNames(l: Ledger, i: ForkInput, s: Id, c: Id)
    requires LedgerOk(l) && Fork(l, i).Ok?
    ensures c in ChildrenOf(Stream(Fork(l, i).value, s)) <==> c in ChildrenOf(Stream(l, s)) || (s == i.parent && c == i.spec.session)
  {
    ForkedStreams(l, i);
    if s == i.spec.session {
      ForkedHasNone(l, i, c);
    } else if s == i.parent {
      ForkedChildren(l, i);
    }
  }

  lemma ForkedHasNone(l: Ledger, i: ForkInput, c: Id)
    requires Fork(l, i).Ok?
    ensures c in ChildrenOf(Stream(Fork(l, i).value, i.spec.session)) <==> c in ChildrenOf(Stream(l, i.spec.session))
  {
    ForkedRows(l, i);
    ForkedStreams(l, i);
    if Stream(l, i.spec.session) == [] {
      NoChildren(ChildRows(l, i, ParentRows(l, i).value));
    }
  }

  /** The log of the child names its parent, whether the fork began it or found it there. */
  lemma ForkedStart(l: Ledger, i: ForkInput)
    requires LedgerOk(l) && Fork(l, i).Ok?
    ensures ChildOk(Fork(l, i).value, i.parent, i.spec.session)
    ensures Stream(l, i.spec.session) != [] ==> ChildOk(l, i.parent, i.spec.session)
  {
    ForkedRows(l, i);
    ForkedStreams(l, i);
    assert ChildRows(l, i, ParentRows(l, i).value)[0].event == Created(i.spec);
  }

  lemma ForkedParents(l: Ledger, i: ForkInput, s: Id, c: Id)
    requires LedgerOk(l) && Fork(l, i).Ok?
    ensures ChildOk(Fork(l, i).value, s, c) <==> ChildOk(l, s, c) || (s == i.parent && c == i.spec.session)
  {
    var m := Fork(l, i).value;
    ForkedStreams(l, i);
    ForkedStart(l, i);
    if Stream(l, c) != [] { assert Stream(m, c)[0] == Stream(l, c)[0]; }
  }

  lemma NoChildren(rows: seq<Row>)
    requires forall k :: 0 <= k < |rows| ==> !rows[k].event.Attached?
    ensures forall c :: c !in ChildrenOf(rows)
  {
    forall c ensures c !in ChildrenOf(rows) { ChildrenAttached(rows, c); }
  }

  lemma NextChildren(l: Ledger, op: Op, s: Id, c: Id)
    requires LedgerOk(l)
    ensures c in ChildrenOf(Stream(Next(l, op), s)) <==> c in ChildrenOf(Stream(l, s)) || AppendNames(l, op, s, c) || ForkNames(l, op, s, c)
    ensures ChildOk(Next(l, op), s, c) <==> ChildOk(l, s, c) || ForkNames(l, op, s, c)
  {
    match op
    case DoAppend(x, k, events, trace) =>
      if Append(l, x, k, events, trace).Ok? {
        AppendedStreams(l, x, k, events, trace);
        AppendedNames(l, x, k, events, trace, c);
        AppendedParents(l, x, k, events, trace, s, c);
      }
    case DoFork(i) =>
      if Fork(l, i).Ok? {
        ForkedNames(l, i, s, c);
        ForkedParents(l, i, s, c);
      }
  }

  /** The children of a session are those an append named and those forked from it.  The forked ones
      are exactly those whose own log names the session as its parent, and they began after it. */
  lemma {:induction false} ChildrenAreForks(ops: seq<Op>, s: Id, c: Id)
    ensures var l := Run(ops);
      && (c in ChildrenOf(Stream(l, s)) <==> PlainlyAttached(ops, s, c) || ForkedFrom(ops, s, c))
      && (ForkedFrom(ops, s, c) <==> ChildOk(l, s, c))
      && (ForkedFrom(ops, s, c) ==> Stream(l, s) != [] && Stream(l, s)[0].position < Stream(l, c)[0].position)
    decreases |ops|
  {
    var l := Run(ops);
    EveryLedger(ops);
    if ops != [] {
      var n := |ops| - 1;
      EveryLedger(ops[..n]);
      ChildrenAreForks(ops[..n], s, c);
      NextChildren(Run(ops[..n]), ops[n], s, c);
    }
    if ChildOk(l, s, c) {
      assert FamilyOk(l, c, Stream(l, c));
    }
  }

  // -- sessions that have ended

  predicate HasEnded(l: Ledger, s: Id) {
    var rows := Stream(l, s);
    rows != [] && rows[|rows| - 1].event.Ended?
  }

  lemma {:induction false} NothingAfterEnd(session: Id, rows: seq<Row>, more: seq<Row>)
    requires rows != [] && rows[|rows| - 1].event.Ended? && Fold(session, rows + more).Some?
    ensures more == []
    decreases |more|
  {
    if more != [] {
      var all, n := rows + more, |more| - 1;
      assert all[..|all| - 1] == rows + more[..n];
      NothingAfterEnd(session, rows, more[..n]);
      assert rows + more[..n] == rows;
      FoldTells(session, rows);
    }
  }

  /** A session that has ended attaches no more children. */
  lemma EndedForGood(ops: seq<Op>, more: seq<Op>, s: Id)
    requires HasEnded(Run(ops), s)
    ensures Stream(Run(ops + more), s) == Stream(Run(ops), s)
  {
    var was, now := Stream(Run(ops), s), Stream(Run(ops + more), s);
    LaterExtends(ops, more);
    EveryLedger(ops + more);
    assert now == was + now[|was|..];
    assert LogOk(Run(ops + more), s, now);
    NothingAfterEnd(s, was, now[|was|..]);
  }
}
