/** A turn's assembled context on its session log: the compaction record, if there is one, and the
    request, appended together after the history that the log itself holds. */
module SessionContext {
  import opened Outcomes
  import opened SessionFold
  import opened SessionStream
  import opened SessionRows
  import B = ContextBudget

  // ---------------------------------------------------------------- durable history of a stored log

  /** The entry stands in the log as the input or as part of the stream of one of these turns. */
  ghost predicate EntryPlaced(log: seq<Event>, e: B.Entry, order: seq<Id>) {
    && RowOf(log, e.sequence - 1, e.id)
    && (log[e.sequence - 1].body.TurnStarted? || log[e.sequence - 1].body.Streamed?)
    && log[e.sequence - 1].body.turn in order
  }

  ghost predicate HistoryPlaced(k: Env, log: seq<Event>, h: seq<B.Entry>, order: seq<Id>) {
    && (forall e <- h :: EntryPlaced(log, e, order) && e.ref == k.eventRef(e.id) && e.message.role != B.System)
    && (forall i, j :: 0 <= i < j < |h| ==> h[i].sequence != h[j].sequence)
  }

  lemma OneTurnPlaced(k: Env, log: seq<Event>, id: Id, t: Turn)
    requires TurnPlaced(log, id, t)
    ensures HistoryPlaced(k, log, HistoryOf(k, t), [id])
  {
    var i := FirstCompleted(t.events);
    if 0 <= i < |t.eventIds| { assert Placed(log, id, t.eventIds[i], t.eventSequences[i]); }
    assert id in [id];
  }

  lemma {:induction false} AllPlaced(k: Env, s: State, log: seq<Event>, order: seq<Id>, current: Id)
    requires Distinct(order) && forall id :: id in s.turns ==> TurnPlaced(log, id, s.turns[id])
    ensures HistoryPlaced(k, log, DurableHistory(k, s, order, current), order)
  {
    if order != [] && order[0] != current {
      var rest := order[1..];
      assert order == [order[0]] + rest && order[0] !in rest;
      assert Distinct(rest);
      AllPlaced(k, s, log, rest, current);
      if order[0] in s.turns {
        OneTurnPlaced(k, log, order[0], s.turns[order[0]]);
        JoinPlaced(k, log, HistoryOf(k, s.turns[order[0]]), DurableHistory(k, s, rest, current), order);
      } else {
        assert [] + DurableHistory(k, s, rest, current) == DurableHistory(k, s, rest, current);
      }
    }
  }

  lemma JoinPlaced(k: Env, log: seq<Event>, a: seq<B.Entry>, b: seq<B.Entry>, order: seq<Id>)
    requires order != [] && order[0] !in order[1..]
    requires HistoryPlaced(k, log, a, [order[0]]) && HistoryPlaced(k, log, b, order[1..])
    ensures HistoryPlaced(k, log, a + b, order)
  {
    forall e | e in a + b ensures EntryPlaced(log, e, order) && e.ref == k.eventRef(e.id) && e.message.role != B.System {
      if e in a { assert EntryPlaced(log, e, [order[0]]); } else { assert EntryPlaced(log, e, order[1..]); }
    }
    forall i, j | 0 <= i < j < |a + b| ensures (a + b)[i].sequence != (a + b)[j].sequence {
      if i < |a| <= j {
        assert a[i] in a && b[j - |a|] in b;
        assert EntryPlaced(log, a[i], [order[0]]) && EntryPlaced(log, b[j - |a|], order[1..]);
      } else if i >= |a| {
        assert b[i - |a|].sequence != b[j - |a|].sequence;
      }
    }
  }

  /** References name events apart. */
  ghost predicate Refers(k: Env) { forall a, b :: k.eventRef(a) == k.eventRef(b) ==> a == b }

  /** What the assembler reads from a stored log is durable history as it needs it. */
  lemma HistoryDurable(k: Env, s: State, log: seq<Event>, turn: Id, i: B.Input)
    requires UniqueIds(log) && Rows(s, log) && Refers(k)
    requires i.eventRef == k.eventRef(i.eventId) && !exists p :: RowOf(log, p, i.eventId)
    ensures B.DurableOk(DurableHistory(k, s, s.order, turn), i)
  {
    var h := DurableHistory(k, s, s.order, turn);
    forall id | id in s.turns ensures TurnPlaced(log, id, s.turns[id]) { assert TurnRows(s, log, id, s.turns[id]); }
    AllPlaced(k, s, log, s.order, turn);
    forall a, b | 0 <= a < b < |h| ensures h[a].id != h[b].id && h[a].ref != h[b].ref && h[a].sequence != h[b].sequence {
      assert h[a] in h && h[b] in h;
      assert EntryPlaced(log, h[a], s.order) && EntryPlaced(log, h[b], s.order);
    }
    forall e | e in h ensures e.message.role != B.System && e.ref != i.eventRef {
      assert EntryPlaced(log, e, s.order);
      assert RowOf(log, e.sequence - 1, e.id);
    }
  }

  // ---------------------------------------------------------------- what is appended

  /** The names of the two events and of what they record. */
  datatype Names = Names(context: Id, compaction: Id, checkpoint: Id, request: Id, at: int)

  /** `system` are the messages made of instructions, runtime data, references and memory. */
  datatype Composed = Composed(system: seq<B.Message>, budgeted: B.Budgeted)

  predicate ComposedOk(c: Composed) { c.system != [] && forall m <- c.system :: m.role == B.System }

  function Plains(ms: seq<B.Message>): (r: seq<Msg>)
    ensures |r| == |ms|
  {
    seq(|ms|, i requires 0 <= i < |ms| => Plain(ms[i]))
  }

  function RequestOf(s: State, t: Turn, c: Composed, frame: string, n: Names): Request
    requires s.spec.Some?
  {
    Request(n.request, s.spec.value.provider, s.spec.value.model, frame, Plains(c.system + B.Messages(c.budgeted.history) + [t.input]))
  }

  function CompactionEvent(s: State, turn: Id, i: B.Input, record: B.Record, prov: Provenance, n: Names): Event {
    Event(i.eventId, if s.session.Some? then s.session.value else "", s.current + 1, n.at, ContextCompacted(turn, n.compaction, n.checkpoint, prov, record))
  }

  function ContextEvent(s: State, turn: Id, i: B.Input, c: Composed, budget: Option<Provenance>, frame: string, n: Names): Event
    requires s.spec.Some? && turn in s.turns
  {
    Event(n.context, if s.session.Some? then s.session.value else "", s.current + (if c.budgeted.record.Some? then 2 else 1), n.at,
          Assembled(turn, RequestOf(s, s.turns[turn], c, frame, n), B.Included(i, c.budgeted), budget.Some?, budget))
  }

  /** `assembleAndRecord`: both events in one append, or the request alone. */
  function ContextEvents(s: State, turn: Id, i: B.Input, c: Composed, budget: Option<Provenance>, frame: string, n: Names): seq<Event>
    requires s.spec.Some? && turn in s.turns
  {
    (if c.budgeted.record.Some? && budget.Some? then [CompactionEvent(s, turn, i, c.budgeted.record.value, budget.value, n)] else [])
      + [ContextEvent(s, turn, i, c, budget, frame, n)]
  }

  /** The turn awaits its context, under names that are new, from the history on record. */
  ghost predicate Awaits(k: Env, s: State, turn: Id, i: B.Input, c: Composed, budget: Option<Provenance>, n: Names) {
    && s.ending.None? && s.session.Some? && s.current > 0 && s.spec.Some? && s.spec.value.kernel
    && |n.request| <= MAX_IDENTIFIER && |s.spec.value.provider| <= MAX_IDENTIFIER
    && turn in s.turns && s.turns[turn].request.None? && s.turns[turn].contextCompaction.None?
    && i.history == DurableHistory(k, s, s.order, turn) && k.eventRef(s.turns[turn].inputEvent) in i.fixedRefs
    && i.eventRef == k.eventRef(i.eventId) && i.eventId !in s.seen && n.context !in s.seen && n.context != i.eventId
    && ComposedOk(c) && (budget.Some? <==> i.policy == B.Compact)
    && (forall j :: 0 <= j < |s.compactions| ==>
          s.compactions[j].compaction != n.compaction && s.compactions[j].checkpoint != n.checkpoint
          && !(s.compactions[j].turn == turn && s.compactions[j].context))
  }

  // ---------------------------------------------------------------- what the fold makes of it

  lemma {:induction false} PlainsOf(ms: seq<B.Message>)
    ensures PlainMessages(Plains(ms)) == Some(ms)
  {
    if ms != [] {
      PlainsOf(ms[1..]);
      assert Plains(ms)[1..] == Plains(ms[1..]);
      assert ms == [ms[0]] + ms[1..];
    }
  }

  lemma {:induction false} SystemUnseen(system: seq<B.Message>, ms: seq<B.Message>)
    requires forall m <- system :: m.role == B.System
    ensures B.Visible(system + ms) == B.Visible(ms)
  {
    if system == [] {
      assert system + ms == ms;
    } else {
      assert system[0] in system;
      SystemUnseen(system[1..], ms);
      assert (system + ms)[1..] == system[1..] + ms;
    }
  }

  /** What the request shows of its history. */
  lemma InnerMessages(c: Composed, input: B.Message)
    requires ComposedOk(c)
    ensures var ms := Plains(c.system + B.Messages(c.budgeted.history) + [input]);
      && |ms| >= 2 && ms[|ms| - 1] == Plain(input)
      && PlainMessages(ms[1..|ms| - 1]).Some?
      && B.Visible(PlainMessages(ms[1..|ms| - 1]).value) == B.Visible(B.Messages(c.budgeted.history))
  {
    var h := B.Messages(c.budgeted.history);
    var ms := Plains(c.system + h + [input]);
    assert ms[1..|ms| - 1] == Plains(c.system[1..] + h);
    PlainsOf(c.system[1..] + h);
    SystemUnseen(c.system[1..], h);
  }

  lemma ContextIff(k: Env, s: State, turn: Id, e: Event, durable: seq<B.Entry>, c: Composed)
    requires e.body.Assembled? && e.body.turn == turn && turn in s.turns && s.spec.Some? && s.spec.value.kernel && ComposedOk(c)
    requires var t, r := s.turns[turn], e.body.request;
      && t.request.None? && RequestOk(r) && r.provider == s.spec.value.provider && r.model == s.spec.value.model
      && r.messages == Plains(c.system + B.Messages(c.budgeted.history) + [t.input]) && k.eventRef(t.inputEvent) in e.body.refs
      && (t.contextCompaction.Some? ==> e.body.budget == Some(t.contextCompaction.value.provenance))
    requires durable == DurableHistory(k, s, s.order, turn)
    ensures var x := s.turns[turn].contextCompaction;
      ApplyAssembled(k, s, e).Some? <==>
        B.ContextOk(durable, B.Visible(B.Messages(c.budgeted.history)), e.body.refs,
                    if x.Some? then Some(x.value.record) else None, if x.Some? then k.eventRef(x.value.event) else "")
  {
    InnerMessages(c, s.turns[turn].input);
  }

  /** The state with the compaction recorded. */
  function WithRecord(s: State, turn: Id, i: B.Input, record: B.Record, prov: Provenance, n: Names): State
    requires turn in s.turns
  {
    s.(current := s.current + 1, seen := s.seen + {i.eventId},
       turns := s.turns[turn := s.turns[turn].(contextCompaction := Some(ContextCompaction(i.eventId, prov, record)))],
       compactions := s.compactions + [Seen(n.compaction, n.checkpoint, turn, true, B.Ids(record.sources))])
  }

  lemma RecordIff(k: Env, s: State, turn: Id, i: B.Input, c: Composed, prov: Provenance, n: Names)
    requires Awaits(k, s, turn, i, c, Some(prov), n) && c.budgeted.record.Some? && c.budgeted.record.value.sources != []
    ensures var e := CompactionEvent(s, turn, i, c.budgeted.record.value, prov, n);
      && (Apply(k, s, e).Ok? <==> B.LineageOk(i.history, c.budgeted.record.value))
      && (Apply(k, s, e).Ok? ==> Apply(k, s, e).value == WithRecord(s, turn, i, c.budgeted.record.value, prov, n))
  {
    var e := CompactionEvent(s, turn, i, c.budgeted.record.value, prov, n);
    SameHistory(k, s, Enter(s, e), s.order, turn);
  }

  lemma {:induction false} SameHistory(k: Env, s: State, z: State, order: seq<Id>, turn: Id)
    requires forall id :: id in order ==> (id in z.turns <==> id in s.turns)
    requires forall id :: id in order && id in s.turns ==> HistoryOf(k, z.turns[id]) == HistoryOf(k, s.turns[id])
    ensures DurableHistory(k, z, order, turn) == DurableHistory(k, s, order, turn)
  {
    if order != [] && order[0] != turn { SameHistory(k, s, z, order[1..], turn); }
  }

  lemma {:induction false} OnlyCompacting(i: B.Input, p: B.Provider)
    requires B.Budget(i, p).Ok? && B.Budget(i, p).value.record.Some?
    ensures i.policy == B.Compact
  {
  }

  lemma EnterContext(k: Env, s: State, e: Event)
    requires s.ending.None? && e.body.Assembled? && e.sequence == s.current + 1 && e.sequence > 1 && Some(e.session) == s.session
    ensures Apply(k, s, e).Ok? <==> ApplyAssembled(k, Enter(s, e), e).Some?
  {
  }

  /** The request alone, after no compaction. */
  lemma RequestTakenIff(k: Env, s: State, turn: Id, i: B.Input, c: Composed, budget: Option<Provenance>, frame: string, n: Names)
    requires Awaits(k, s, turn, i, c, budget, n) && c.budgeted.record.None?
    ensures Apply(k, s, ContextEvent(s, turn, i, c, budget, frame, n)).Ok? <==> B.FoldAccepts(i.history, i, c.budgeted)
  {
    var e := ContextEvent(s, turn, i, c, budget, frame, n);
    SameHistory(k, s, Enter(s, e), s.order, turn);
    ContextIff(k, Enter(s, e), turn, e, i.history, c);
    EnterContext(k, s, e);
  }

  /** The request after its compaction record. */
  lemma CompactedRequestTakenIff(k: Env, s: State, z: State, turn: Id, i: B.Input, c: Composed, prov: Provenance, frame: string, n: Names)
    requires Awaits(k, s, turn, i, c, Some(prov), n) && c.budgeted.record.Some? && c.budgeted.record.value.sources != []
    requires z == WithRecord(s, turn, i, c.budgeted.record.value, prov, n)
    ensures Apply(k, z, ContextEvent(s, turn, i, c, Some(prov), frame, n)).Ok? <==>
      B.ContextOk(i.history, B.Visible(B.Messages(c.budgeted.history)), B.Included(i, c.budgeted), c.budgeted.record, i.eventRef)
  {
    var e := ContextEvent(s, turn, i, c, Some(prov), frame, n);
    RecordKeepsHistory(k, s, Enter(z, e), turn, ContextCompaction(i.eventId, prov, c.budgeted.record.value));
    ContextIff(k, Enter(z, e), turn, e, i.history, c);
    EnterContext(k, z, e);
  }

  /** A compaction record changes no history. */
  lemma RecordKeepsHistory(k: Env, s: State, z: State, turn: Id, x: ContextCompaction)
    requires turn in s.turns && z.turns == s.turns[turn := s.turns[turn].(contextCompaction := Some(x))]
    ensures DurableHistory(k, z, s.order, turn) == DurableHistory(k, s, s.order, turn)
  {
    forall id | id in s.order && id in s.turns ensures HistoryOf(k, z.turns[id]) == HistoryOf(k, s.turns[id]) { }
    SameHistory(k, s, z, s.order, turn);
  }

  lemma OneStored(k: Env, log: seq<Event>, e: Event)
    requires Stored(k, log)
    ensures Stored(k, log + [e]) <==> Takes(k, Replay(k, log).value, e)
  {
    StoredPush(k, log, e);
  }

  lemma TwoStored(k: Env, log: seq<Event>, a: Event, b: Event)
    requires Stored(k, log) && a.id !in Replay(k, log).value.seen && b.id !in Replay(k, log).value.seen && a.id != b.id
    ensures var s := Replay(k, log).value; var first := Apply(k, s, a);
      Stored(k, log + [a, b]) <==> first.Ok? && Apply(k, first.value, b).Ok?
  {
    var s := Replay(k, log).value;
    StoredPush(k, log, a);
    ReplayPush(k, log, a);
    assert log + [a, b] == log + [a] + [b];
    if Apply(k, s, a).Ok? {
      EveryStateOk(k, log);
      ApplyKeeps(k, s, a, |log|);
      StoredPush(k, log + [a], b);
    } else {
      ReplayPush(k, log + [a], b);
    }
  }

  /** What the assembler appends is taken exactly when its result meets the fold's checks of the history
      that the log itself holds. */
  lemma AssemblyTakenIff(k: Env, log: seq<Event>, turn: Id, i: B.Input, p: B.Provider, c: Composed, budget: Option<Provenance>, frame: string, n: Names)
    requires Stored(k, log) && Awaits(k, Replay(k, log).value, turn, i, c, budget, n) && B.Budget(i, p) == Ok(c.budgeted)
    ensures Stored(k, log + ContextEvents(Replay(k, log).value, turn, i, c, budget, frame, n)) <==> B.FoldAccepts(i.history, i, c.budgeted)
  {
    var s := Replay(k, log).value;
    B.BudgetKeeps(i, p);
    var e := ContextEvent(s, turn, i, c, budget, frame, n);
    if c.budgeted.record.Some? {
      OnlyCompacting(i, p);
      var a := CompactionEvent(s, turn, i, c.budgeted.record.value, budget.value, n);
      assert [a] + [e] == [a, e];
      TwoStored(k, log, a, e);
      RecordIff(k, s, turn, i, c, budget.value, n);
      if Apply(k, s, a).Ok? { CompactedRequestTakenIff(k, s, Apply(k, s, a).value, turn, i, c, budget.value, frame, n); }
    } else {
      assert [] + [e] == [e];
      OneStored(k, log, e);
      RequestTakenIff(k, s, turn, i, c, budget, frame, n);
    }
  }

  /** Under the compact policy: exactly when the durable history is in order of sequence, and no source
      from outside goes by a reference that was compacted. */
  lemma CompactedContextTakenIff(k: Env, log: seq<Event>, turn: Id, i: B.Input, p: B.Provider, c: Composed, budget: Option<Provenance>, frame: string, n: Names)
    requires Stored(k, log) && Refers(k) && Awaits(k, Replay(k, log).value, turn, i, c, budget, n)
    requires B.Budget(i, p) == Ok(c.budgeted) && c.budgeted.record.Some?
    ensures var s := Replay(k, log).value;
      Stored(k, log + ContextEvents(s, turn, i, c, budget, frame, n)) <==>
        B.InSequence(DurableHistory(k, s, s.order, turn)) && B.NoneNamed(i, c.budgeted, c.budgeted.record.value.sources)
  {
    AssemblyTakenIff(k, log, turn, i, p, c, budget, frame, n);
    StoredHistory(k, log, turn, i);
    B.CompactionAcceptedIffInSequence(i.history, i, p);
  }

  lemma StoredHistory(k: Env, log: seq<Event>, turn: Id, i: B.Input)
    requires Stored(k, log) && Refers(k) && i.eventRef == k.eventRef(i.eventId) && i.eventId !in Replay(k, log).value.seen
    ensures var s := Replay(k, log).value; B.DurableOk(DurableHistory(k, s, s.order, turn), i)
  {
    EveryRow(k, log);
    SeenIds(k, log);
    HistoryDurable(k, Replay(k, log).value, log, turn, i);
  }

  /** Without a compaction: exactly when the suffix that was kept reads like that of the log, and each
      entry of it is kept or goes by the reference of an outside source. */
  lemma PlainContextTakenIff(k: Env, log: seq<Event>, turn: Id, i: B.Input, p: B.Provider, c: Composed, budget: Option<Provenance>, frame: string, n: Names)
    requires Stored(k, log) && Refers(k) && Awaits(k, Replay(k, log).value, turn, i, c, budget, n)
    requires B.Budget(i, p) == Ok(c.budgeted) && c.budgeted.record.None?
    ensures |c.budgeted.history| <= |i.history|
    ensures var tail := B.Tail(i.history, |c.budgeted.history|);
      Stored(k, log + ContextEvents(Replay(k, log).value, turn, i, c, budget, frame, n)) <==>
        && B.Messages(c.budgeted.history) == B.Messages(tail)
        && forall e <- tail :: e in c.budgeted.history || B.NamedOutside(i, c.budgeted, e)
  {
    AssemblyTakenIff(k, log, turn, i, p, c, budget, frame, n);
    StoredHistory(k, log, turn, i);
    B.BudgetKeeps(i, p);
    B.OrdinaryAcceptedIff(i.history, i, c.budgeted);
  }

  /** In terms of what goes in, where no outside source goes by a reference of the log: with something to
      compact, exactly when the durable history is in order of sequence; otherwise exactly when what is
      kept is its end, word for word. */
  lemma ContextTakenByInput(k: Env, log: seq<Event>, turn: Id, i: B.Input, p: B.Provider, c: Composed, budget: Option<Provenance>, frame: string, n: Names)
    requires Stored(k, log) && Refers(k) && Awaits(k, Replay(k, log).value, turn, i, c, budget, n)
    requires B.Budget(i, p) == Ok(c.budgeted) && B.Apart(i)
    ensures var s := Replay(k, log).value; var h := DurableHistory(k, s, s.order, turn);
      Stored(k, log + ContextEvents(s, turn, i, c, budget, frame, n)) <==>
        if B.Compacts(i) then B.InSequence(h) else B.ReadsAlike(h, B.Kept(i))
  {
    AssemblyTakenIff(k, log, turn, i, p, c, budget, frame, n);
    StoredHistory(k, log, turn, i);
    B.AcceptedByInput(i, p);
  }
}
