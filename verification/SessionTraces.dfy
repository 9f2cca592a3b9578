/** Logs that the session fold accepts and that its drivers or its ledger then trip over. */
module SessionTraces {
  import opened Outcomes
  import opened SessionFold
  import opened SessionStream
  import opened SessionRows
  import opened W = SessionWorkflow
  import P = SessionSettle
  import N = SessionContinuation
  import C = SessionContext
  import B = ContextBudget
  import O = Ordering

  const Sp := Spec("s", None, true, "p", "m", Limits(1, 1, 1, 1))

  /** The state after one more event, which leaves all but these parts to `next`. */
  function After(next: State, sequence: int, ids: set<Id>): State {
    next.(session := Some("s"), current := sequence, seen := ids)
  }

  lemma {:induction false} Chain(k: Env, log: seq<Event>, states: seq<State>)
    requires |states| == |log| + 1 && states[0] == Start
    requires forall n :: 0 <= n < |log| ==> Apply(k, states[n], log[n]) == Ok(states[n + 1])
    ensures Reaches(k, log, states[|log|], SEAL)
    decreases |log|
  {
    if log == [] {
      ReachesIs(k, [], Start, SEAL);
    } else {
      var n := |log| - 1;
      Chain(k, log[..n], states[..n + 1]);
      ReachPush(k, log[..n], states[n], log[n], states[n + 1]);
      assert log[..n] + [log[n]] == log;
    }
  }

  const Creation: Event := Event("1", "s", 1, 0, Created(Sp))

  function Born(): State { After(Start.(spec := Some(Sp)), 1, {"1"}) }

  lemma CreatedStep(k: Env)
    ensures Apply(k, Start, Creation) == Ok(Born())
  {
    assert {} + {"1"} == {"1"};
    assert Start.seen + {"1"} == {"1"};
  }

  // ---------------------------------------------------------------- a phase after the release

  const Ch: seq<Id> := ["c"]

  const ReleasedLog: seq<Event> := [
    Creation,
    Event("2", "s", 2, 0, ChildAttached("c")),
    Event("3", "s", 3, 0, Reserved("w", "d", "r", 9, 1, Ch)),
    Event("4", "s", 4, 0, Released("w", "d", "3", RunCancelled)),
    Event("5", "s", 5, 0, PhaseCheckpointed("w", "d", "3", "p", ["a"], Ch))]

  function Held(released: Option<RunStatus>): State {
    Start.(spec := Some(Sp), children := Ch, reserved := ["w"],
           reservations := map["w" := Reservation("w", "d", "r", 9, "3", 1, Ch, released)])
  }

  function ReleasedStates(): seq<State> {
    [Start,
     Born(),
     After(Start.(spec := Some(Sp), children := Ch), 2, {"1", "2"}),
     After(Held(None), 3, {"1", "2", "3"}),
     After(Held(Some(RunCancelled)), 4, {"1", "2", "3", "4"}),
     After(Held(Some(RunCancelled)).(workflows := map["w" := Workflow("d", ["p"])], checkpoints := [Checkpoint("w", Some(["a"]), "5")]),
           5, {"1", "2", "3", "4", "5"})]
  }

  lemma AttachedStep(k: Env)
    ensures Apply(k, ReleasedStates()[1], ReleasedLog[1]) == Ok(ReleasedStates()[2])
  {
    assert {"1"} + {"2"} == {"1", "2"};
    assert [] + ["c"] == Ch;
  }

  lemma ReservedStep(k: Env)
    ensures Apply(k, ReleasedStates()[2], ReleasedLog[2]) == Ok(ReleasedStates()[3])
  {
    var s := Enter(ReleasedStates()[2], ReleasedLog[2]);
    assert ReservedSteps(s, s.reserved) == 0 && LegacySteps(s, s.checkpoints) == 0;
    assert Ch[1..] == [] && NewChildren(s, Ch) == 0;
    assert {"1", "2"} + {"3"} == {"1", "2", "3"};
    assert s.reserved + ["w"] == ["w"];
  }

  lemma ReleasedStep(k: Env)
    ensures Apply(k, ReleasedStates()[3], ReleasedLog[3]) == Ok(ReleasedStates()[4])
  {
    assert {"1", "2", "3"} + {"4"} == {"1", "2", "3", "4"};
    var r := Held(None).reservations["w"];
    assert Held(None).reservations["w" := r.(released := Some(RunCancelled))] == Held(Some(RunCancelled)).reservations;
  }

  lemma PhaseStep(k: Env)
    ensures Apply(k, ReleasedStates()[4], ReleasedLog[4]) == Ok(ReleasedStates()[5])
  {
    var s := Enter(ReleasedStates()[4], ReleasedLog[4]);
    assert PhaseSteps(s.checkpoints, "w") == 0 && s.children[0] == "c";
    assert {"1", "2", "3", "4"} + {"5"} == {"1", "2", "3", "4", "5"};
    assert s.checkpoints + [Checkpoint("w", Some(["a"]), "5")] == [Checkpoint("w", Some(["a"]), "5")];
    assert Workflow("d", []).phases + ["p"] == ["p"];
    assert s.workflows["w" := Workflow("d", ["p"])] == map["w" := Workflow("d", ["p"])];
  }

  /** A workflow is cancelled and released, and its run goes on to record a phase. */
  lemma PhaseAfterRelease(k: Env)
    ensures Stored(k, ReleasedLog) && ReleasedLog[3].body.Released? && ReleasedLog[4].body.PhaseCheckpointed?
    ensures Replay(k, ReleasedLog).value.reservations["w"].released == Some(RunCancelled) && Recorded(Replay(k, ReleasedLog).value, "w", "p")
  {
    CreatedStep(k);
    AttachedStep(k);
    ReservedStep(k);
    ReleasedStep(k);
    PhaseStep(k);
    Chain(k, ReleasedLog, ReleasedStates());
    ReachesIs(k, ReleasedLog, ReleasedStates()[5], SEAL);
  }

  // ---------------------------------------------------------------- turns and their first steps

  const In: B.Message := B.Message(B.User, "i")

  const Sys: B.Message := B.Message(B.System, "y")

  function Ask(id: Id): Request { Request(id, "p", "m", "f", [Plain(Sys), Plain(In)]) }

  function Fresh(turn: Id, input: Id, sequence: int): Turn {
    Turn(turn, In, input, sequence, None, "", None, [], [], [], [], map[], None, [])
  }

  function Asked(t: Turn, r: Request, event: Id): Turn { t.(request := Some(r), requestEvent := event) }

  function Started(t: Turn, step: Id, r: Request, event: Id): Turn {
    t.(steps := [ModelStep(step, r, event, [t.requestEvent], [], [], 2, None)])
  }

  /** The event follows the state. */
  predicate Goes(s: State, e: Event) {
    s.spec == Some(Sp) && s.session == Some("s") && s.ending.None? && e.session == "s" && e.sequence == s.current + 1 && s.current > 0
  }

  function Then(s: State, e: Event): State { s.(session := Some(e.session), current := e.sequence, seen := s.seen + {e.id}) }

  lemma TurnTaken(k: Env, s: State, e: Event, turn: Id)
    requires Goes(s, e) && e.body == TurnStarted(turn, In) && turn !in s.turns
    ensures Apply(k, s, e) == Ok(Then(s, e).(turns := s.turns[turn := Fresh(turn, e.id, e.sequence)], order := s.order + [turn]))
  {
  }

  /** A request that shows no history is always in order. */
  lemma AskTaken(k: Env, s: State, e: Event, turn: Id, r: Id, budget: Option<Provenance>)
    requires Goes(s, e) && turn in s.turns && |r| <= MAX_IDENTIFIER
    requires var t := s.turns[turn]; t.input == In && t.request.None? && t.contextCompaction.None?
    requires e.body == Assembled(turn, Ask(r), {k.eventRef(s.turns[turn].inputEvent)}, false, budget)
    ensures Apply(k, s, e) == Ok(Then(s, e).(turns := s.turns[turn := Asked(s.turns[turn], Ask(r), e.id).(budget := budget)]))
  {
    var z, ms := Enter(s, e), Ask(r).messages;
    assert ms[1..|ms| - 1] == [];
    var durable := DurableHistory(k, z, z.order, turn);
    assert B.Messages(B.Tail(durable, 0)) == [];
    assert B.ContextOk(durable, [], e.body.refs, None, "");
  }

  lemma FirstStepTaken(k: Env, s: State, e: Event, turn: Id, step: Id)
    requires Goes(s, e) && turn in s.turns
    requires var t := s.turns[turn];
      t.request.Some? && RequestOk(t.request.value) && t.request.value.provider == "p" && t.request.value.model == "m" && t.steps == [] && t.requestEvent in s.seen
    requires e.body == StepStarted(turn, step, s.turns[turn].request.value, [s.turns[turn].requestEvent])
    ensures Apply(k, s, e) == Ok(Then(s, e).(turns := s.turns[turn := Started(s.turns[turn], step, s.turns[turn].request.value, e.id)]))
  {
    var t := s.turns[turn];
    assert t.steps + [ModelStep(step, t.request.value, e.id, [t.requestEvent], [], [], 2, None)]
        == [ModelStep(step, t.request.value, e.id, [t.requestEvent], [], [], 2, None)];
  }

  // ---------------------------------------------------------------- one step id in two turns

  const Stop: Cancellation := Cancellation("r", true, ByUser)

  function TwinsLog(k: Env): seq<Event> {
    [Creation,
     Event("2", "s", 2, 0, TurnStarted("t", In)),
     Event("3", "s", 3, 0, Assembled("t", Ask("q"), {k.eventRef("2")}, false, None)),
     Event("4", "s", 4, 0, StepStarted("t", "a", Ask("q"), ["3"])),
     Event("5", "s", 5, 0, TurnStarted("u", In)),
     Event("6", "s", 6, 0, Assembled("u", Ask("q"), {k.eventRef("5")}, false, None)),
     Event("7", "s", 7, 0, StepStarted("u", "a", Ask("q"), ["6"])),
     Event("8", "s", 8, 0, CancelRequested(Stop))]
  }

  function OpenTurn(turn: Id, input: Id, sequence: int, asked: Id, event: Id, budget: Option<Provenance>): Turn {
    Started(Asked(Fresh(turn, input, sequence), Ask("q"), asked).(budget := budget), "a", Ask("q"), event)
  }

  /** The state with one more turn, assembled and with its first step open. */
  function WithTurn(s: State, a: Event, b: Event, c: Event, turn: Id, budget: Option<Provenance>): State {
    s.(session := Some("s"), current := c.sequence, seen := s.seen + {a.id} + {b.id} + {c.id}, order := s.order + [turn],
       turns := s.turns[turn := OpenTurn(turn, a.id, a.sequence, b.id, c.id, budget)])
  }

  lemma {:induction false} OneTurn(k: Env, s: State, a: Event, b: Event, c: Event, turn: Id, budget: Option<Provenance>)
    requires Goes(s, a) && turn !in s.turns && a.body == TurnStarted(turn, In)
    requires b.session == "s" && b.sequence == a.sequence + 1 && b.body == Assembled(turn, Ask("q"), {k.eventRef(a.id)}, false, budget)
    requires c.session == "s" && c.sequence == b.sequence + 1 && c.body == StepStarted(turn, "a", Ask("q"), [b.id])
    ensures Apply(k, s, a).Ok? && Apply(k, Apply(k, s, a).value, b).Ok?
    ensures Apply(k, Apply(k, Apply(k, s, a).value, b).value, c)
      == Ok(WithTurn(s, a, b, c, turn, budget))
  {
    TurnTaken(k, s, a, turn);
    var y := Apply(k, s, a).value;
    AskTaken(k, y, b, turn, "q", budget);
    var z := Apply(k, y, b).value;
    FirstStepTaken(k, z, c, turn, "a");
    SetThrice(s.turns, turn, Fresh(turn, a.id, a.sequence), Asked(Fresh(turn, a.id, a.sequence), Ask("q"), b.id).(budget := budget),
              OpenTurn(turn, a.id, a.sequence, b.id, c.id, budget));
  }

  lemma SetThrice(m: map<Id, Turn>, id: Id, a: Turn, b: Turn, c: Turn)
    ensures m[id := a][id := b][id := c] == m[id := c]
  {
  }

  lemma TurnReached(k: Env, log: seq<Event>, s: State, a: Event, b: Event, c: Event, turn: Id, budget: Option<Provenance>)
    requires Reaches(k, log, s, SEAL)
    requires Goes(s, a) && turn !in s.turns && a.body == TurnStarted(turn, In)
    requires b.session == "s" && b.sequence == a.sequence + 1 && b.body == Assembled(turn, Ask("q"), {k.eventRef(a.id)}, false, budget)
    requires c.session == "s" && c.sequence == b.sequence + 1 && c.body == StepStarted(turn, "a", Ask("q"), [b.id])
    ensures Reaches(k, log + [a, b, c], WithTurn(s, a, b, c, turn, budget), SEAL)
  {
    OneTurn(k, s, a, b, c, turn, budget);
    var y := Apply(k, s, a).value;
    var z := Apply(k, y, b).value;
    ReachPush(k, log, s, a, y);
    ReachPush(k, log + [a], y, b, z);
    ReachPush(k, log + [a] + [b], z, c, WithTurn(s, a, b, c, turn, budget));
    assert log + [a] + [b] + [c] == log + [a, b, c];
  }

  function OneOpen(): State {
    Born().(current := 4, seen := {"1", "2", "3", "4"}, order := ["t"], turns := map["t" := OpenTurn("t", "2", 2, "3", "4", None)])
  }

  function TwoOpen(): State {
    Born().(current := 7, seen := {"1", "2", "3", "4", "5", "6", "7"}, order := ["t", "u"],
            turns := map["t" := OpenTurn("t", "2", 2, "3", "4", None), "u" := OpenTurn("u", "5", 5, "6", "7", None)])
  }

  function Doomed(): State { TwoOpen().(current := 8, seen := TwoOpen().seen + {"8"}, cancellation := Some(Stop)) }

  lemma OneOpenIs(a: Event, b: Event, c: Event)
    requires a.id == "2" && b.id == "3" && c.id == "4" && a.sequence == 2 && c.sequence == 4
    ensures WithTurn(Born(), a, b, c, "t", None) == OneOpen()
  {
    assert Born().seen + {"2"} + {"3"} + {"4"} == OneOpen().seen && Born().order + ["t"] == ["t"];
    assert Born().turns["t" := OpenTurn("t", "2", 2, "3", "4", None)] == OneOpen().turns;
  }

  lemma TwoOpenIs(a: Event, b: Event, c: Event)
    requires a.id == "5" && b.id == "6" && c.id == "7" && a.sequence == 5 && c.sequence == 7
    ensures WithTurn(OneOpen(), a, b, c, "u", None) == TwoOpen()
  {
    assert OneOpen().seen + {"5"} + {"6"} + {"7"} == TwoOpen().seen && OneOpen().order + ["u"] == ["t", "u"];
    assert OneOpen().turns["u" := OpenTurn("u", "5", 5, "6", "7", None)] == TwoOpen().turns;
  }

  lemma BornReached(k: Env)
    ensures Reaches(k, [Creation], Born(), SEAL)
  {
    CreatedStep(k);
    ReachesIs(k, [], Start, SEAL);
    ReachPush(k, [], Start, Creation, Born());
    assert [] + [Creation] == [Creation];
  }

  lemma OneReached(k: Env)
    ensures var l := TwinsLog(k); Reaches(k, [Creation] + [l[1], l[2], l[3]], OneOpen(), SEAL)
  {
    var l := TwinsLog(k);
    BornReached(k);
    TurnReached(k, [Creation], Born(), l[1], l[2], l[3], "t", None);
    OneOpenIs(l[1], l[2], l[3]);
  }

  lemma TwoReached(k: Env)
    ensures Reaches(k, TwinsLog(k)[..7], TwoOpen(), SEAL)
  {
    var l := TwinsLog(k);
    OneReached(k);
    TurnReached(k, [Creation] + [l[1], l[2], l[3]], OneOpen(), l[4], l[5], l[6], "u", None);
    TwoOpenIs(l[4], l[5], l[6]);
    assert [Creation] + [l[1], l[2], l[3]] + [l[4], l[5], l[6]] == l[..7];
  }

  lemma TwinsReached(k: Env)
    ensures Reaches(k, TwinsLog(k), Doomed(), SEAL)
  {
    var l := TwinsLog(k);
    TwoReached(k);
    CancelTaken(k, TwoOpen(), l[7]);
    ReachPush(k, l[..7], TwoOpen(), l[7], Doomed());
    assert l[..7] + [l[7]] == l;
  }

  lemma CancelTaken(k: Env, s: State, e: Event)
    requires Goes(s, e) && e.body == CancelRequested(Stop) && s.cancellation.None?
    ensures Apply(k, s, e) == Ok(Then(s, e).(cancellation := Some(Stop)))
  {
  }

  lemma TwinsStored(k: Env)
    ensures Stored(k, TwinsLog(k)) && P.Cancellable(k, TwinsLog(k), ["t", "u"], []) && Replay(k, TwinsLog(k)) == Ok(Doomed())
  {
    TwinsReached(k);
    ReachesIs(k, TwinsLog(k), Doomed(), SEAL);
    TwinsUnique(k);
    DoomedListed(Doomed());
  }

  lemma TwinsUnique(k: Env)
    ensures UniqueIds(TwinsLog(k))
  {
  }

  lemma DoomedListed(s: State)
    requires s == Doomed()
    ensures P.OnceEach(["t", "u"]) && forall t :: t in ["t", "u"] <==> t in s.turns
    ensures s.invocations == map[] && s.ending.None? && s.cancellation.Some?
  {
  }

  /** Both turns are cancelled under one step id: whatever the ids are derived with, the ledger refuses
      the pass. */
  lemma TwinsRefused(k: Env, derive: P.Identity -> Id, at: int -> int)
    requires P.Renders(k) && P.Injective(derive)
    ensures Stored(k, TwinsLog(k)) && P.Cancellable(k, TwinsLog(k), ["t", "u"], [])
    ensures var s := Replay(k, TwinsLog(k)).value;
      && (forall m :: 0 <= m < 2 ==> ["t", "u"][m] in s.turns) && P.AllOpen(s, P.Works(s, ["t", "u"])) && P.AllPending(s, P.PendingTools(s, []))
      && !Stored(k, TwinsLog(k) + P.SettleEvents(k, s, ["t", "u"], [], P.DerivedNames(s, [], derive), at))
  {
    TwinsStored(k);
    P.LedgerTakesPassIff(k, TwinsLog(k), ["t", "u"], [], derive, at);
    BothOpen(Doomed());
  }

  lemma BothOpen(s: State)
    requires s == Doomed()
    ensures P.Works(s, ["t", "u"]) == [P.StepWork("t", 0), P.StepWork("u", 0)] && P.AllOpen(s, P.Works(s, ["t", "u"]))
    ensures P.Twins(s, P.Works(s, ["t", "u"]), [])
  {
    var ws := [P.StepWork("t", 0), P.StepWork("u", 0)];
    assert P.TurnWorks(s, "t", 1) == [] && P.TurnWorks(s, "u", 1) == [];
    assert P.TurnWorks(s, "t", 0) == [ws[0]] && P.TurnWorks(s, "u", 0) == [ws[1]];
    assert ["t", "u"][1..] == ["u"] && ["u"][1..] == [];
    assert P.Works(s, []) == [] && P.Works(s, ["u"]) == [ws[1]] && P.Works(s, ["t", "u"]) == ws;
    assert P.Open(s, ws[0]) && P.Open(s, ws[1]);
    assert ws[0].StepWork? && ws[1].StepWork? && P.WorkIdentity(s, ws[0]) == P.WorkIdentity(s, ws[1]);
  }

  // ---------------------------------------------------------------- a durable compaction that is not made again

  const Prov: Provenance := Provenance("v", "h", "m")

  const Delta: ModelEvent := ModelEvent("p", "q", 0, ToolDelta("c", Some("n"), "{}"), "x")

  const AskTools: ModelEvent := ModelEvent("p", "q", 1, Completed(ToolCalls, "r"), "x")

  const Done: Outcome := Outcome("i", "t", "c", "n", "succeeded", None, "b")

  const Short: seq<Msg> := [ToolResult("n", "c", "z")]

  function CompactedLog(k: Env, input: string): seq<Event> {
    [Creation,
     Event("2", "s", 2, 0, TurnStarted("t", In)),
     Event("3", "s", 3, 0, Assembled("t", Ask("q"), {k.eventRef("2")}, false, Some(Prov))),
     Event("4", "s", 4, 0, StepStarted("t", "a", Ask("q"), ["3"])),
     Event("5", "s", 5, 0, Streamed("t", Some("a"), "p", Delta)),
     Event("6", "s", 6, 0, Streamed("t", Some("a"), "p", AskTools)),
     Event("7", "s", 7, 0, ToolStarted("t", "a", "i", "c", "n", input)),
     Event("8", "s", 8, 0, ToolCompleted("t", "a", Done)),
     Event("9", "s", 9, 0, ToolsCompacted("t", "k", "h", Prov, [Source("8", 8, ToolResult("n", "c", k.render(Done)))], Short))]
  }

  function Budgeted(): State {
    Born().(current := 4, seen := {"1", "2", "3", "4"}, order := ["t"], turns := map["t" := OpenTurn("t", "2", 2, "3", "4", Some(Prov))])
  }

  lemma BudgetedReached(k: Env, input: string)
    ensures Reaches(k, CompactedLog(k, input)[..4], Budgeted(), SEAL)
  {
    var l := CompactedLog(k, input);
    BornReached(k);
    TurnReached(k, [Creation], Born(), l[1], l[2], l[3], "t", Some(Prov));
    assert Born().seen + {"2"} + {"3"} + {"4"} == Budgeted().seen && Born().order + ["t"] == ["t"];
    assert Born().turns["t" := OpenTurn("t", "2", 2, "3", "4", Some(Prov))] == Budgeted().turns;
    assert [Creation] + [l[1], l[2], l[3]] == l[..4];
  }

  /** The turn's only step, and its stream, after the first events of it. */
  function Streaming(events: seq<ModelEvent>, ids: seq<Id>, sequences: seq<int>, bytes: nat, terminal: Option<Id>): Turn {
    OpenTurn("t", "2", 2, "3", "4", Some(Prov)).(events := events, eventIds := ids, eventSequences := sequences,
      steps := [ModelStep("a", Ask("q"), "4", ["3"], events, ids, bytes, terminal)])
  }

  function Streams(t: Turn, sequence: int, ids: set<Id>): State {
    Budgeted().(current := sequence, seen := ids, turns := map["t" := t])
  }

  function One(): State { Streams(Streaming([Delta], ["5"], [5], 3, None), 5, {"1", "2", "3", "4", "5"}) }

  function Two(): State { Streams(Streaming([Delta, AskTools], ["5", "6"], [5, 6], 5, Some("6")), 6, {"1", "2", "3", "4", "5", "6"}) }

  lemma DeltaTaken(k: Env, input: string)
    ensures Apply(k, Budgeted(), CompactedLog(k, input)[4]) == Ok(One())
  {
    var s, e := Enter(Budgeted(), CompactedLog(k, input)[4]), CompactedLog(k, input)[4];
    var t := s.turns["t"];
    assert StepIndex(t.steps, "a") == 0;
    assert [] + [Delta] == [Delta] && [] + ["5"] == ["5"] && |Delta.text| == 1;
    assert PushEvent(t.steps[0], Delta, "5") == Streaming([Delta], ["5"], [5], 3, None).steps[0];
    assert t.steps[0 := PushEvent(t.steps[0], Delta, "5")] == Streaming([Delta], ["5"], [5], 3, None).steps;
    assert RecordStream(t, e).(steps := t.steps[0 := PushEvent(t.steps[0], Delta, "5")]) == Streaming([Delta], ["5"], [5], 3, None);
    assert s.turns["t" := Streaming([Delta], ["5"], [5], 3, None)] == One().turns;
    assert s.seen + {"5"} == One().seen;
  }

  lemma EndTaken(k: Env, input: string)
    ensures Apply(k, One(), CompactedLog(k, input)[5]) == Ok(Two())
  {
    var s, e := Enter(One(), CompactedLog(k, input)[5]), CompactedLog(k, input)[5];
    var t, next := s.turns["t"], Streaming([Delta, AskTools], ["5", "6"], [5, 6], 5, Some("6"));
    assert StepIndex(t.steps, "a") == 0;
    assert [Delta] + [AskTools] == [Delta, AskTools] && ["5"] + ["6"] == ["5", "6"] && |AskTools.text| == 1;
    assert PushEvent(t.steps[0], AskTools, "6") == next.steps[0];
    assert t.steps[0 := PushEvent(t.steps[0], AskTools, "6")] == next.steps;
    assert RecordStream(t, e).(steps := t.steps[0 := PushEvent(t.steps[0], AskTools, "6")]) == next;
    assert s.turns["t" := next] == Two().turns;
    assert s.seen + {"6"} == Two().seen;
  }

  lemma CallsAre(k: Env, input: string)
    requires k.parse("{}") == Some(input)
    ensures AssembledCalls(k, [Delta, AskTools]) == Some([Call("c", "n", input)])
  {
    var events := [Delta, AskTools];
    assert events[..1] == [Delta] && [Delta][..0] == [];
    var calls := [Partial("c", Some("n"), "{}")];
    assert "" + "{}" == "{}" && [] + [Partial("c", Some("n"), "{}")] == calls;
    assert IndexOf([], "c") == -1 && Gather([], Delta.kind) == Some(calls);
    assert GatherAll([]) == Some([]) && GatherAll([Delta]) == Some(calls);
    assert calls[..0] == [] && ParseCalls(k, []) == Some([]);
    assert [] + [Call("c", "n", input)] == [Call("c", "n", input)];
  }

  function Ran(input: string, outcome: Option<Outcome>, event: Option<Id>, sequence: int): Execution {
    Execution("i", "t", "a", "c", "n", input, "7", outcome, event, sequence)
  }

  function Calling(input: string, x: Execution, compactions: seq<ToolCompaction>, seen: seq<Seen>, sequence: int, ids: set<Id>): State {
    Two().(current := sequence, seen := ids, invocations := map["i" := x], compactions := seen,
           turns := map["t" := Two().turns["t"].(executions := map["c" := "i"], toolCompactions := compactions)])
  }

  function Three(input: string): State { Calling(input, Ran(input, None, None, 0), [], [], 7, Two().seen + {"7"}) }

  function Four(input: string): State { Calling(input, Ran(input, Some(Done), Some("8"), 8), [], [], 8, Two().seen + {"7"} + {"8"}) }

  function Five(k: Env, input: string): State {
    Calling(input, Ran(input, Some(Done), Some("8"), 8), [ToolCompaction("9", [Source("8", 8, ToolResult("n", "c", k.render(Done)))], Short)],
            [Seen("k", "h", "t", false, ["8"])], 9, Two().seen + {"7"} + {"8"} + {"9"})
  }

  lemma CallTaken(k: Env, input: string)
    requires k.parse("{}") == Some(input)
    ensures Apply(k, Two(), CompactedLog(k, input)[6]) == Ok(Three(input))
  {
    var s, e := Enter(Two(), CompactedLog(k, input)[6]), CompactedLog(k, input)[6];
    CallsAre(k, input);
    assert StepIndex(s.turns["t"].steps, "a") == 0;
    assert FindCall([Call("c", "n", input)], "c") == Some(Call("c", "n", input));
    assert s.turns["t"].executions["c" := "i"] == map["c" := "i"];
    assert s.turns["t" := s.turns["t"].(executions := map["c" := "i"])] == Three(input).turns;
    assert s.invocations["i" := Ran(input, None, None, 0)] == map["i" := Ran(input, None, None, 0)];
  }

  lemma OutcomeTaken(k: Env, input: string)
    ensures Apply(k, Three(input), CompactedLog(k, input)[7]) == Ok(Four(input))
  {
    var s := Enter(Three(input), CompactedLog(k, input)[7]);
    assert s.turns["t"].executions["c" := "i"] == map["c" := "i"];
    assert s.turns["t" := s.turns["t"]] == Four(input).turns;
    assert s.invocations["i" := Ran(input, Some(Done), Some("8"), 8)] == map["i" := Ran(input, Some(Done), Some("8"), 8)];
  }

  lemma OutcomesAre(k: Env, s: State, input: string)
    requires s.turns == Four(input).turns && s.invocations == Four(input).invocations
    ensures ExecutionsOf(s, s.turns["t"], [Call("c", "n", input)]) == Some([Ran(input, Some(Done), Some("8"), 8)])
    ensures OutcomeSources(k, [Ran(input, Some(Done), Some("8"), 8)]) == [Source("8", 8, ToolResult("n", "c", k.render(Done)))]
  {
    var calls := [Call("c", "n", input)];
    assert calls[..0] == [] && ExecutionsOf(s, s.turns["t"], []) == Some([]);
    assert [] + [Ran(input, Some(Done), Some("8"), 8)] == [Ran(input, Some(Done), Some("8"), 8)];
  }

  lemma RecordTaken(k: Env, input: string)
    requires k.parse("{}") == Some(input)
    ensures Apply(k, Four(input), CompactedLog(k, input)[8]) == Ok(Five(k, input))
  {
    var s, e := Enter(Four(input), CompactedLog(k, input)[8]), CompactedLog(k, input)[8];
    CallsAre(k, input);
    OutcomesAre(k, s, input);
    assert SourceIds(e.body.results) == ["8"];
    assert s.turns["t"].toolCompactions + [ToolCompaction("9", e.body.results, Short)] == [ToolCompaction("9", e.body.results, Short)];
    assert s.compactions + [Seen("k", "h", "t", false, ["8"])] == Five(k, input).compactions;
    assert s.turns["t" := s.turns["t"].(toolCompactions := [ToolCompaction("9", e.body.results, Short)])] == Five(k, input).turns;
  }

  lemma CompactedReached(k: Env, input: string)
    requires k.parse("{}") == Some(input)
    ensures Reaches(k, CompactedLog(k, input), Five(k, input), SEAL)
  {
    var l := CompactedLog(k, input);
    StreamReached(k, input);
    CallTaken(k, input);
    ReachPush(k, l[..6], Two(), l[6], Three(input));
    OutcomeTaken(k, input);
    ReachPush(k, l[..6] + [l[6]], Three(input), l[7], Four(input));
    RecordTaken(k, input);
    ReachPush(k, l[..6] + [l[6]] + [l[7]], Four(input), l[8], Five(k, input));
    assert l[..6] + [l[6]] + [l[7]] + [l[8]] == l;
  }

  lemma StreamReached(k: Env, input: string)
    ensures Reaches(k, CompactedLog(k, input)[..6], Two(), SEAL)
  {
    var l := CompactedLog(k, input);
    BudgetedReached(k, input);
    DeltaTaken(k, input);
    ReachPush(k, l[..4], Budgeted(), l[4], One());
    EndTaken(k, input);
    ReachPush(k, l[..4] + [l[4]], One(), l[5], Two());
    assert l[..4] + [l[4]] + [l[5]] == l[..6];
  }

  lemma CompactedUnique(k: Env, input: string)
    ensures UniqueIds(CompactedLog(k, input))
  {
  }

  lemma FiveContinues(k: Env, input: string)
    requires k.parse("{}") == Some(input)
    ensures N.Continues(k, Five(k, input), "t", [Call("c", "n", input)])
    ensures N.Durable(Five(k, input), "t", [Call("c", "n", input)]).Some?
  {
    CallsAre(k, input);
    var s, calls := Five(k, input), [Call("c", "n", input)];
    assert N.DriverIds(s, s.turns["t"], calls) == ["8"];
    assert SourceIds(s.turns["t"].toolCompactions[0].sources) == ["8"];
  }

  /** A compaction is durable, and then the profile or the assessment of pressure changes: the next step
      that the driver starts is refused. */
  lemma ChangedPolicyRefused(k: Env, input: string, p: N.Policy, n: N.Names, at: int)
    requires k.parse("{}") == Some(input) && !p.Compacts()
    requires n.event !in Five(k, input).seen && n.step != "a" && n.request != "q" && |n.request| <= MAX_IDENTIFIER
    ensures var log, calls := CompactedLog(k, input), [Call("c", "n", input)];
      && Stored(k, log) && N.Continues(k, Replay(k, log).value, "t", calls)
      && N.LastStep(Replay(k, log).value, "t").terminal.Some?
      && !Stored(k, log + [N.StartEvent(k, Replay(k, log).value, "t", calls, p, n, at)])
  {
    var log, calls, s := CompactedLog(k, input), [Call("c", "n", input)], Five(k, input);
    CompactedReached(k, input);
    ReachesIs(k, log, s, SEAL);
    CompactedUnique(k, input);
    FiveContinues(k, input);
    assert StepIndex(s.turns["t"].steps, n.step) < 0;
    N.StepTakenIff(k, log, "t", calls, p, n, at);
  }

  // ---------------------------------------------------------------- a turn that settles after a later one began

  const Word: ModelEvent := ModelEvent("p", "q", 0, Content("a"), "x")

  const Finish: ModelEvent := ModelEvent("p", "q", 1, Completed(FinishReason.Stop, "r"), "x")

  function OverlapLog(k: Env): seq<Event> {
    [Creation,
     Event("2", "s", 2, 0, TurnStarted("t", In)),
     Event("3", "s", 3, 0, TurnStarted("u", In)),
     Event("4", "s", 4, 0, Assembled("t", Ask("q"), {k.eventRef("2")}, false, None)),
     Event("5", "s", 5, 0, Streamed("t", None, "p", Word)),
     Event("6", "s", 6, 0, Streamed("t", None, "p", Finish)),
     Event("7", "s", 7, 0, TurnStarted("v", In))]
  }

  /** The first turn, as far as it has got, and the second, which only began. */
  function Overlapping(t: Turn, sequence: int, ids: set<Id>): State {
    Born().(current := sequence, seen := ids, order := ["t", "u"], turns := map["t" := t, "u" := Fresh("u", "3", 3)])
  }

  function Answered(events: seq<ModelEvent>, ids: seq<Id>, sequences: seq<int>): Turn {
    Asked(Fresh("t", "2", 2), Ask("q"), "4").(events := events, eventIds := ids, eventSequences := sequences)
  }

  function Begun(): State { Born().(current := 2, seen := {"1", "2"}, order := ["t"], turns := map["t" := Fresh("t", "2", 2)]) }

  function BothBegun(): State { Overlapping(Fresh("t", "2", 2), 3, {"1", "2", "3"}) }

  function FirstAsked(): State { Overlapping(Answered([], [], []), 4, {"1", "2", "3", "4"}) }

  function FirstSpeaks(): State { Overlapping(Answered([Word], ["5"], [5]), 5, {"1", "2", "3", "4", "5"}) }

  function FirstDone(): State { Overlapping(Answered([Word, Finish], ["5", "6"], [5, 6]), 6, {"1", "2", "3", "4", "5", "6"}) }

  function ThirdBegun(): State {
    FirstDone().(current := 7, seen := {"1", "2", "3", "4", "5", "6", "7"}, order := ["t", "u", "v"],
                 turns := FirstDone().turns["v" := Fresh("v", "7", 7)])
  }

  lemma BeginReached(k: Env)
    ensures Reaches(k, [Creation] + [OverlapLog(k)[1]], Begun(), SEAL)
  {
    var l := OverlapLog(k);
    BornReached(k);
    TurnTaken(k, Born(), l[1], "t");
    assert Born().turns["t" := Fresh("t", "2", 2)] == Begun().turns && Born().order + ["t"] == ["t"] && Born().seen + {"2"} == Begun().seen;
    ReachPush(k, [Creation], Born(), l[1], Begun());
  }

  lemma BothBeginReached(k: Env)
    ensures Reaches(k, OverlapLog(k)[..3], BothBegun(), SEAL)
  {
    var l := OverlapLog(k);
    BeginReached(k);
    TurnTaken(k, Begun(), l[2], "u");
    assert Begun().turns["u" := Fresh("u", "3", 3)] == BothBegun().turns;
    assert Begun().order + ["u"] == ["t", "u"] && Begun().seen + {"3"} == BothBegun().seen;
    ReachPush(k, [Creation] + [l[1]], Begun(), l[2], BothBegun());
    assert [Creation] + [l[1]] + [l[2]] == l[..3];
  }

  lemma FirstAskedTaken(k: Env)
    ensures Apply(k, BothBegun(), OverlapLog(k)[3]) == Ok(FirstAsked())
  {
    AskTaken(k, BothBegun(), OverlapLog(k)[3], "t", "q", None);
    assert BothBegun().turns["t" := Answered([], [], [])] == FirstAsked().turns && BothBegun().seen + {"4"} == FirstAsked().seen;
  }

  lemma WordTaken(k: Env)
    ensures Apply(k, FirstAsked(), OverlapLog(k)[4]) == Ok(FirstSpeaks())
  {
    var s := FirstAsked();
    assert RecordStream(s.turns["t"], OverlapLog(k)[4]) == Answered([Word], ["5"], [5]);
    assert s.turns["t" := Answered([Word], ["5"], [5])] == FirstSpeaks().turns && s.seen + {"5"} == FirstSpeaks().seen;
  }

  lemma FinishTaken(k: Env)
    ensures Apply(k, FirstSpeaks(), OverlapLog(k)[5]) == Ok(FirstDone())
  {
    var s := FirstSpeaks();
    assert RecordStream(s.turns["t"], OverlapLog(k)[5]) == Answered([Word, Finish], ["5", "6"], [5, 6]);
    assert s.turns["t" := Answered([Word, Finish], ["5", "6"], [5, 6])] == FirstDone().turns && s.seen + {"6"} == FirstDone().seen;
  }

  lemma FirstDoneReached(k: Env)
    ensures Reaches(k, OverlapLog(k)[..6], FirstDone(), SEAL)
  {
    var l := OverlapLog(k);
    BothBeginReached(k);
    FirstAskedTaken(k);
    ReachPush(k, l[..3], BothBegun(), l[3], FirstAsked());
    WordTaken(k);
    ReachPush(k, l[..3] + [l[3]], FirstAsked(), l[4], FirstSpeaks());
    FinishTaken(k);
    ReachPush(k, l[..3] + [l[3]] + [l[4]], FirstSpeaks(), l[5], FirstDone());
    assert l[..3] + [l[3]] + [l[4]] + [l[5]] == l[..6];
  }

  lemma OverlapReached(k: Env)
    ensures Reaches(k, OverlapLog(k), ThirdBegun(), SEAL)
  {
    var l := OverlapLog(k);
    FirstDoneReached(k);
    TurnTaken(k, FirstDone(), l[6], "v");
    assert FirstDone().order + ["v"] == ["t", "u", "v"] && FirstDone().seen + {"7"} == ThirdBegun().seen;
    ReachPush(k, l[..6], FirstDone(), l[6], ThirdBegun());
    assert l[..6] + [l[6]] == l;
  }

  lemma OverlapUnique(k: Env)
    ensures UniqueIds(OverlapLog(k))
  {
  }

  /** The history for the third turn: the first turn's answer comes before the second turn's input. */
  lemma OverlapHistory(k: Env)
    ensures var s := ThirdBegun(); var h := DurableHistory(k, s, s.order, "v");
      && |h| == 3 && h[0].sequence == 2 && h[1].sequence == 6 && h[2].sequence == 3
      && h[0].id == "2" && h[1].id == "6" && h[2].id == "3"
  {
    var s := ThirdBegun();
    var t, u := s.turns["t"], s.turns["u"];
    assert t.events[..1] == [Word] && [Word][..0] == [];
    assert FirstCompleted([]) == -1 && FirstCompleted([Word]) == -1 && FirstCompleted(t.events) == 1;
    assert ContentOf([]) == "" && ContentOf([Word]) == "" + "a" && |ContentOf([Word])| == 1;
    assert |HistoryOf(k, t)| == 2 && HistoryOf(k, t)[1].sequence == 6 && HistoryOf(k, t)[1].id == "6";
    assert u.events == [] && FirstCompleted(u.events) == -1 && |HistoryOf(k, u)| == 1;
    assert ["t", "u", "v"][1..] == ["u", "v"] && ["u", "v"][1..] == ["v"];
    assert DurableHistory(k, s, ["v"], "v") == [];
    assert DurableHistory(k, s, ["u", "v"], "v") == HistoryOf(k, u) + [];
    assert DurableHistory(k, s, s.order, "v") == HistoryOf(k, t) + (HistoryOf(k, u) + []);
  }

  lemma OverlapStored(k: Env)
    ensures Stored(k, OverlapLog(k)) && Replay(k, OverlapLog(k)) == Ok(ThirdBegun())
  {
    OverlapReached(k);
    ReachesIs(k, OverlapLog(k), ThirdBegun(), SEAL);
    OverlapUnique(k);
  }

  /** However the context of the third turn is compacted, the ledger refuses it. */
  lemma OverlapCompactionRefused(k: Env, i: B.Input, p: B.Provider, c: C.Composed, budget: Option<Provenance>, frame: string, n: C.Names)
    requires C.Refers(k) && C.Awaits(k, ThirdBegun(), "v", i, c, budget, n) && B.Budget(i, p) == Ok(c.budgeted) && c.budgeted.record.Some?
    ensures Stored(k, OverlapLog(k)) && Replay(k, OverlapLog(k)) == Ok(ThirdBegun())
    ensures !Stored(k, OverlapLog(k) + C.ContextEvents(ThirdBegun(), "v", i, c, budget, frame, n))
  {
    OverlapStored(k);
    OverlapHistory(k);
    C.CompactedContextTakenIff(k, OverlapLog(k), "v", i, p, c, budget, frame, n);
  }

  // An input whose context is compacted at the first attempt: all three entries are too many, and two
  // with a replacement are not.

  function Tokens(h: seq<B.Entry>, m: seq<B.Memory>): nat { if |h| == 3 && h[0].id != "8" then 9 else 0 }

  function Overfull(k: Env): B.Input {
    B.Input(DurableHistory(k, ThirdBegun(), ThirdBegun().order, "v"), [], B.Compact, 2, 1, 2, 1, (h, m) => Tokens(h, m),
            {k.eventRef("7")}, "8", k.eventRef("8"), true, true)
  }

  const Shorten: B.Provider := (n, sources, target) => B.Replaces("z")

  lemma OverfullCompacts(k: Env)
    ensures B.Budget(Overfull(k), Shorten).Ok? && B.Budget(Overfull(k), Shorten).value.record.Some?
  {
    var i, w := Overfull(k), B.Selected(Overfull(k));
    OverfullSelects(k);
    assert ([B.Replacement(i, w, "z")] + w.retained)[0].id == "8";
    assert B.Fits(i, [B.Replacement(i, w, "z")] + w.retained, w.memory);
  }

  lemma OverfullSelects(k: Env)
    ensures var i, w := Overfull(k), B.Selected(Overfull(k));
      && |w.compacted| == 1 && |w.retained| == 2 && w.memory == [] && w.retained[0].id != "8"
      && !B.Fits(i, B.OrderedHistory(i.history), B.OrderedMemory(i.memory)) && B.Fits(i, [], [])
  {
    var i := Overfull(k);
    OverlapHistory(k);
    var h := B.OrderedHistory(i.history);
    Ordered3(i.history, h);
    assert h[0..] == h;
    assert B.Cut(i, h, 1) == 1 && B.Cut(i, h, 2) == 1 && B.Cut(i, h, 3) == 1;
    assert B.OrderedMemory(i.memory) == [];
  }

  lemma Ordered3(history: seq<B.Entry>, h: seq<B.Entry>)
    requires |history| == 3 && h == B.OrderedHistory(history) && forall e :: e in history ==> e.id != "8"
    ensures |h| == 3 && h[0].id != "8" && h[1].id != "8" && h[2].id != "8"
  {
    O.SortSame(history, B.EntryLeq);
    forall n | 0 <= n < 3 ensures h[n].id != "8" { assert h[n] in multiset(history); }
  }

  lemma OverfullAwaits(k: Env, b: B.Budgeted)
    ensures C.Awaits(k, ThirdBegun(), "v", Overfull(k), C.Composed([Sys], b), Some(Prov), C.Names("9", "k", "h", "r", 0))
  {
  }

  /** Such an input there is: its compaction is made, and refused. */
  lemma OverlapRefused(k: Env)
    requires C.Refers(k)
    ensures var i := Overfull(k); var r := B.Budget(i, Shorten);
      && Stored(k, OverlapLog(k)) && r.Ok? && r.value.record.Some?
      && !Stored(k, OverlapLog(k) + C.ContextEvents(ThirdBegun(), "v", i, C.Composed([Sys], r.value), Some(Prov), "f", C.Names("9", "k", "h", "r", 0)))
  {
    OverfullCompacts(k);
    var i := Overfull(k);
    OverfullAwaits(k, B.Budget(i, Shorten).value);
    var c := C.Composed([Sys], B.Budget(i, Shorten).value);
    OverlapCompactionRefused(k, i, Shorten, c, Some(Prov), "f", C.Names("9", "k", "h", "r", 0));
  }
}
