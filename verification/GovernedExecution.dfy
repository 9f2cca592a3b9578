/** Governed execution of one operation: facts on its stream before and after the one provider call,
    and what later callers are told.  Calls interleave, crash, and meet arbitrary answers from the
    provider, the policy and the disk. */
module GovernedExecution {
  import opened Outcomes

  type Json = string

  /** What an idempotency key is bound to. */
  datatype Content = Content(
    tool: string,
    key: string,
    digest: string,
    capability: string,
    policy: string,
    inputSchema: int,
    outputSchema: int,
    resource: Json,
    actor: Json)

  /** A request past the checks that touch no ledger.  `queued` marks `cancelQueued`. */
  datatype Request = Request(
    queued: bool,
    operation: string,
    content: Content,
    correlation: Option<string>,
    causation: Option<string>,
    readOnly: bool,
    cooperative: bool,
    needsApproval: bool,
    warnings: seq<Warning>)

  datatype Meta = Meta(operation: string, correlation: string, causation: string)

  /** The codes and messages the runtime itself writes, by name. */
  datatype Note =
    | OutcomeInDoubt | WasCancelled | DeadlineExceeded | ScopeConflict | ResultInvalid | ExecutionFailed | ProviderFailed
    | AppendLost | NoTerminal | NotSucceeded | CancelledInQueue | CancelledBefore | ExpiredBefore | NotSettled | ProviderThrew
    | LateAfterDispatch | OutputInvalid | MustHaveData | ReceiptRefEmpty | BoundElsewhere | ErrorName

  /** A code or a message: one of those, or what somebody else wrote. */
  datatype Text = Fixed(note: Note) | Custom(text: string)

  const Blank := Custom("")

  const InDoubt := Fixed(OutcomeInDoubt)

  datatype Warning = Warn(text: string) | AppendFailed(cause: string) | ReceiptRefInvalid

  datatype Phase = SchedulerQueue | PreDispatch | Dispatching

  datatype Failure = Failure(code: Text, message: Text, retryable: bool)

  datatype Fact =
    | Authorized(meta: Meta, content: Content, warnings: seq<Warning>, evidence: seq<string>)
    | Started(meta: Meta, content: Content, evidence: seq<string>)
    | Succeeded(meta: Meta, result: Json, warnings: seq<Warning>, evidence: seq<string>)
    | Failed(meta: Meta, failure: Failure, warnings: seq<Warning>, evidence: seq<string>)
    | Cancelled(meta: Meta, reason: Text, phase: Phase, warnings: seq<Warning>, evidence: seq<string>)
    | Uncertain(meta: Meta, reason: Text, warnings: seq<Warning>, evidence: seq<string>)
  {
    predicate Terminal() { Succeeded? || Failed? || Cancelled? || Uncertain? }
  }

  datatype Data = Data(operation: string, result: Json, replayed: bool)

  datatype Problem = Problem(code: Text, message: Text, operation: string, retryable: bool)

  datatype Envelope = Envelope(ok: bool, data: Option<Data>, problem: Option<Problem>, evidence: seq<string>, warnings: seq<Warning>)

  /** Anything thrown: its code and message if it has them, and its rendering as text. */
  datatype Thrown = Thrown(code: Text, message: Text, retryable: bool, text: Text)

  // ---------------------------------------------------------------- envelopes

  /** `[...new Set(xs)]` */
  function Distinct<T(==)>(xs: seq<T>): seq<T> {
    if xs == [] then []
    else
      var n := |xs| - 1;
      if xs[n] in xs[..n] then Distinct(xs[..n]) else Distinct(xs[..n]) + [xs[n]]
  }

  function FailureEnvelope(e: Thrown, operation: string, evidence: seq<string>, warnings: seq<Warning>): Envelope {
    var code := if e.code != Blank then e.code else Fixed(ExecutionFailed);
    var message := if e.message != Blank then e.message else e.text;
    Envelope(false, None, Some(Problem(code, message, operation, e.retryable)), Distinct(evidence), Distinct(warnings))
  }

  function Governed(message: Text, code: Text): Thrown {
    Thrown(code, message, false, Fixed(ErrorName))
  }

  function PersistenceFailure(operation: string, evidence: seq<string>, warnings: seq<Warning>, cause: string): Envelope {
    FailureEnvelope(
      Governed(Fixed(AppendLost), InDoubt),
      operation, evidence, warnings + [AppendFailed(cause)])
  }

  // ---------------------------------------------------------------- the stream

  function Lineage(r: Request): Meta {
    Meta(
      r.operation,
      if r.correlation.Some? && r.correlation.value != "" then r.correlation.value else r.operation,
      if r.causation.Some? && r.causation.value != "" then r.causation.value
      else (if r.queued then "scheduler-cancel:" else "request:") + r.operation)
  }

  predicate ContentOk(c: Content) {
    && c.tool != "" && c.key != "" && c.digest != "" && c.capability != "" && c.policy != ""
    && c.inputSchema >= 1 && c.outputSchema >= 1
  }

  /** What the event schemas ask of a payload. */
  predicate FactOk(f: Fact) {
    && f.meta.operation != ""
    && match f
       case Authorized(_, c, _, _) => ContentOk(c)
       case Started(_, c, _) => c.tool != "" && c.key != ""
       case Failed(_, e, _, _) => e.code != Blank && e.message != Blank
       case Cancelled(_, reason, phase, _, _) => reason != Blank
       case Uncertain(_, reason, _, _) => reason != Blank
       case Succeeded(_, _, _, _) => true
  }

  /** The ledger takes well-formed facts at the version they were made for, unless it fails. */
  predicate Takes(stream: seq<Fact>, expected: nat, facts: seq<Fact>, disk: bool) {
    disk && |stream| == expected && forall i :: 0 <= i < |facts| ==> FactOk(facts[i])
  }

  function FirstAuthorized(stream: seq<Fact>): (f: Option<Fact>)
    ensures f.Some? ==> f.value.Authorized? && f.value in stream
    ensures f.None? ==> forall i :: 0 <= i < |stream| ==> !stream[i].Authorized?
  {
    if stream == [] then None else if stream[0].Authorized? then Some(stream[0]) else FirstAuthorized(stream[1..])
  }

  function LastTerminal(stream: seq<Fact>): (f: Option<Fact>)
    ensures f.Some? ==> f.value.Terminal() && f.value in stream
    ensures f.None? ==> forall i :: 0 <= i < |stream| ==> !stream[i].Terminal()
    decreases |stream|
  {
    if stream == [] then None
    else if stream[|stream| - 1].Terminal() then Some(stream[|stream| - 1])
    else LastTerminal(stream[..|stream| - 1])
  }

  function AllEvidence(stream: seq<Fact>): seq<string> {
    if stream == [] then [] else AllEvidence(stream[..|stream| - 1]) + stream[|stream| - 1].evidence
  }

  datatype Reading = Nothing | Conflict | Replayed(envelope: Envelope)

  function ReplayOf(terminal: Fact, operation: string, evidence: seq<string>): Envelope
    requires terminal.Terminal()
  {
    match terminal
    case Succeeded(_, result, warnings, _) =>
      Envelope(true, Some(Data(operation, result, true)), None, Distinct(evidence), Distinct(warnings))
    case Failed(_, e, warnings, _) =>
      FailureEnvelope(
        Governed(if e.message != Blank then e.message else Fixed(NotSucceeded), if e.code != Blank then e.code else Fixed(ExecutionFailed))
          .(retryable := e.retryable),
        operation, evidence, warnings)
    case Cancelled(_, reason, _, warnings, _) =>
      FailureEnvelope(
        Governed(if reason != Blank then reason else Fixed(NotSucceeded), Fixed(WasCancelled)), operation, evidence, warnings)
    case Uncertain(_, reason, warnings, _) =>
      FailureEnvelope(
        Governed(if reason != Blank then reason else Fixed(NotSucceeded), InDoubt), operation, evidence, warnings)
  }

  /** `_readExisting` */
  function ReadExisting(stream: seq<Fact>, r: Request): Reading {
    if stream == [] then Nothing
    else
      var a := FirstAuthorized(stream);
      if (exists i :: 0 <= i < |stream| && stream[i].meta != Lineage(r)) || a.None? || a.value.content != r.content then Conflict
      else
        var t := LastTerminal(stream);
        if t.Some? then Replayed(ReplayOf(t.value, r.operation, AllEvidence(stream)))
        else Replayed(FailureEnvelope(
          Governed(Fixed(NoTerminal), InDoubt),
          r.operation, AllEvidence(stream), a.value.warnings))
  }

  // ---------------------------------------------------------------- one call

  /** What the provider did. */
  datatype Answer =
    | Threw(code: Option<string>, message: Option<string>, retryable: bool, receipt: Receipt, outcome: Says, late: bool)
    | NoData
    | BadMetadata(what: Text)
    | Output(evidence: seq<string>, warnings: seq<Warning>, receipt: Receipt, checked: Result<Json, Failure>)

  /** The outcome a thrown provider error claims; any other text counts as uncertain. */
  datatype Says = SaysNothing | SaysCancelled | SaysFailed | SaysOther

  datatype Receipt = NoReceipt | BadReceipt | Receipt(ref: string)
  {
    function Refs(): seq<string> { if Receipt? then [ref] else [] }
  }

  /** How a call ended. */
  datatype How = Refused | Replay | Unsettled | Settled | Overdue

  datatype Place =
    | Fresh
    | Ready
    | Begun(approval: seq<string>)
    | Running(approval: seq<string>)
    | Returned(envelope: Envelope, how: How)
    | Dead

  datatype Call = Call(request: Request, place: Place)

  function Authorization(r: Request, approval: seq<string>): Fact {
    Authorized(Lineage(r), r.content, r.warnings, approval)
  }

  function StartFacts(r: Request, approval: seq<string>): seq<Fact> {
    [Authorization(r, approval), Started(Lineage(r), r.content, [])]
  }

  function QueueCancelled(r: Request): Fact {
    Cancelled(Lineage(r), Fixed(CancelledInQueue), SchedulerQueue, r.warnings, [])
  }

  /** The terminal fact of a provider answer, the envelope returned once it is stored, and the
      evidence and warnings reported when it cannot be. */
  datatype Ending = Ending(fact: Fact, envelope: Envelope, evidence: seq<string>, warnings: seq<Warning>)

  function Doubt(r: Request, reason: Text, shown: Text, evidence: seq<string>, stored: seq<string>, warnings: seq<Warning>): Ending {
    Ending(
      Uncertain(Lineage(r), reason, warnings, stored),
      FailureEnvelope(Governed(shown, InDoubt), r.operation, evidence, warnings), evidence, warnings)
  }

  function Failing(r: Request, e: Failure, evidence: seq<string>, stored: seq<string>, warnings: seq<Warning>): Ending {
    Ending(
      Failed(Lineage(r), e, warnings, stored),
      FailureEnvelope(Governed(e.message, e.code).(retryable := e.retryable), r.operation, evidence, warnings), evidence, warnings)
  }

  function Halted(r: Request, message: Text, evidence: seq<string>, stored: seq<string>, warnings: seq<Warning>): Ending {
    Ending(
      Cancelled(Lineage(r), message, Dispatching, warnings, stored),
      FailureEnvelope(Governed(message, Fixed(WasCancelled)), r.operation, evidence, warnings), evidence, warnings)
  }

  function EndThrown(r: Request, approval: seq<string>, a: Answer): Ending
    requires a.Threw?
  {
    var e := Failure(
      if a.code.Some? then Custom(a.code.value) else Fixed(ProviderFailed),
      if a.message.Some? then Custom(a.message.value) else Fixed(ProviderThrew), a.retryable);
    var warnings := if a.receipt.BadReceipt? then r.warnings + [ReceiptRefInvalid] else r.warnings;
    var refs := a.receipt.Refs();
    var outcome := if a.late then SaysOther else if a.outcome != SaysNothing then a.outcome else if r.readOnly then SaysFailed else SaysOther;
    if outcome == SaysCancelled then
      Halted(r, e.message, approval + refs, refs, warnings)
    else if outcome == SaysFailed then Failing(r, e, approval + refs, refs, warnings)
    else
      var reason := if a.late then Fixed(LateAfterDispatch) else e.message;
      Doubt(r, reason, reason, approval + refs, refs, warnings)
  }

  function EndOutput(r: Request, approval: seq<string>, a: Answer): Ending
    requires a.Output?
  {
    var refs := a.receipt.Refs();
    var evidence, warnings := approval + a.evidence + refs, r.warnings + a.warnings;
    match a.checked
    case Ok(result) =>
      Ending(
        Succeeded(Lineage(r), result, warnings, evidence),
        Envelope(true, Some(Data(r.operation, result, false)), None, Distinct(evidence), Distinct(warnings)), evidence, warnings)
    case Err(e) =>
      if r.readOnly then Failing(r, e.(retryable := false), evidence, refs, warnings)
      else Doubt(r, Fixed(OutputInvalid), e.message, evidence, refs, warnings)
  }

  function EndInvalid(r: Request, approval: seq<string>, message: Text): Ending {
    if r.readOnly then Failing(r, Failure(Fixed(ResultInvalid), message, false), approval, [], r.warnings)
    else Doubt(r, message, message, approval, [], r.warnings)
  }

  function End(r: Request, approval: seq<string>, a: Answer): Ending {
    match a
    case Threw(_, _, _, _, _, _) => EndThrown(r, approval, a)
    case NoData => EndInvalid(r, approval, Fixed(MustHaveData))
    case BadMetadata(what) => EndInvalid(r, approval, what)
    case Output(_, _, receipt, _) =>
      if receipt.BadReceipt? then EndInvalid(r, approval, Fixed(ReceiptRefEmpty))
      else EndOutput(r, approval, a)
  }

  /** A failed projection after the terminal fact only adds a warning. */
  function Reconciled(e: Envelope, warning: Option<Warning>): Envelope {
    if warning.Some? && warning.value !in e.warnings then e.(warnings := e.warnings + [warning.value]) else e
  }

  // ---------------------------------------------------------------- all calls on one operation

  /** `dispatched` lists the calls that reached the provider; `owner` is the call whose first facts
      the ledger took. */
  datatype World = World(operation: string, stream: seq<Fact>, calls: seq<Call>, dispatched: seq<nat>, owner: Option<nat>)

  datatype Step =
    | Arrive(request: Request)
    | Read(call: nat)
    | Begin(call: nat, approval: Result<string, Thrown>, disk: bool, error: Thrown)
    | CancelQueued(call: nat, disk: bool, error: Thrown, warning: Option<Warning>)
    | Decide(call: nat, aborted: bool, clock: Result<bool, Thrown>, disk: bool, cause: string, warning: Option<Warning>)
    | Finish(call: nat, answer: Answer, disk: bool, cause: string, warning: Option<Warning>)
    | Crash(call: nat)

  function Put(w: World, c: nat, p: Place): World
    requires c < |w.calls|
  {
    w.(calls := w.calls[c := w.calls[c].(place := p)])
  }

  function AfterReading(r: Request, reading: Reading): Place {
    match reading
    case Nothing => Ready
    case Conflict =>
      Returned(
        FailureEnvelope(
          Governed(Fixed(BoundElsewhere), Fixed(ScopeConflict)),
          r.operation, [], r.warnings), Refused)
    case Replayed(e) => Returned(e, Replay)
  }

  function ReadStep(w: World, c: nat): World
    requires c < |w.calls|
  {
    Put(w, c, AfterReading(w.calls[c].request, ReadExisting(w.stream, w.calls[c].request)))
  }

  /** Consume the approval and append the start facts, in one transaction. */
  function BeginStep(w: World, c: nat, approval: Result<string, Thrown>, disk: bool, error: Thrown): World
    requires c < |w.calls|
  {
    var r := w.calls[c].request;
    if r.needsApproval && approval.Err? then Put(w, c, Returned(FailureEnvelope(approval.error, r.operation, [], r.warnings), Refused))
    else
      var evidence := if r.needsApproval then [approval.value] else [];
      if !Takes(w.stream, 0, StartFacts(r, evidence), disk)
      then Put(w, c, Returned(FailureEnvelope(error, r.operation, [], r.warnings), Refused))
      else Put(w, c, Begun(evidence)).(stream := StartFacts(r, evidence), owner := Some(c))
  }

  function CancelStep(w: World, c: nat, disk: bool, error: Thrown, warning: Option<Warning>): World
    requires c < |w.calls|
  {
    var r := w.calls[c].request;
    var facts := StartFacts(r, []) + [QueueCancelled(r)];
    if !Takes(w.stream, 0, facts, disk) then Put(w, c, Returned(FailureEnvelope(error, r.operation, [], r.warnings), Refused))
    else
      var e := FailureEnvelope(Governed(Fixed(CancelledBefore), Fixed(WasCancelled)), r.operation, [], r.warnings);
      Put(w, c, Returned(Reconciled(e, warning), Settled)).(stream := facts, owner := Some(c))
  }

  function Store(w: World, c: nat, e: Ending, how: How, warning: Option<Warning>): World
    requires c < |w.calls|
  {
    Put(w, c, Returned(Reconciled(e.envelope, warning), how)).(stream := w.stream + [e.fact])
  }

  function Lose(w: World, c: nat, e: Ending, cause: string): World
    requires c < |w.calls|
  {
    Put(w, c, Returned(PersistenceFailure(w.calls[c].request.operation, e.evidence, e.warnings, cause), Unsettled))
  }

  /** Append the terminal fact and return, or report that it could not be stored. */
  function Conclude(w: World, c: nat, e: Ending, how: How, disk: bool, cause: string, warning: Option<Warning>): World
    requires c < |w.calls|
  {
    if Takes(w.stream, 2, [e.fact], disk) then Store(w, c, e, how, warning) else Lose(w, c, e, cause)
  }

  function NotDispatched(r: Request, approval: seq<string>, reason: Text, shown: Thrown): Ending {
    Ending(
      Cancelled(Lineage(r), reason, PreDispatch, r.warnings, []),
      FailureEnvelope(shown, r.operation, approval, r.warnings), approval, r.warnings)
  }

  function Aborted(r: Request, approval: seq<string>): Ending {
    NotDispatched(r, approval, Fixed(CancelledBefore), Governed(Fixed(WasCancelled), Fixed(WasCancelled)))
  }

  function TooLate(r: Request, approval: seq<string>): Ending {
    NotDispatched(r, approval, Fixed(ExpiredBefore),
                  Governed(Fixed(NotSettled), Fixed(DeadlineExceeded)))
  }

  /** The last checks before the provider is called; `clock` says whether the deadline has passed. */
  function DecideStep(w: World, c: nat, aborted: bool, clock: Result<bool, Thrown>, disk: bool, cause: string, warning: Option<Warning>): World
    requires c < |w.calls| && w.calls[c].place.Begun?
  {
    var r, approval := w.calls[c].request, w.calls[c].place.approval;
    if aborted && r.cooperative then Conclude(w, c, Aborted(r, approval), Settled, disk, cause, warning)
    else match clock
      case Err(e) => Put(w, c, Returned(FailureEnvelope(e, r.operation, [], r.warnings), Unsettled))
      case Ok(true) => Conclude(w, c, TooLate(r, approval), Overdue, disk, cause, warning)
      case Ok(false) => Put(w, c, Running(approval)).(dispatched := w.dispatched + [c])
  }

  function FinishStep(w: World, c: nat, answer: Answer, disk: bool, cause: string, warning: Option<Warning>): World
    requires c < |w.calls| && w.calls[c].place.Running?
  {
    Conclude(w, c, End(w.calls[c].request, w.calls[c].place.approval, answer), Settled, disk, cause, warning)
  }

  function Next(w: World, step: Step): World {
    match step
    case Arrive(r) => if r.operation == w.operation then w.(calls := w.calls + [Call(r, Fresh)]) else w
    case Read(c) => if c < |w.calls| && w.calls[c].place.Fresh? then ReadStep(w, c) else w
    case Begin(c, approval, disk, error) =>
      if c < |w.calls| && w.calls[c].place.Ready? && !w.calls[c].request.queued then BeginStep(w, c, approval, disk, error) else w
    case CancelQueued(c, disk, error, warning) =>
      if c < |w.calls| && w.calls[c].place.Ready? && w.calls[c].request.queued then CancelStep(w, c, disk, error, warning) else w
    case Decide(c, aborted, clock, disk, cause, warning) =>
      if c < |w.calls| && w.calls[c].place.Begun? then DecideStep(w, c, aborted, clock, disk, cause, warning) else w
    case Finish(c, answer, disk, cause, warning) =>
      if c < |w.calls| && w.calls[c].place.Running? then FinishStep(w, c, answer, disk, cause, warning) else w
    case Crash(c) => if c < |w.calls| && !w.calls[c].place.Returned? then Put(w, c, Dead) else w
  }

  function Run(operation: string, steps: seq<Step>): World
    decreases |steps|
  {
    if steps == [] then World(operation, [], [], [], None) else Next(Run(operation, steps[..|steps| - 1]), steps[|steps| - 1])
  }

  // ---------------------------------------------------------------- a first outcome and its replay

  lemma {:induction false} DistinctHas<T>(xs: seq<T>)
    ensures forall x :: x in Distinct(xs) <==> x in xs
    ensures forall i, j :: 0 <= i < j < |Distinct(xs)| ==> Distinct(xs)[i] != Distinct(xs)[j]
  {
    if xs != [] {
      var n := |xs| - 1;
      DistinctHas(xs[..n]);
      assert xs == xs[..n] + [xs[n]];
    }
  }

  lemma {:induction false} DistinctPush<T>(xs: seq<T>, ys: seq<T>)
    requires forall y :: y in ys ==> y in xs
    ensures Distinct(xs + ys) == Distinct(xs)
  {
    if ys == [] {
      assert xs + ys == xs;
    } else {
      var n := |ys| - 1;
      DistinctPush(xs, ys[..n]);
      var all := xs + ys;
      assert all[..|all| - 1] == xs + ys[..n] && all[|all| - 1] == ys[n] && ys[n] in ys;
      assert ys[n] in xs + ys[..n];
    }
  }

  /** Evidence that is stored twice is reported once, in the same place. */
  lemma {:induction false} DistinctAgain<T>(xs: seq<T>, ys: seq<T>)
    ensures Distinct(xs + (xs + ys)) == Distinct(xs + ys)
  {
    if ys == [] {
      assert xs + (xs + ys) == xs + xs && xs + ys == xs;
      DistinctPush(xs, xs);
    } else {
      var n := |ys| - 1;
      DistinctAgain(xs, ys[..n]);
      var long, short := xs + (xs + ys), xs + ys;
      assert long[..|long| - 1] == xs + (xs + ys[..n]) && long[|long| - 1] == ys[n];
      assert short[..|short| - 1] == xs + ys[..n] && short[|short| - 1] == ys[n];
    }
  }

  /** The replay says what the first outcome said.  Only an overdue call has two codes; only
      evidence can be missing from the replay, and only of a failure; only warnings can be added to
      the first outcome, after what was stored. */
  ghost predicate Agrees(first: Envelope, how: How, replay: Envelope) {
    && first.ok == replay.ok
    && (how == Overdue ==> !first.ok)
    && (first.ok ==>
          && first.data.Some? && replay.data == Some(first.data.value.(replayed := true)) && !first.data.value.replayed
          && first.problem.None? && replay.problem.None? && first.evidence == replay.evidence)
    && (!first.ok ==>
          && first.data.None? && replay.data.None? && first.problem.Some? && replay.problem.Some?
          && first.problem.value.operation == replay.problem.value.operation
          && first.problem.value.retryable == replay.problem.value.retryable
          && (how != Overdue ==> first.problem.value.code == replay.problem.value.code)
          && (how == Overdue ==>
                first.problem.value.code == Fixed(DeadlineExceeded) && replay.problem.value.code == Fixed(WasCancelled)))
    && (forall x :: x in replay.evidence ==> x in first.evidence)
    && replay.warnings <= first.warnings
  }

  lemma ReconciledAgrees(first: Envelope, how: How, replay: Envelope, warning: Option<Warning>)
    requires Agrees(first, how, replay)
    ensures Agrees(Reconciled(first, warning), how, replay)
  {
  }

  /** A terminal fact that says the provider was never called. */
  predicate Undispatched(f: Fact) { f.Cancelled? && f.phase != Dispatching }

  ghost predicate EndsAs(r: Request, approval: seq<string>, e: Ending, how: How, called: bool) {
    && e.fact.Terminal() && e.fact.meta == Lineage(r)
    && (Undispatched(e.fact) <==> !called)
    && (FactOk(e.fact) ==> Agrees(e.envelope, how, ReplayOf(e.fact, r.operation, approval + e.fact.evidence)))
  }

  lemma NoDispatchAgrees(r: Request, approval: seq<string>)
    ensures EndsAs(r, approval, Aborted(r, approval), Settled, false) && EndsAs(r, approval, TooLate(r, approval), Overdue, false)
  {
    assert approval + [] == approval;
  }

  lemma FailureAgrees(r: Request, approval: seq<string>, evidence: seq<string>, stored: seq<string>, warnings: seq<Warning>)
    requires forall x :: x in approval + stored ==> x in evidence
    ensures forall e: Failure :: EndsAs(r, approval, Failing(r, e, evidence, stored, warnings), Settled, true)
    ensures forall reason: Text, shown: Text :: EndsAs(r, approval, Doubt(r, reason, shown, evidence, stored, warnings), Settled, true)
    ensures forall message: Text :: EndsAs(r, approval, Halted(r, message, evidence, stored, warnings), Settled, true)
  {
    DistinctHas(evidence);
    DistinctHas(approval + stored);
  }

  lemma EndThrownAgrees(r: Request, approval: seq<string>, a: Answer)
    requires a.Threw?
    ensures EndsAs(r, approval, EndThrown(r, approval, a), Settled, true)
  {
    var refs := a.receipt.Refs();
    FailureAgrees(r, approval, approval + refs, refs, if a.receipt.BadReceipt? then r.warnings + [ReceiptRefInvalid] else r.warnings);
  }

  lemma EndInvalidAgrees(r: Request, approval: seq<string>, message: Text)
    ensures EndsAs(r, approval, EndInvalid(r, approval, message), Settled, true)
  {
    FailureAgrees(r, approval, approval, [], r.warnings);
  }

  lemma EndOutputAgrees(r: Request, approval: seq<string>, a: Answer)
    requires a.Output?
    ensures EndsAs(r, approval, EndOutput(r, approval, a), Settled, true)
  {
    var refs, warnings := a.receipt.Refs(), r.warnings + a.warnings;
    var evidence := approval + a.evidence + refs;
    if a.checked.Ok? {
      assert evidence == approval + (a.evidence + refs);
      DistinctAgain(approval, a.evidence + refs);
    } else {
      FailureAgrees(r, approval, evidence, refs, warnings);
    }
  }

  lemma EndAgrees(r: Request, approval: seq<string>, a: Answer)
    ensures EndsAs(r, approval, End(r, approval, a), Settled, true)
  {
    match a
    case Threw(_, _, _, _, _, _) => EndThrownAgrees(r, approval, a);
    case NoData => EndInvalidAgrees(r, approval, Fixed(MustHaveData));
    case BadMetadata(what) => EndInvalidAgrees(r, approval, what);
    case Output(_, _, receipt, _) =>
      if receipt.BadReceipt? {
        EndInvalidAgrees(r, approval, Fixed(ReceiptRefEmpty));
      } else {
        EndOutputAgrees(r, approval, a);
      }
  }

  // ---------------------------------------------------------------- what every run keeps

  /** The stream of the call that came first: its two first facts, and at most one terminal. */
  ghost predicate StreamOf(r: Request, stream: seq<Fact>) {
    && 2 <= |stream| <= 3 && stream[0].Authorized? && stream[..2] == StartFacts(r, stream[0].evidence)
    && (|stream| == 3 ==> stream[2].Terminal() && stream[2].meta == Lineage(r))
  }

  ghost predicate OwnerOk(w: World, c: nat)
    requires c < |w.calls|
  {
    var r := w.calls[c].request;
    && StreamOf(r, w.stream) && r.operation != ""
    && (w.dispatched == [] || w.dispatched == [c])
    && (|w.stream| == 3 ==> (Undispatched(w.stream[2]) <==> w.dispatched == []))
    && match w.calls[c].place
       case Begun(approval) => |w.stream| == 2 && approval == w.stream[0].evidence && w.dispatched == []
       case Running(approval) => |w.stream| == 2 && approval == w.stream[0].evidence && w.dispatched == [c]
       case Returned(e, how) =>
         if how in {Settled, Overdue}
         then |w.stream| == 3 && Agrees(e, how, ReplayOf(w.stream[2], r.operation, AllEvidence(w.stream)))
         else how == Unsettled && |w.stream| == 2 && !e.ok && e.problem.Some? && (w.dispatched == [c] ==> e.problem.value.code == InDoubt)
       case Dead => |w.stream| == 2
       case _ => false
  }

  /** What a call that is not the owner has been told. */
  ghost predicate OtherOk(w: World, c: nat)
    requires c < |w.calls|
  {
    match w.calls[c].place
    case Fresh => true
    case Ready => true
    case Dead => true
    case Returned(e, how) =>
      how == Refused || (how == Replay && (ReadExisting(w.stream, w.calls[c].request) == Replayed(e) || (e.problem.Some? && e.problem.value.code == InDoubt)))
    case _ => false
  }

  ghost predicate WorldOk(w: World) {
    && (forall c :: 0 <= c < |w.calls| ==> w.calls[c].request.operation == w.operation)
    && (forall c :: 0 <= c < |w.calls| && w.owner != Some(c) ==> OtherOk(w, c))
    && match w.owner
       case None => w.stream == [] && w.dispatched == []
       case Some(c) => c < |w.calls| && OwnerOk(w, c)
  }

  lemma StreamFacts(r: Request, stream: seq<Fact>)
    requires StreamOf(r, stream)
    ensures stream[0] == Authorization(r, stream[0].evidence) && stream[1] == Started(Lineage(r), r.content, [])
    ensures forall i :: 0 <= i < |stream| ==> stream[i].meta == Lineage(r)
  {
    assert stream[0] == stream[..2][0] && stream[1] == stream[..2][1];
  }

  lemma TerminalOf(r: Request, stream: seq<Fact>)
    requires StreamOf(r, stream)
    ensures LastTerminal(stream) == if |stream| == 3 then Some(stream[2]) else None
  {
    StreamFacts(r, stream);
    if |stream| == 2 {
      assert stream[..1] == [stream[0]] && [stream[0]][..0] == [];
      assert LastTerminal([stream[0]]) == None;
    }
  }

  /** Which requests an owned stream answers, and how. */
  lemma ReadOwned(stream: seq<Fact>, owner: Request, r: Request)
    requires StreamOf(owner, stream)
    ensures ReadExisting(stream, r) == Conflict <==> Lineage(r) != Lineage(owner) || r.content != owner.content
    ensures |stream| == 3 && ReadExisting(stream, r) != Conflict ==>
      ReadExisting(stream, r) == Replayed(ReplayOf(stream[2], r.operation, AllEvidence(stream)))
    ensures |stream| == 2 && ReadExisting(stream, r) != Conflict ==>
      var e := ReadExisting(stream, r); e.Replayed? && !e.envelope.ok && e.envelope.problem.Some? && e.envelope.problem.value.code == InDoubt
  {
    StreamFacts(owner, stream);
    TerminalOf(owner, stream);
    assert FirstAuthorized(stream) == Some(stream[0]);
  }

  lemma EvidenceOf(r: Request, stream: seq<Fact>)
    requires StreamOf(r, stream) && |stream| == 3
    ensures AllEvidence(stream) == stream[0].evidence + stream[2].evidence
  {
    StreamFacts(r, stream);
    var two := stream[..2];
    assert two[..1] == [stream[0]] && [stream[0]][..0] == [] && two[1] == stream[1];
    assert AllEvidence([stream[0]]) == [] + stream[0].evidence;
    assert AllEvidence(two) == AllEvidence([stream[0]]) + [];
  }

  /** A call that is not the owner moves on alone. */
  lemma PutOther(w: World, c: nat, p: Place)
    requires WorldOk(w) && c < |w.calls| && w.owner != Some(c) && OtherOk(Put(w, c, p), c)
    ensures WorldOk(Put(w, c, p))
  {
    var z := Put(w, c, p);
    forall i | 0 <= i < |z.calls| && z.owner != Some(i) ensures OtherOk(z, i) {
      assert OtherOk(w, i);
    }
  }

  /** The owner moves on: nobody else's answer changes unless it was in doubt. */
  lemma PutOwner(w: World, c: nat, z: World)
    requires WorldOk(w) && c < |w.calls| && w.owner == Some(c) == z.owner && w.operation == z.operation
    requires |z.calls| == |w.calls| && z.calls[c].request == w.calls[c].request
    requires forall i :: 0 <= i < |w.calls| && i != c ==> z.calls[i] == w.calls[i]
    requires OwnerOk(z, c) && (z.stream == w.stream || |w.stream| == 2)
    ensures WorldOk(z)
  {
    forall i | 0 <= i < |z.calls| && z.owner != Some(i) ensures OtherOk(z, i) {
      assert OtherOk(w, i);
      ReadOwned(w.stream, w.calls[c].request, w.calls[i].request);
    }
    forall i | 0 <= i < |z.calls| ensures z.calls[i].request.operation == z.operation {
      assert w.calls[i].request.operation == w.operation;
    }
  }

  /** A first call takes an empty stream: nobody has been told anything yet. */
  lemma PutFirst(w: World, c: nat, z: World)
    requires WorldOk(w) && c < |w.calls| && w.owner.None? && z.owner == Some(c) && w.operation == z.operation
    requires |z.calls| == |w.calls| && z.calls[c].request == w.calls[c].request
    requires forall i :: 0 <= i < |w.calls| && i != c ==> z.calls[i] == w.calls[i]
    requires OwnerOk(z, c)
    ensures WorldOk(z)
  {
    forall i | 0 <= i < |z.calls| && z.owner != Some(i) ensures OtherOk(z, i) {
      assert OtherOk(w, i);
    }
    forall i | 0 <= i < |z.calls| ensures z.calls[i].request.operation == z.operation {
      assert w.calls[i].request.operation == w.operation;
    }
  }

  lemma StoreKeeps(w: World, c: nat, e: Ending, how: How, warning: Option<Warning>)
    requires WorldOk(w) && c < |w.calls| && w.owner == Some(c) && |w.stream| == 2 && how in {Settled, Overdue}
    requires EndsAs(w.calls[c].request, w.stream[0].evidence, e, how, w.dispatched == [c]) && FactOk(e.fact)
    ensures WorldOk(Store(w, c, e, how, warning))
  {
    var r := w.calls[c].request;
    var z := Store(w, c, e, how, warning);
    assert z.stream[..2] == w.stream[..2] && z.stream[0] == w.stream[0] && z.stream[2] == e.fact;
    assert StreamOf(r, z.stream);
    EvidenceOf(r, z.stream);
    ReconciledAgrees(e.envelope, how, ReplayOf(e.fact, r.operation, AllEvidence(z.stream)), warning);
    assert w.dispatched == [c] ==> w.dispatched != [];
    assert z.dispatched == w.dispatched && (w.dispatched == [] || w.dispatched == [c]);
    PutOwner(w, c, z);
  }

  lemma LoseKeeps(w: World, c: nat, e: Ending, cause: string)
    requires WorldOk(w) && c < |w.calls| && w.owner == Some(c) && |w.stream| == 2
    ensures WorldOk(Lose(w, c, e, cause))
  {
    PutOwner(w, c, Lose(w, c, e, cause));
  }

  lemma ConcludeKeeps(w: World, c: nat, e: Ending, how: How, disk: bool, cause: string, warning: Option<Warning>)
    requires WorldOk(w) && c < |w.calls| && w.owner == Some(c) && |w.stream| == 2 && how in {Settled, Overdue}
    requires EndsAs(w.calls[c].request, w.stream[0].evidence, e, how, w.dispatched == [c])
    ensures WorldOk(Conclude(w, c, e, how, disk, cause, warning))
  {
    if Takes(w.stream, 2, [e.fact], disk) {
      assert FactOk([e.fact][0]);
      StoreKeeps(w, c, e, how, warning);
    } else {
      LoseKeeps(w, c, e, cause);
    }
  }

  lemma ReadKeeps(w: World, c: nat)
    requires WorldOk(w) && c < |w.calls| && w.calls[c].place.Fresh?
    ensures WorldOk(ReadStep(w, c))
  {
    assert w.owner != Some(c);
    var reading := ReadExisting(w.stream, w.calls[c].request);
    var place := AfterReading(w.calls[c].request, reading);
    assert place.Returned? && place.how == Replay ==> reading == Replayed(place.envelope);
    PutOther(w, c, place);
  }

  lemma BeginKeeps(w: World, c: nat, approval: Result<string, Thrown>, disk: bool, error: Thrown)
    requires WorldOk(w) && c < |w.calls| && w.calls[c].place.Ready?
    ensures WorldOk(BeginStep(w, c, approval, disk, error))
  {
    var z := BeginStep(w, c, approval, disk, error);
    if z.owner == w.owner {
      PutOther(w, c, z.calls[c].place);
    } else {
      PutFirst(w, c, z);
    }
  }

  lemma CancelKeeps(w: World, c: nat, disk: bool, error: Thrown, warning: Option<Warning>)
    requires WorldOk(w) && c < |w.calls| && w.calls[c].place.Ready?
    ensures WorldOk(CancelStep(w, c, disk, error, warning))
  {
    var r := w.calls[c].request;
    var z := CancelStep(w, c, disk, error, warning);
    if z.owner == w.owner {
      PutOther(w, c, z.calls[c].place);
    } else {
      assert z.stream[..2] == StartFacts(r, []) && z.stream[2] == QueueCancelled(r);
      EvidenceOf(r, z.stream);
      var e := FailureEnvelope(Governed(Fixed(CancelledBefore), Fixed(WasCancelled)), r.operation, [], r.warnings);
      ReconciledAgrees(e, Settled, ReplayOf(z.stream[2], r.operation, AllEvidence(z.stream)), warning);
      PutFirst(w, c, z);
    }
  }

  lemma DecideKeeps(w: World, c: nat, aborted: bool, clock: Result<bool, Thrown>, disk: bool, cause: string, warning: Option<Warning>)
    requires WorldOk(w) && c < |w.calls| && w.calls[c].place.Begun?
    ensures WorldOk(DecideStep(w, c, aborted, clock, disk, cause, warning))
  {
    var r, approval := w.calls[c].request, w.calls[c].place.approval;
    assert w.owner == Some(c);
    NoDispatchAgrees(r, approval);
    if aborted && r.cooperative {
      ConcludeKeeps(w, c, Aborted(r, approval), Settled, disk, cause, warning);
    } else if clock == Ok(true) {
      ConcludeKeeps(w, c, TooLate(r, approval), Overdue, disk, cause, warning);
    } else {
      PutOwner(w, c, DecideStep(w, c, aborted, clock, disk, cause, warning));
    }
  }

  lemma ArriveKeeps(w: World, r: Request)
    requires WorldOk(w)
    ensures WorldOk(Next(w, Arrive(r)))
  {
    var z := Next(w, Arrive(r));
    forall i | 0 <= i < |z.calls| && z.owner != Some(i) ensures OtherOk(z, i) {
      if i < |w.calls| { assert OtherOk(w, i); }
    }
  }

  lemma CrashKeeps(w: World, c: nat)
    requires WorldOk(w) && c < |w.calls| && !w.calls[c].place.Returned?
    ensures WorldOk(Put(w, c, Dead))
  {
    if w.owner == Some(c) { PutOwner(w, c, Put(w, c, Dead)); } else { PutOther(w, c, Dead); }
  }

  lemma FinishKeeps(w: World, c: nat, answer: Answer, disk: bool, cause: string, warning: Option<Warning>)
    requires WorldOk(w) && c < |w.calls| && w.calls[c].place.Running?
    ensures WorldOk(FinishStep(w, c, answer, disk, cause, warning))
  {
    assert w.owner == Some(c);
    EndAgrees(w.calls[c].request, w.calls[c].place.approval, answer);
    ConcludeKeeps(w, c, End(w.calls[c].request, w.calls[c].place.approval, answer), Settled, disk, cause, warning);
  }

  lemma NextKeeps(w: World, step: Step)
    requires WorldOk(w)
    ensures WorldOk(Next(w, step))
  {
    match step
    case Arrive(r) => ArriveKeeps(w, r);
    case Read(c) => if c < |w.calls| && w.calls[c].place.Fresh? { ReadKeeps(w, c); }
    case Begin(c, approval, disk, error) =>
      if c < |w.calls| && w.calls[c].place.Ready? { BeginKeeps(w, c, approval, disk, error); }
    case CancelQueued(c, disk, error, warning) =>
      if c < |w.calls| && w.calls[c].place.Ready? { CancelKeeps(w, c, disk, error, warning); }
    case Decide(c, aborted, clock, disk, cause, warning) =>
      if c < |w.calls| && w.calls[c].place.Begun? { DecideKeeps(w, c, aborted, clock, disk, cause, warning); }
    case Finish(c, answer, disk, cause, warning) =>
      if c < |w.calls| && w.calls[c].place.Running? { FinishKeeps(w, c, answer, disk, cause, warning); }
    case Crash(c) => if c < |w.calls| && !w.calls[c].place.Returned? { CrashKeeps(w, c); }
  }

  lemma {:induction false} EveryWorld(operation: string, steps: seq<Step>)
    ensures WorldOk(Run(operation, steps))
    decreases |steps|
  {
    if steps != [] {
      EveryWorld(operation, steps[..|steps| - 1]);
      NextKeeps(Run(operation, steps[..|steps| - 1]), steps[|steps| - 1]);
    }
  }

  // ---------------------------------------------------------------- main results

  /** Over any interleaving of calls on one operation the provider is called at most once, after the
      first two facts are stored; the stream is empty, those two facts, or those and one terminal
      fact, which says whether the provider was called. */
  lemma AtMostOneProviderCall(operation: string, steps: seq<Step>)
    ensures var w := Run(operation, steps);
      && |w.dispatched| <= 1
      && (w.dispatched != [] ==> |w.stream| >= 2 && w.owner == Some(w.dispatched[0]))
      && (w.stream != [] ==> w.owner.Some? && w.owner.value < |w.calls| && StreamOf(w.calls[w.owner.value].request, w.stream))
      && (|w.stream| == 3 ==> (Undispatched(w.stream[2]) <==> w.dispatched == []))
  {
    EveryWorld(operation, steps);
  }

  /** Two requests for the same operation, whatever their policy warnings or approvals. */
  predicate SameScope(q: Request, r: Request) {
    Lineage(q) == Lineage(r) && q.content == r.content
  }

  /** A call that stored its outcome, and every later call of the same scope, are told the same in all
      that Agrees lists; an overdue call is told of its deadline and its replays of a cancellation. */
  lemma ReplaysAgree(operation: string, steps: seq<Step>, c: nat, r: Request)
    requires var w := Run(operation, steps);
      c < |w.calls| && w.calls[c].place.Returned? && w.calls[c].place.how in {Settled, Overdue} && SameScope(w.calls[c].request, r)
    ensures var w := Run(operation, steps);
      var reading := ReadExisting(w.stream, r);
      reading.Replayed? && Agrees(w.calls[c].place.envelope, w.calls[c].place.how, reading.envelope)
  {
    EveryWorld(operation, steps);
    var w := Run(operation, steps);
    assert w.owner == Some(c) by {
      assert w.owner != Some(c) ==> OtherOk(w, c);
    }
    ReadOwned(w.stream, w.calls[c].request, r);
  }

  /** The two envelopes agree on success, result and error code. */
  predicate SameOutcome(a: Envelope, b: Envelope) {
    && a.ok == b.ok
    && (a.ok ==> a.data.Some? && b.data.Some? && a.data.value.result == b.data.value.result)
    && (!a.ok ==> a.problem.Some? && b.problem.Some? && a.problem.value.code == b.problem.value.code)
  }

  function CodeOf(e: Thrown): Text { if e.code != Blank then e.code else Fixed(ExecutionFailed) }

  /** After its first facts are stored and before it calls the provider, the call finds its deadline
      past and stores a cancellation; or its clock throws, with a code that is not the one for doubt. */
  predicate Misreports(w: World, c: nat, step: Step) {
    && c < |w.calls| && w.calls[c].place.Begun? && step.Decide? && step.call == c
    && !(step.aborted && w.calls[c].request.cooperative)
    && ((step.clock == Ok(true) && step.disk) || (step.clock.Err? && CodeOf(step.clock.error) != InDoubt))
  }

  /** Step `n` is the one by which the call that stored the first facts returns. */
  ghost predicate ReturnsAt(operation: string, steps: seq<Step>, n: nat, c: nat)
    requires n < |steps|
  {
    var w, z := Run(operation, steps[..n]), Run(operation, steps[..n + 1]);
    && z.owner == Some(c) && c < |z.calls| && z.calls[c].place.Returned?
    && (c < |w.calls| ==> !w.calls[c].place.Returned?)
  }

  /** The first outcome and its later replays agree on success, result and error code, unless the call
      returned by one of those two branches: then they never do. */
  lemma FirstOutcomeAgreesIff(operation: string, steps: seq<Step>, n: nat, c: nat, r: Request)
    requires n < |steps| && ReturnsAt(operation, steps, n, c)
    requires SameScope(Run(operation, steps[..n + 1]).calls[c].request, r)
    ensures var w, end := Run(operation, steps[..n]), Run(operation, steps);
      var reading := ReadExisting(end.stream, r);
      && c < |end.calls| && end.calls[c].place.Returned? && reading.Replayed?
      && (SameOutcome(end.calls[c].place.envelope, reading.envelope) <==> !Misreports(w, c, steps[n]))
  {
    EveryWorld(operation, steps[..n]);
    EveryWorld(operation, steps[..n + 1]);
    FromThere(operation, steps, n, c);
    ReturnHow(Run(operation, steps[..n]), c, steps[n]);
    OutcomeByHow(Run(operation, steps[..n + 1]), c, r);
  }

  /** From the step by which the owner returned, the record stays. */
  lemma FromThere(operation: string, steps: seq<Step>, n: nat, c: nat)
    requires n < |steps| && ReturnsAt(operation, steps, n, c)
    ensures Run(operation, steps[..n + 1]) == Next(Run(operation, steps[..n]), steps[n])
    ensures var z, end := Run(operation, steps[..n + 1]), Run(operation, steps);
      c < |end.calls| && end.calls[c] == z.calls[c] && end.stream == z.stream
  {
    var rest := steps[n + 1..];
    assert steps[..n + 1] + rest == steps && steps[..n] + [steps[n]] == steps[..n + 1];
    RunPush(operation, steps[..n], steps[n]);
    RecordStaysOver(operation, steps[..n + 1], rest);
  }

  /** How the owner returns tells by which branch. */
  lemma ReturnHow(w: World, c: nat, step: Step)
    requires WorldOk(w) && (c < |w.calls| ==> !w.calls[c].place.Returned?)
    requires var z := Next(w, step); WorldOk(z) && z.owner == Some(c) && c < |z.calls| && z.calls[c].place.Returned?
    ensures var place := Next(w, step).calls[c].place;
      Misreports(w, c, step) <==>
        place.how == Overdue || (place.how == Unsettled && place.envelope.problem.Some? && place.envelope.problem.value.code != InDoubt)
  {
    ReturnsBy(w, c, step);
    match step
    case Decide(_, _, _, _, _, _) => DecideHow(w, c, step);
    case Finish(_, answer, disk, cause, warning) =>
      ConcludeHow(w, c, End(w.calls[c].request, w.calls[c].place.approval, answer), Settled, disk, cause, warning);
    case CancelQueued(_, _, _, _) =>
  }

  /** The owner returns by a step of its own: the last checks, the provider's answer, or a queued
      cancellation. */
  lemma ReturnsBy(w: World, c: nat, step: Step)
    requires WorldOk(w) && (c < |w.calls| ==> !w.calls[c].place.Returned?)
    requires var z := Next(w, step); WorldOk(z) && z.owner == Some(c) && c < |z.calls| && z.calls[c].place.Returned?
    ensures c < |w.calls|
    ensures || (step.Decide? && step.call == c && w.owner == Some(c) && w.calls[c].place.Begun?)
            || (step.Finish? && step.call == c && w.owner == Some(c) && w.calls[c].place.Running?)
            || (step.CancelQueued? && step.call == c && w.calls[c].place.Ready? && w.calls[c].request.queued)
  {
    if step.Arrive? || step.call != c {
      OthersRest(w, c, step);
    } else if w.owner != Some(c) {
      assert OtherOk(w, c);
    }
  }

  lemma OthersRest(w: World, c: nat, step: Step)
    requires step.Arrive? || step.call != c
    ensures |w.calls| <= |Next(w, step).calls| && (c < |w.calls| ==> Next(w, step).calls[c] == w.calls[c])
    ensures |w.calls| <= c < |Next(w, step).calls| ==> Next(w, step).calls[c].place.Fresh?
  {
  }

  lemma ConcludeHow(w: World, c: nat, e: Ending, how: How, disk: bool, cause: string, warning: Option<Warning>)
    requires c < |w.calls|
    ensures var place := Conclude(w, c, e, how, disk, cause, warning).calls[c].place;
      place.Returned? && (place.how == how || (place.how == Unsettled && place.envelope.problem.Some? && place.envelope.problem.value.code == InDoubt))
  {
  }

  lemma DecideHow(w: World, c: nat, step: Step)
    requires WorldOk(w) && w.owner == Some(c) && c < |w.calls| && w.calls[c].place.Begun? && step.Decide? && step.call == c
    ensures var place := Next(w, step).calls[c].place;
      place.Returned? ==>
        (Misreports(w, c, step) <==>
          place.how == Overdue || (place.how == Unsettled && place.envelope.problem.Some? && place.envelope.problem.value.code != InDoubt))
  {
    var r, approval := w.calls[c].request, w.calls[c].place.approval;
    assert FactOk(TooLate(r, approval).fact) && FactOk(Aborted(r, approval).fact);
  }

  lemma OutcomeByHow(z: World, c: nat, r: Request)
    requires WorldOk(z) && z.owner == Some(c) && c < |z.calls| && z.calls[c].place.Returned? && SameScope(z.calls[c].request, r)
    ensures var place, reading := z.calls[c].place, ReadExisting(z.stream, r);
      reading.Replayed? && (SameOutcome(place.envelope, reading.envelope) <==>
        !(place.how == Overdue || (place.how == Unsettled && place.envelope.problem.Some? && place.envelope.problem.value.code != InDoubt)))
  {
    ReadOwned(z.stream, z.calls[c].request, r);
  }

  /** A call alone on its operation, up to the last checks. */
  function Opening(r: Request, approval: Result<string, Thrown>, error: Thrown): seq<Step> {
    [Arrive(r), Read(0), Begin(0, approval, true, error)]
  }

  lemma OpeningBegins(r: Request, approval: Result<string, Thrown>, error: Thrown)
    requires !r.queued && r.operation != "" && ContentOk(r.content) && (r.needsApproval ==> approval.Ok?)
    ensures var evidence := if r.needsApproval then [approval.value] else [];
      Run(r.operation, Opening(r, approval, error)) == World(r.operation, StartFacts(r, evidence), [Call(r, Begun(evidence))], [], Some(0))
  {
    var steps, evidence := Opening(r, approval, error), if r.needsApproval then [approval.value] else [];
    assert steps[..2] == [steps[0], steps[1]] && steps[..2][..1] == [steps[0]] && [steps[0]][..0] == [];
    assert Run(r.operation, []) == World(r.operation, [], [], [], None);
    assert Run(r.operation, [steps[0]]) == World(r.operation, [], [Call(r, Fresh)], [], None);
    assert Run(r.operation, steps[..2]) == World(r.operation, [], [Call(r, Ready)], [], None);
    assert forall i :: 0 <= i < 2 ==> FactOk(StartFacts(r, evidence)[i]);
    assert [Call(r, Ready)][0 := Call(r, Begun(evidence))] == [Call(r, Begun(evidence))];
  }

  /** Both branches happen, to any request: the deadline passes before dispatch, or the clock throws. */
  lemma MisreportsHappen(r: Request, approval: Result<string, Thrown>, error: Thrown, e: Thrown)
    requires !r.queued && r.operation != "" && ContentOk(r.content) && (r.needsApproval ==> approval.Ok?) && CodeOf(e) != InDoubt
    ensures var late := Opening(r, approval, error) + [Decide(0, false, Ok(true), true, "", None)];
      var w := Run(r.operation, late);
      && |w.calls| == 1 && w.calls[0].place.Returned? && ReadExisting(w.stream, r).Replayed?
      && !SameOutcome(w.calls[0].place.envelope, ReadExisting(w.stream, r).envelope)
    ensures var thrown := Opening(r, approval, error) + [Decide(0, false, Err(e), true, "", None)];
      var w := Run(r.operation, thrown);
      && |w.calls| == 1 && w.calls[0].place.Returned? && ReadExisting(w.stream, r).Replayed?
      && !SameOutcome(w.calls[0].place.envelope, ReadExisting(w.stream, r).envelope)
  {
    OpeningBegins(r, approval, error);
    DecideMisreports(r, Opening(r, approval, error), Decide(0, false, Ok(true), true, "", None));
    DecideMisreports(r, Opening(r, approval, error), Decide(0, false, Err(e), true, "", None));
  }

  lemma DecideMisreports(r: Request, steps: seq<Step>, step: Step)
    requires var w := Run(r.operation, steps); w.owner == Some(0) && |w.calls| == 1 && w.calls[0].request == r && Misreports(w, 0, step)
    ensures var w := Run(r.operation, steps + [step]);
      && |w.calls| == 1 && w.calls[0].place.Returned? && ReadExisting(w.stream, r).Replayed?
      && !SameOutcome(w.calls[0].place.envelope, ReadExisting(w.stream, r).envelope)
  {
    var all, n := steps + [step], |steps|;
    assert all[..n] == steps && all[..n + 1] == all;
    RunPush(r.operation, steps, step);
    EveryWorld(r.operation, steps);
    FirstOutcomeAgreesIff(r.operation, all, n, 0, r);
  }

  /** The key of an operation is bound to the scope of its first call: other scopes are refused. */
  lemma ScopeConflictExactly(operation: string, steps: seq<Step>, r: Request)
    requires Run(operation, steps).stream != []
    ensures var w := Run(operation, steps);
      && w.owner.Some? && w.owner.value < |w.calls|
      && (ReadExisting(w.stream, r) == Conflict <==> !SameScope(w.calls[w.owner.value].request, r))
  {
    EveryWorld(operation, steps);
    var w := Run(operation, steps);
    ReadOwned(w.stream, w.calls[w.owner.value].request, r);
  }

  /** With no causation given, a queued cancellation and an execution of one operation are never of
      the same scope: each of them makes up its own. */
  lemma DefaultCausationsConflict(q: Request, r: Request)
    requires q.queued && !r.queued
    requires (q.causation.None? || q.causation.value == "") && (r.causation.None? || r.causation.value == "")
    ensures !SameScope(q, r)
  {
    assert Lineage(q).causation[0] == 's' && Lineage(r).causation[0] == 'r';
  }

  ghost predicate OwnerGone(w: World) {
    w.owner.Some? && w.owner.value < |w.calls| && (w.calls[w.owner.value].place.Returned? || w.calls[w.owner.value].place.Dead?)
  }

  ghost predicate SameRecord(w: World, z: World) {
    && z.owner == w.owner && z.stream == w.stream && z.dispatched == w.dispatched
    && (w.owner.Some? && w.owner.value < |w.calls| ==> w.owner.value < |z.calls| && z.calls[w.owner.value] == w.calls[w.owner.value])
  }

  lemma RecordStays(w: World, step: Step)
    requires WorldOk(w) && OwnerGone(w)
    ensures SameRecord(w, Next(w, step))
  {
    assert |w.stream| >= 2;
    assert forall i :: 0 <= i < |w.calls| && w.calls[i].place.Begun? ==> !OtherOk(w, i);
    assert forall i :: 0 <= i < |w.calls| && w.calls[i].place.Running? ==> !OtherOk(w, i);
  }

  lemma {:induction false} RecordStaysOver(operation: string, steps: seq<Step>, more: seq<Step>)
    requires OwnerGone(Run(operation, steps))
    ensures SameRecord(Run(operation, steps), Run(operation, steps + more))
    decreases |more|
  {
    if more == [] {
      assert steps + more == steps;
    } else {
      var n := |more| - 1;
      var most := steps + more[..n];
      RecordStaysOver(operation, steps, more[..n]);
      EveryWorld(operation, most);
      RunPush(operation, most, more[n]);
      assert most + [more[n]] == steps + more;
      RecordStaysOnce(Run(operation, steps), Run(operation, most), more[n]);
    }
  }

  lemma RunPush(operation: string, steps: seq<Step>, step: Step)
    ensures Run(operation, steps + [step]) == Next(Run(operation, steps), step)
  {
    assert (steps + [step])[..|steps + [step]| - 1] == steps;
  }

  lemma RecordStaysOnce(w: World, y: World, step: Step)
    requires OwnerGone(w) && SameRecord(w, y) && WorldOk(y)
    ensures SameRecord(w, Next(y, step))
  {
    RecordStays(y, step);
  }

  /** When the first call ended without a stored outcome, or died, nobody is ever told anything but
      that the outcome is in doubt, and nobody calls the provider again. */
  lemma InDoubtForGood(operation: string, steps: seq<Step>, more: seq<Step>, r: Request)
    requires var w := Run(operation, steps);
      && w.owner.Some? && w.owner.value < |w.calls| && SameScope(w.calls[w.owner.value].request, r)
      && (w.calls[w.owner.value].place.Dead? || (w.calls[w.owner.value].place.Returned? && w.calls[w.owner.value].place.how == Unsettled))
    ensures var reading := ReadExisting(Run(operation, steps + more).stream, r);
      reading.Replayed? && reading.envelope.problem.Some? && reading.envelope.problem.value.code == InDoubt
    ensures Run(operation, steps + more).dispatched == Run(operation, steps).dispatched
  {
    var w, z := Run(operation, steps), Run(operation, steps + more);
    EveryWorld(operation, steps);
    EveryWorld(operation, steps + more);
    RecordStaysOver(operation, steps, more);
    ReadOwned(z.stream, w.calls[w.owner.value].request, r);
  }

  // ---------------------------------------------------------------- envelopes are canonical

  ghost predicate NoRepeats<T>(xs: seq<T>) {
    forall i, j :: 0 <= i < j < |xs| ==> xs[i] != xs[j]
  }

  /** `assertCanonicalEnvelope` */
  ghost predicate Canonical(e: Envelope) {
    && NoRepeats(e.evidence) && NoRepeats(e.warnings)
    && if e.ok then e.data.Some? && e.problem.None? && e.data.value.operation != ""
       else e.data.None? && e.problem.Some? && e.problem.value.code != Blank && e.problem.value.message != Blank && e.problem.value.operation != ""
  }

  /** Nothing can be said of the error: it has no message and renders as no text. */
  predicate Silent(e: Thrown) { e.message == Blank && e.text == Blank }

  lemma FailureCanonicalIff(e: Thrown, operation: string, evidence: seq<string>, warnings: seq<Warning>)
    requires operation != ""
    ensures Canonical(FailureEnvelope(e, operation, evidence, warnings)) <==> !Silent(e)
  {
    DistinctHas(evidence);
    DistinctHas(warnings);
  }

  lemma ReplayCanonical(stream: seq<Fact>, r: Request)
    requires r.operation != ""
    ensures ReadExisting(stream, r).Replayed? ==> Canonical(ReadExisting(stream, r).envelope)
  {
    var evidence := AllEvidence(stream);
    DistinctHas(evidence);
    if ReadExisting(stream, r).Replayed? {
      var t := LastTerminal(stream);
      DistinctHas(if t.Some? then t.value.warnings else FirstAuthorized(stream).value.warnings);
    }
  }

  lemma EndingsCanonical(r: Request, evidence: seq<string>, warnings: seq<Warning>)
    requires r.operation != ""
    ensures forall e: Failure, stored: seq<string> :: Canonical(Failing(r, e, evidence, stored, warnings).envelope)
    ensures forall reason: Text, shown: Text, stored: seq<string> :: Canonical(Doubt(r, reason, shown, evidence, stored, warnings).envelope)
    ensures forall message: Text, stored: seq<string> :: Canonical(Halted(r, message, evidence, stored, warnings).envelope)
  {
    DistinctHas(evidence);
    DistinctHas(warnings);
  }

  lemma EndCanonical(r: Request, approval: seq<string>, a: Answer)
    requires r.operation != ""
    ensures Canonical(End(r, approval, a).envelope)
  {
    EndingsCanonical(r, approval, r.warnings);
    match a
    case Threw(_, _, _, receipt, _, _) =>
      EndingsCanonical(r, approval + receipt.Refs(), r.warnings);
      EndingsCanonical(r, approval + receipt.Refs(), r.warnings + [ReceiptRefInvalid]);
    case NoData =>
    case BadMetadata(_) =>
    case Output(evidence, warnings, receipt, _) =>
      EndingsCanonical(r, approval + evidence + receipt.Refs(), r.warnings + warnings);
      DistinctHas(approval + evidence + receipt.Refs());
      DistinctHas(r.warnings + warnings);
  }

  ghost predicate AllCanonical(w: World) {
    forall c :: 0 <= c < |w.calls| && w.calls[c].place.Returned? ==> Canonical(w.calls[c].place.envelope)
  }

  /** The error that the step returns to its caller as it was thrown, if it does. */
  function Surfaces(w: World, step: Step): Option<Thrown> {
    match step
    case Begin(c, approval, disk, error) =>
      if c >= |w.calls| || !w.calls[c].place.Ready? || w.calls[c].request.queued then None
      else
        var r := w.calls[c].request;
        if r.needsApproval && approval.Err? then Some(approval.error)
        else if !Takes(w.stream, 0, StartFacts(r, if r.needsApproval then [approval.value] else []), disk) then Some(error)
        else None
    case CancelQueued(c, disk, error, _) =>
      if c >= |w.calls| || !w.calls[c].place.Ready? || !w.calls[c].request.queued then None
      else if !Takes(w.stream, 0, StartFacts(w.calls[c].request, []) + [QueueCancelled(w.calls[c].request)], disk) then Some(error)
      else None
    case Decide(c, aborted, clock, _, _, _) =>
      if c >= |w.calls| || !w.calls[c].place.Begun? || (aborted && w.calls[c].request.cooperative) || clock.Ok? then None
      else Some(clock.error)
    case _ => None
  }

  /** The step surfaces no error of which nothing can be said. */
  predicate Speaks(w: World, step: Step) { Surfaces(w, step).Some? ==> !Silent(Surfaces(w, step).value) }

  /** One call moves on: all envelopes are canonical when they were and its own is. */
  lemma PutCanonical(w: World, c: nat, z: World)
    requires c < |w.calls| && !w.calls[c].place.Returned? && |z.calls| == |w.calls|
    requires forall i :: 0 <= i < |w.calls| && i != c ==> z.calls[i] == w.calls[i]
    ensures AllCanonical(z) <==> AllCanonical(w) && (z.calls[c].place.Returned? ==> Canonical(z.calls[c].place.envelope))
  {
    if AllCanonical(z) {
      forall i | 0 <= i < |w.calls| && w.calls[i].place.Returned? ensures Canonical(w.calls[i].place.envelope) { assert z.calls[i] == w.calls[i]; }
    }
  }

  lemma ConcludedCanonical(w: World, c: nat, e: Ending, how: How, disk: bool, cause: string, warning: Option<Warning>)
    requires c < |w.calls| && w.calls[c].request.operation != "" && Canonical(e.envelope)
    ensures var p := Conclude(w, c, e, how, disk, cause, warning).calls[c].place; p.Returned? && Canonical(p.envelope)
  {
    FailureCanonicalIff(
      Governed(Fixed(AppendLost), InDoubt),
      w.calls[c].request.operation, e.evidence, e.warnings + [AppendFailed(cause)]);
  }

  lemma NextCanonicalIff(w: World, step: Step)
    requires WorldOk(w) && w.operation != ""
    ensures AllCanonical(Next(w, step)) <==> AllCanonical(w) && Speaks(w, step)
  {
    match step
    case Arrive(_) => ArriveCanonical(w, step);
    case Read(c) => if c < |w.calls| && w.calls[c].place.Fresh? { ReadCanonicalIff(w, c); }
    case Begin(c, approval, disk, error) =>
      if c < |w.calls| && w.calls[c].place.Ready? && !w.calls[c].request.queued { BeginCanonicalIff(w, c, approval, disk, error); }
    case CancelQueued(c, disk, error, warning) =>
      if c < |w.calls| && w.calls[c].place.Ready? && w.calls[c].request.queued { CancelCanonicalIff(w, c, disk, error, warning); }
    case Decide(c, aborted, clock, disk, cause, warning) =>
      if c < |w.calls| && w.calls[c].place.Begun? { DecideCanonicalIff(w, c, aborted, clock, disk, cause, warning); }
    case Finish(c, answer, disk, cause, warning) =>
      if c < |w.calls| && w.calls[c].place.Running? { FinishCanonicalIff(w, c, answer, disk, cause, warning); }
    case Crash(c) => if c < |w.calls| && !w.calls[c].place.Returned? { PutCanonical(w, c, Put(w, c, Dead)); }
  }

  lemma ArriveCanonical(w: World, step: Step)
    requires step.Arrive?
    ensures AllCanonical(Next(w, step)) <==> AllCanonical(w)
  {
    var z := Next(w, step);
    forall c | 0 <= c < |w.calls| ensures z.calls[c] == w.calls[c] { }
    if AllCanonical(z) {
      forall c | 0 <= c < |w.calls| && w.calls[c].place.Returned? ensures Canonical(w.calls[c].place.envelope) { assert z.calls[c] == w.calls[c]; }
    }
  }

  lemma ReadCanonicalIff(w: World, c: nat)
    requires c < |w.calls| && w.calls[c].place.Fresh? && w.calls[c].request.operation != ""
    ensures AllCanonical(ReadStep(w, c)) <==> AllCanonical(w)
  {
    var r := w.calls[c].request;
    PutCanonical(w, c, ReadStep(w, c));
    ReplayCanonical(w.stream, r);
    FailureCanonicalIff(Governed(Fixed(BoundElsewhere), Fixed(ScopeConflict)), r.operation, [], r.warnings);
  }

  lemma BeginCanonicalIff(w: World, c: nat, approval: Result<string, Thrown>, disk: bool, error: Thrown)
    requires c < |w.calls| && w.calls[c].place.Ready? && !w.calls[c].request.queued && w.calls[c].request.operation != ""
    ensures AllCanonical(BeginStep(w, c, approval, disk, error)) <==> AllCanonical(w) && Speaks(w, Begin(c, approval, disk, error))
  {
    var r := w.calls[c].request;
    PutCanonical(w, c, BeginStep(w, c, approval, disk, error));
    FailureCanonicalIff(error, r.operation, [], r.warnings);
    if approval.Err? { FailureCanonicalIff(approval.error, r.operation, [], r.warnings); }
  }

  lemma CancelCanonicalIff(w: World, c: nat, disk: bool, error: Thrown, warning: Option<Warning>)
    requires c < |w.calls| && w.calls[c].place.Ready? && w.calls[c].request.queued && w.calls[c].request.operation != ""
    ensures AllCanonical(CancelStep(w, c, disk, error, warning)) <==> AllCanonical(w) && Speaks(w, CancelQueued(c, disk, error, warning))
  {
    var r := w.calls[c].request;
    PutCanonical(w, c, CancelStep(w, c, disk, error, warning));
    FailureCanonicalIff(error, r.operation, [], r.warnings);
    FailureCanonicalIff(Governed(Fixed(CancelledBefore), Fixed(WasCancelled)), r.operation, [], r.warnings);
  }

  lemma FinishCanonicalIff(w: World, c: nat, answer: Answer, disk: bool, cause: string, warning: Option<Warning>)
    requires c < |w.calls| && w.calls[c].place.Running? && w.calls[c].request.operation != ""
    ensures AllCanonical(FinishStep(w, c, answer, disk, cause, warning)) <==> AllCanonical(w)
  {
    var r, approval := w.calls[c].request, w.calls[c].place.approval;
    PutCanonical(w, c, FinishStep(w, c, answer, disk, cause, warning));
    EndCanonical(r, approval, answer);
    ConcludedCanonical(w, c, End(r, approval, answer), Settled, disk, cause, warning);
  }

  lemma DecideCanonicalIff(w: World, c: nat, aborted: bool, clock: Result<bool, Thrown>, disk: bool, cause: string, warning: Option<Warning>)
    requires c < |w.calls| && w.calls[c].place.Begun? && w.calls[c].request.operation != ""
    ensures AllCanonical(DecideStep(w, c, aborted, clock, disk, cause, warning)) <==>
      AllCanonical(w) && Speaks(w, Decide(c, aborted, clock, disk, cause, warning))
  {
    var r, approval := w.calls[c].request, w.calls[c].place.approval;
    PutCanonical(w, c, DecideStep(w, c, aborted, clock, disk, cause, warning));
    if aborted && r.cooperative {
      FailureCanonicalIff(Governed(Fixed(WasCancelled), Fixed(WasCancelled)), r.operation, approval, r.warnings);
      ConcludedCanonical(w, c, Aborted(r, approval), Settled, disk, cause, warning);
    } else if clock.Err? {
      FailureCanonicalIff(clock.error, r.operation, [], r.warnings);
    } else if clock.value {
      FailureCanonicalIff(Governed(Fixed(NotSettled), Fixed(DeadlineExceeded)), r.operation, approval, r.warnings);
      ConcludedCanonical(w, c, TooLate(r, approval), Overdue, disk, cause, warning);
    }
  }

  ghost predicate SpeaksThroughout(operation: string, steps: seq<Step>) {
    forall n :: 0 <= n < |steps| ==> Speaks(Run(operation, steps[..n]), steps[n])
  }

  lemma SpeaksPush(operation: string, steps: seq<Step>, step: Step)
    ensures SpeaksThroughout(operation, steps + [step]) <==> SpeaksThroughout(operation, steps) && Speaks(Run(operation, steps), step)
  {
    var all := steps + [step];
    assert all[..|steps|] == steps;
    forall m | 0 <= m < |steps| ensures all[..m] == steps[..m] && all[m] == steps[m] { }
    if SpeaksThroughout(operation, all) {
      forall m | 0 <= m < |steps| ensures Speaks(Run(operation, steps[..m]), steps[m]) { assert Speaks(Run(operation, all[..m]), all[m]); }
      assert Speaks(Run(operation, all[..|steps|]), all[|steps|]);
    }
  }

  ghost predicate CanonicalWhenSpoken(operation: string, steps: seq<Step>) {
    AllCanonical(Run(operation, steps)) <==> SpeaksThroughout(operation, steps)
  }

  lemma CanonicalAtStart(operation: string)
    ensures CanonicalWhenSpoken(operation, [])
  {
  }

  lemma OneMoreCanonical(operation: string, steps: seq<Step>, step: Step)
    requires operation != "" && CanonicalWhenSpoken(operation, steps)
    ensures CanonicalWhenSpoken(operation, steps + [step])
  {
    EveryWorld(operation, steps);
    OperationIs(operation, steps);
    RunPush(operation, steps, step);
    NextCanonicalIff(Run(operation, steps), step);
    SpeaksPush(operation, steps, step);
  }

  lemma {:induction false} EveryRunSpoken(operation: string, steps: seq<Step>)
    requires operation != ""
    ensures CanonicalWhenSpoken(operation, steps)
    decreases |steps|
  {
    if steps == [] {
      CanonicalAtStart(operation);
    } else {
      var n := |steps| - 1;
      EveryRunSpoken(operation, steps[..n]);
      OneMoreCanonical(operation, steps[..n], steps[n]);
      assert steps[..n] + [steps[n]] == steps;
    }
  }

  /** Every envelope any call returns passes the port's own check, exactly when no error surfaces of
      which nothing can be said. */
  lemma {:induction false} EveryEnvelopeCanonicalIff(operation: string, steps: seq<Step>)
    requires operation != ""
    ensures AllCanonical(Run(operation, steps)) <==> forall n :: 0 <= n < |steps| ==> Speaks(Run(operation, steps[..n]), steps[n])
  {
    EveryRunSpoken(operation, steps);
  }

  lemma {:induction false} OperationIs(operation: string, steps: seq<Step>)
    ensures Run(operation, steps).operation == operation
    decreases |steps|
  {
    if steps != [] {
      OperationIs(operation, steps[..|steps| - 1]);
      OperationStays(Run(operation, steps[..|steps| - 1]), steps[|steps| - 1]);
    }
  }

  lemma OperationStays(w: World, step: Step)
    ensures Next(w, step).operation == w.operation
  {
  }

  /** It is not always so: a resolver of approvals that throws the empty string. */
  lemma EmptyThrowNotCanonical(r: Request, e: Thrown)
    requires !r.queued && r.operation != "" && r.needsApproval && Silent(e)
    ensures var w := Run(r.operation, [Arrive(r), Read(0), Begin(0, Err(e), true, e)]);
      |w.calls| == 1 && w.calls[0].place.Returned? && !Canonical(w.calls[0].place.envelope)
  {
    var steps := [Arrive(r), Read(0), Begin(0, Err(e), true, e)];
    assert steps[..2] == [steps[0], steps[1]] && steps[..2][..1] == [steps[0]] && [steps[0]][..0] == [];
    assert Run(r.operation, []) == World(r.operation, [], [], [], None);
    assert Run(r.operation, [steps[0]]) == World(r.operation, [], [Call(r, Fresh)], [], None);
    assert Run(r.operation, steps[..2]) == World(r.operation, [], [Call(r, Ready)], [], None);
    FailureCanonicalIff(e, r.operation, [], r.warnings);
  }
}
