/** `execute` and `cancelQueued` as the program runs them: warnings and evidence are gathered in
    place, facts are appended to the operation's stream.  Each call, run without interruption, is the
    run of GovernedExecution's steps for it. */
module GovernedExecutionClass {
  import opened Outcomes
  import opened G = GovernedExecution

  /** The answers one `execute` call meets. */
  datatype Script = Script(
    approval: Result<string, Thrown>,
    startDisk: bool,
    startError: Thrown,
    aborted: bool,
    clock: Result<bool, Thrown>,
    answer: Answer,
    disk: bool,
    cause: string,
    warning: Option<Warning>)

  function Alone(r: Request, stream: seq<Fact>): World {
    World(r.operation, stream, [Call(r, Fresh)], [], None)
  }

  function Began(r: Request, stream: seq<Fact>, approval: seq<string>): World {
    World(r.operation, stream, [Call(r, Begun(approval))], [], Some(0))
  }

  function ExecuteRun(r: Request, stream: seq<Fact>, s: Script): World {
    var read := Next(Alone(r, stream), Read(0));
    Rest(Next(read, Begin(0, s.approval, s.startDisk, s.startError)), s)
  }

  function CancelRun(r: Request, stream: seq<Fact>, s: Script): World {
    Next(Next(Alone(r, stream), Read(0)), CancelQueued(0, s.startDisk, s.startError, s.warning))
  }

  /** Where one call stands after an ending was tried on the stream. */
  ghost predicate Concluded(w: World, stream: seq<Fact>, r: Request, e: Ending, s: Script) {
    && |w.calls| == 1 && w.calls[0].place.Returned?
    && if Takes(stream, 2, [e.fact], s.disk)
       then w.stream == stream + [e.fact] && w.calls[0].place.envelope == Reconciled(e.envelope, s.warning)
       else w.stream == stream && w.calls[0].place.envelope == PersistenceFailure(r.operation, e.evidence, e.warnings, s.cause)
  }

  /** A call that has returned stays as it is. */
  lemma FinishNone(w: World, s: Script)
    requires |w.calls| == 1 && w.calls[0].place.Returned?
    ensures Next(w, Finish(0, s.answer, s.disk, s.cause, s.warning)) == w
  {
  }

  /** The last two steps of a call. */
  function Rest(w: World, s: Script): World {
    Next(Next(w, Decide(0, s.aborted, s.clock, s.disk, s.cause, s.warning)), Finish(0, s.answer, s.disk, s.cause, s.warning))
  }

  lemma RestNone(w: World, s: Script)
    requires |w.calls| == 1 && w.calls[0].place.Returned?
    ensures Rest(w, s) == w
  {
  }

  lemma BeginCases(r: Request, stream: seq<Fact>, s: Script)
    requires !r.queued
    ensures var read := Put(Alone(r, stream), 0, Ready);
      var begun := Next(read, Begin(0, s.approval, s.startDisk, s.startError));
      if r.needsApproval && s.approval.Err?
      then Rest(begun, s) == begun && begun == Put(read, 0, Returned(FailureEnvelope(s.approval.error, r.operation, [], r.warnings), Refused))
      else
        var evidence := if r.needsApproval then [s.approval.value] else [];
        if Takes(stream, 0, StartFacts(r, evidence), s.startDisk) then begun == Began(r, StartFacts(r, evidence), evidence)
        else Rest(begun, s) == begun && begun == Put(read, 0, Returned(FailureEnvelope(s.startError, r.operation, [], r.warnings), Refused))
  {
    var begun := Next(Put(Alone(r, stream), 0, Ready), Begin(0, s.approval, s.startDisk, s.startError));
    if begun.calls[0].place.Returned? { RestNone(begun, s); }
  }

  lemma DecideCases(w: World, r: Request, approval: seq<string>, s: Script)
    requires w.calls == [Call(r, Begun(approval))]
    ensures var d := Next(w, Decide(0, s.aborted, s.clock, s.disk, s.cause, s.warning));
      var z := Next(d, Finish(0, s.answer, s.disk, s.cause, s.warning));
      if s.aborted && r.cooperative then z == d && Concluded(z, w.stream, r, Aborted(r, approval), s) && z.dispatched == w.dispatched
      else match s.clock
        case Err(x) => z == d && z.stream == w.stream && z.dispatched == w.dispatched && |z.calls| == 1
          && z.calls[0].place == Returned(FailureEnvelope(x, r.operation, [], r.warnings), Unsettled)
        case Ok(late) =>
          if late then z == d && Concluded(z, w.stream, r, TooLate(r, approval), s) && z.dispatched == w.dispatched
          else d == w.(calls := [Call(r, Running(approval))], dispatched := w.dispatched + [0])
  {
    var d := Next(w, Decide(0, s.aborted, s.clock, s.disk, s.cause, s.warning));
    if d.calls[0].place.Returned? { FinishNone(d, s); }
  }

  lemma FinishCases(w: World, r: Request, approval: seq<string>, s: Script)
    requires w.calls == [Call(r, Running(approval))]
    ensures var z := Next(w, Finish(0, s.answer, s.disk, s.cause, s.warning));
      Concluded(z, w.stream, r, End(r, approval, s.answer), s) && z.dispatched == w.dispatched
  {
  }

  class GovernedExecutionRuntime {
    var stream: seq<Fact>
    var providerCalls: nat

    constructor ()
      ensures stream == [] && providerCalls == 0
    {
      stream, providerCalls := [], 0;
    }

    /** `existing.find`, `findLast` and `flatMap` over the stream. */
    method Scan() returns (authorized: Option<Fact>, terminal: Option<Fact>, evidence: seq<string>)
      ensures authorized == FirstAuthorized(stream) && terminal == LastTerminal(stream) && evidence == AllEvidence(stream)
    {
      authorized, terminal, evidence := None, None, [];
      for n := 0 to |stream|
        invariant terminal == LastTerminal(stream[..n]) && evidence == AllEvidence(stream[..n])
        invariant authorized.Some? ==> authorized == FirstAuthorized(stream)
        invariant authorized.None? ==> FirstAuthorized(stream) == FirstAuthorized(stream[n..])
      {
        if authorized.None? && stream[n].Authorized? { authorized := Some(stream[n]); }
        if stream[n].Terminal() { terminal := Some(stream[n]); }
        evidence := evidence + stream[n].evidence;
        assert stream[..n + 1][..n] == stream[..n] && stream[n..][1..] == stream[n + 1..];
      }
      assert stream[..|stream|] == stream;
    }

    method ReadExisting(r: Request) returns (reading: Reading)
      ensures reading == G.ReadExisting(stream, r)
    {
      if stream == [] { return Nothing; }
      var authorized, terminal, evidence := Scan();
      for n := 0 to |stream|
        invariant forall i :: 0 <= i < n ==> stream[i].meta == Lineage(r)
      {
        if stream[n].meta != Lineage(r) { return Conflict; }
      }
      if authorized.None? || authorized.value.content != r.content { return Conflict; }
      if terminal.None? {
        return Replayed(FailureEnvelope(Governed(Fixed(NoTerminal), InDoubt), r.operation, evidence, authorized.value.warnings));
      }
      reading := Replayed(ReplayOf(terminal.value, r.operation, evidence));
    }

    method Append(expected: nat, facts: seq<Fact>, disk: bool) returns (ok: bool)
      modifies this`stream
      ensures ok <==> Takes(old(stream), expected, facts, disk)
      ensures stream == if ok then old(stream) + facts else old(stream)
    {
      ok := disk && |stream| == expected;
      for n := 0 to |facts|
        invariant ok <==> disk && |stream| == expected && forall i :: 0 <= i < n ==> FactOk(facts[i])
      {
        ok := ok && FactOk(facts[n]);
      }
      if ok { stream := stream + facts; }
    }

    /** `_persistOutcome`, `_reconcile` and the envelope that follows. */
    method Conclude(r: Request, e: Ending, s: Script) returns (envelope: Envelope)
      modifies this`stream
      ensures Takes(old(stream), 2, [e.fact], s.disk) ==> stream == old(stream) + [e.fact] && envelope == Reconciled(e.envelope, s.warning)
      ensures !Takes(old(stream), 2, [e.fact], s.disk) ==>
        stream == old(stream) && envelope == PersistenceFailure(r.operation, e.evidence, e.warnings, s.cause)
    {
      var ok := Append(2, [e.fact], s.disk);
      if !ok { return PersistenceFailure(r.operation, e.evidence, e.warnings, s.cause); }
      envelope := e.envelope;
      if s.warning.Some? && s.warning.value !in envelope.warnings {
        envelope := envelope.(warnings := envelope.warnings + [s.warning.value]);
      }
    }

    method Execute(r: Request, s: Script) returns (envelope: Envelope)
      requires !r.queued
      modifies this
      ensures var w := ExecuteRun(r, old(stream), s);
        && w.calls[0].place.Returned? && envelope == w.calls[0].place.envelope
        && stream == w.stream && providerCalls == old(providerCalls) + |w.dispatched|
    {
      var reading := ReadExisting(r);
      match reading {
        case Conflict => return FailureEnvelope(Governed(Fixed(BoundElsewhere), Fixed(ScopeConflict)), r.operation, [], r.warnings);
        case Replayed(e) => return e;
        case Nothing =>
      }
      assert Next(Alone(r, stream), Read(0)) == Put(Alone(r, stream), 0, Ready);
      envelope := Dispatch(r, s);
    }

    /** From an operation with no facts on: approval, start facts, the last checks, the provider. */
    method Dispatch(r: Request, s: Script) returns (envelope: Envelope)
      requires !r.queued
      modifies this
      ensures var read := Put(Alone(r, old(stream)), 0, Ready);
        var w := Rest(Next(read, Begin(0, s.approval, s.startDisk, s.startError)), s);
        && w.calls[0].place.Returned? && envelope == w.calls[0].place.envelope
        && stream == w.stream && providerCalls == old(providerCalls) + |w.dispatched|
    {
      BeginCases(r, stream, s);
      var approvalEvidence := [];
      if r.needsApproval {
        if s.approval.Err? { return FailureEnvelope(s.approval.error, r.operation, [], r.warnings); }
        approvalEvidence := [s.approval.value];
      }
      var started := Append(0, StartFacts(r, approvalEvidence), s.startDisk);
      if !started { return FailureEnvelope(s.startError, r.operation, [], r.warnings); }
      assert [] + StartFacts(r, approvalEvidence) == StartFacts(r, approvalEvidence);
      envelope := Proceed(r, approvalEvidence, s);
    }

    /** From the start facts on. */
    method Proceed(r: Request, approvalEvidence: seq<string>, s: Script) returns (envelope: Envelope)
      modifies this
      ensures var w := Rest(Began(r, old(stream), approvalEvidence), s);
        && w.calls[0].place.Returned? && envelope == w.calls[0].place.envelope
        && stream == w.stream && providerCalls == old(providerCalls) + |w.dispatched|
    {
      ghost var begun := Began(r, stream, approvalEvidence);
      DecideCases(begun, r, approvalEvidence, s);
      if s.aborted && r.cooperative {
        envelope := Conclude(r, Aborted(r, approvalEvidence), s);
        return;
      }
      if s.clock.Err? { return FailureEnvelope(s.clock.error, r.operation, [], r.warnings); }
      if s.clock.value {
        envelope := Conclude(r, TooLate(r, approvalEvidence), s);
        return;
      }
      providerCalls := providerCalls + 1;
      FinishCases(begun.(calls := [Call(r, Running(approvalEvidence))], dispatched := [0]), r, approvalEvidence, s);
      envelope := Conclude(r, End(r, approvalEvidence, s.answer), s);
    }

    method CancelQueued(r: Request, s: Script) returns (envelope: Envelope)
      requires r.queued
      modifies this
      ensures var w := CancelRun(r, old(stream), s);
        && w.calls[0].place.Returned? && envelope == w.calls[0].place.envelope
        && stream == w.stream && providerCalls == old(providerCalls) && w.dispatched == []
    {
      var reading := ReadExisting(r);
      match reading {
        case Conflict => return FailureEnvelope(Governed(Fixed(BoundElsewhere), Fixed(ScopeConflict)), r.operation, [], r.warnings);
        case Replayed(e) => return e;
        case Nothing =>
      }
      assert Next(Alone(r, stream), Read(0)) == Put(Alone(r, stream), 0, Ready);
      var facts := StartFacts(r, []) + [QueueCancelled(r)];
      var taken := Append(0, facts, s.startDisk);
      if !taken { return FailureEnvelope(s.startError, r.operation, [], r.warnings); }
      envelope := FailureEnvelope(Governed(Fixed(CancelledBefore), Fixed(WasCancelled)), r.operation, [], r.warnings);
      if s.warning.Some? && s.warning.value !in envelope.warnings {
        envelope := envelope.(warnings := envelope.warnings + [s.warning.value]);
      }
    }
  }
}
