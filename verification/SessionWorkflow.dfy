/** Workflow claims in the session log: reservations, reclaims, releases and phase checkpoints, and
    the engine that writes them. */
module SessionWorkflow {
  import opened Outcomes
  import opened SessionFold
  import opened SessionStream

  // ---------------------------------------------------------------- what every accepted log keeps

  predicate ClaimEvent(e: Event, w: Id) {
    (e.body.Reserved? && e.body.workflow == w) || (e.body.Reclaimed? && e.body.workflow == w)
  }

  function ExpiresOf(b: Body): int
    requires b.Reserved? || b.Reclaimed?
  {
    b.claimExpires
  }

  /** The last event of the log that gave out a claim on the workflow. */
  ghost predicate LastClaim(log: seq<Event>, w: Id, i: int) {
    0 <= i < |log| && ClaimEvent(log[i], w) && forall j :: i < j < |log| ==> !ClaimEvent(log[j], w)
  }

  predicate GivenBy(r: Reservation, e: Event) {
    ClaimEvent(e, r.workflow) && e.id == r.claimEvent && ExpiresOf(e.body) == r.claimExpires
  }

  ghost predicate ClaimsOk(s: State, log: seq<Event>) {
    && (forall w :: w in s.reservations ==>
          s.reservations[w].workflow == w && exists i :: LastClaim(log, w, i) && GivenBy(s.reservations[w], log[i]))
    && (forall w :: w !in s.reservations ==> forall i :: 0 <= i < |log| ==> !ClaimEvent(log[i], w))
  }

  ghost predicate BudgetOk(s: State) {
    && (forall w :: w in s.reserved <==> w in s.reservations)
    && (forall i, j :: 0 <= i < j < |s.reserved| ==> s.reserved[i] != s.reserved[j])
    && (forall v, w :: v in s.reservations && w in s.reservations && Active(s.reservations[v]) && Active(s.reservations[w]) ==> v == w)
    && (s.reserved != [] ==> s.spec.Some? && ReservedSteps(s, s.reserved) <= s.spec.value.limits.workflowSteps)
    && (forall w :: w in s.reservations ==> PhaseSteps(s.checkpoints, w) <= s.reservations[w].stepCount)
    && (forall w :: w !in s.reservations ==> PhaseSteps(s.checkpoints, w) == 0)
  }

  /** Reservations, checkpoints and phases are as they were. */
  ghost predicate SameBudget(s: State, z: State) {
    z.reserved == s.reserved && z.reservations == s.reservations && z.checkpoints == s.checkpoints && z.workflows == s.workflows
  }

  lemma {:induction false} SameSteps(s: State, z: State, ids: seq<Id>)
    requires forall w :: w in ids ==> (w in z.reservations <==> w in s.reservations)
    requires forall w :: w in ids && w in s.reservations ==> z.reservations[w].stepCount == s.reservations[w].stepCount
    ensures ReservedSteps(z, ids) == ReservedSteps(s, ids)
  {
    if ids != [] {
      var n := |ids| - 1;
      assert ids[n] in ids && forall w :: w in ids[..n] ==> w in ids;
      SameSteps(s, z, ids[..n]);
    }
  }

  lemma ReservedBudget(s: State, e: Event)
    requires BudgetOk(s) && e.body.Reserved? && ApplyReserved(s, e).Some?
    ensures BudgetOk(ApplyReserved(s, e).value)
  {
    ReservedShape(s, e);
    NewReservation(s, ApplyReserved(s, e).value, e.body.workflow);
  }

  lemma ReservedShape(s: State, e: Event)
    requires BudgetOk(s) && e.body.Reserved? && ApplyReserved(s, e).Some?
    ensures Added(s, ApplyReserved(s, e).value, e.body.workflow)
  {
  }

  /** A new reservation within the limit, and no other is active. */
  ghost predicate Added(s: State, z: State, w: Id) {
    && w !in s.reservations && w in z.reservations && z.reservations == s.reservations[w := z.reservations[w]]
    && z.reserved == s.reserved + [w] && z.checkpoints == s.checkpoints && z.spec == s.spec && s.spec.Some?
    && (forall v :: v in s.reservations ==> !Active(s.reservations[v]))
    && ReservedSteps(s, s.reserved) + z.reservations[w].stepCount <= s.spec.value.limits.workflowSteps
  }

  lemma NewReservation(s: State, z: State, w: Id)
    requires BudgetOk(s) && Added(s, z, w)
    ensures BudgetOk(z)
  {
    AddedSteps(s, z, w);
    OneActive(s, z, w);
    AddedList(s.reserved, z.reserved, w);
    AddedPhases(s, z, w);
    assert forall v :: v in z.reservations <==> v in s.reservations || v == w;
  }

  lemma AddedList(ids: seq<Id>, more: seq<Id>, w: Id)
    requires more == ids + [w] && w !in ids && forall i, j :: 0 <= i < j < |ids| ==> ids[i] != ids[j]
    ensures (forall v :: v in more <==> v in ids || v == w) && forall i, j :: 0 <= i < j < |more| ==> more[i] != more[j]
  {
  }

  lemma AddedPhases(s: State, z: State, w: Id)
    requires Added(s, z, w) && PhaseSteps(s.checkpoints, w) == 0
    requires forall v :: v in s.reservations ==> PhaseSteps(s.checkpoints, v) <= s.reservations[v].stepCount
    requires forall v :: v !in s.reservations ==> PhaseSteps(s.checkpoints, v) == 0
    ensures forall v :: v in z.reservations ==> PhaseSteps(z.checkpoints, v) <= z.reservations[v].stepCount
    ensures forall v :: v !in z.reservations ==> PhaseSteps(z.checkpoints, v) == 0
  {
    forall v: Id | v in z.reservations ensures PhaseSteps(z.checkpoints, v) <= z.reservations[v].stepCount {
      if v != w { assert v in s.reservations; }
    }
  }

  lemma AddedSteps(s: State, z: State, w: Id)
    requires w !in s.reserved && w in z.reservations && z.reserved == s.reserved + [w] && z.reservations == s.reservations[w := z.reservations[w]]
    requires forall v :: v in s.reserved ==> v in s.reservations
    ensures ReservedSteps(z, z.reserved) == ReservedSteps(s, s.reserved) + z.reservations[w].stepCount
  {
    SameSteps(s, z, s.reserved);
    assert z.reserved[..|z.reserved| - 1] == s.reserved;
  }

  lemma OneActive(s: State, z: State, w: Id)
    requires w !in s.reservations && w in z.reservations && z.reservations == s.reservations[w := z.reservations[w]]
    requires forall v :: v in s.reservations ==> !Active(s.reservations[v])
    ensures forall u, v :: u in z.reservations && v in z.reservations && Active(z.reservations[u]) && Active(z.reservations[v]) ==> u == v
  {
    forall v | v in z.reservations && v != w ensures !Active(z.reservations[v]) { assert v in s.reservations; }
  }

  lemma ClaimBudget(s: State, z: State, w: Id, r: Reservation)
    requires BudgetOk(s) && w in s.reservations && z == s.(reservations := s.reservations[w := r])
    requires r.stepCount == s.reservations[w].stepCount && (Active(r) ==> Active(s.reservations[w]))
    ensures BudgetOk(z)
  {
    SameSteps(s, z, s.reserved);
  }

  lemma {:induction false} PhasePush(cs: seq<Checkpoint>, c: Checkpoint, w: Id)
    ensures PhaseSteps(cs + [c], w) == PhaseSteps(cs, w) + (if c.workflow == w && c.steps.Some? then |c.steps.value| else 0)
  {
    assert (cs + [c])[..|cs|] == cs;
  }

  lemma PhaseBudget(s: State, e: Event)
    requires BudgetOk(s) && e.body.PhaseCheckpointed? && ApplyPhase(s, e).Some?
    ensures BudgetOk(ApplyPhase(s, e).value)
  {
    var z, b := ApplyPhase(s, e).value, e.body;
    forall w: Id ensures PhaseSteps(z.checkpoints, w) == PhaseSteps(s.checkpoints, w) + (if b.workflow == w then |b.steps| else 0) {
      PhasePush(s.checkpoints, Checkpoint(b.workflow, Some(b.steps), e.id), w);
    }
    SameSteps(s, z, s.reserved);
  }

  lemma LegacyBudget(s: State, e: Event)
    requires BudgetOk(s) && e.body.LegacyCheckpointed?
    ensures BudgetOk(s.(checkpoints := s.checkpoints + [Checkpoint(e.body.workflow, None, e.id)]))
  {
    var z := s.(checkpoints := s.checkpoints + [Checkpoint(e.body.workflow, None, e.id)]);
    forall w: Id ensures PhaseSteps(z.checkpoints, w) == PhaseSteps(s.checkpoints, w) {
      PhasePush(s.checkpoints, Checkpoint(e.body.workflow, None, e.id), w);
    }
    SameSteps(s, z, s.reserved);
  }

  lemma SameBudgetOk(s: State, z: State)
    requires BudgetOk(s) && SameBudget(s, z) && (s.spec.Some? ==> z.spec == s.spec)
    ensures BudgetOk(z)
  {
    SameSteps(s, z, s.reserved);
  }

  predicate Claiming(b: Body) { OfWorkflow(b) || b.LegacyCheckpointed? }

  lemma TurnSameBudget(k: Env, s: State, e: Event)
    ensures e.body.TurnStarted? && ApplyTurnStarted(s, e).Some? ==> SameBudget(s, ApplyTurnStarted(s, e).value)
    ensures e.body.Assembled? && ApplyAssembled(k, s, e).Some? ==> SameBudget(s, ApplyAssembled(k, s, e).value)
  {
  }

  lemma StepSameBudget(k: Env, s: State, e: Event)
    ensures e.body.StepStarted? && ApplyStepStarted(k, s, e).Some? ==> SameBudget(s, ApplyStepStarted(k, s, e).value)
    ensures e.body.Streamed? && ApplyStreamed(s, e).Some? ==> SameBudget(s, ApplyStreamed(s, e).value)
  {
  }

  lemma ToolSameBudget(k: Env, s: State, e: Event)
    ensures e.body.ToolStarted? && ApplyToolStarted(k, s, e).Some? ==> SameBudget(s, ApplyToolStarted(k, s, e).value)
    ensures e.body.ToolCompleted? && ApplyToolCompleted(s, e).Some? ==> SameBudget(s, ApplyToolCompleted(s, e).value)
    ensures e.body.OperationLinked? && ApplyOperationLinked(s, e).Some? ==> SameBudget(s, ApplyOperationLinked(s, e).value)
    ensures e.body.ChildAttached? && ApplyChildAttached(s, e).Some? ==> SameBudget(s, ApplyChildAttached(s, e).value)
  {
  }

  lemma CompactedSameBudget(k: Env, s: State, e: Event)
    ensures e.body.ContextCompacted? && ApplyContextCompacted(k, s, e).Some? ==> SameBudget(s, ApplyContextCompacted(k, s, e).value)
    ensures e.body.ToolsCompacted? && ApplyToolsCompacted(k, s, e).Some? ==> SameBudget(s, ApplyToolsCompacted(k, s, e).value)
  {
  }

  predicate OfTool(b: Body) { b.ToolStarted? || b.ToolCompleted? || b.OperationLinked? || b.ChildAttached? }

  predicate OfCompaction(b: Body) { b.ContextCompacted? || b.ToolsCompacted? }

  lemma OtherSameBudget(k: Env, s: State, e: Event)
    requires !Claiming(e.body) && ApplyBody(k, s, e).Some?
    ensures SameBudget(s, ApplyBody(k, s, e).value)
  {
    if OfTurn(e.body) {
      OfTurnSameBudget(k, s, e);
    } else if OfTool(e.body) {
      OfToolSameBudget(k, s, e);
    } else if OfCompaction(e.body) {
      CompactedSameBudget(k, s, e);
    } else if IsEnding(e.body) {
      IsEndingKeeps(k, s, e);
    } else {
      PlainSameBudget(k, s, e);
    }
  }

  lemma OfTurnSameBudget(k: Env, s: State, e: Event)
    requires OfTurn(e.body) && ApplyBody(k, s, e).Some?
    ensures SameBudget(s, ApplyBody(k, s, e).value)
  {
    TurnSameBudget(k, s, e);
    StepSameBudget(k, s, e);
  }

  lemma OfToolSameBudget(k: Env, s: State, e: Event)
    requires OfTool(e.body) && ApplyBody(k, s, e).Some?
    ensures SameBudget(s, ApplyBody(k, s, e).value)
  {
    ToolSameBudget(k, s, e);
  }

  lemma PlainSameBudget(k: Env, s: State, e: Event)
    requires e.body.Created? || e.body.Forked? || e.body.Resumed? || e.body.SubagentRequested? || e.body.CancelRequested?
    requires ApplyBody(k, s, e).Some?
    ensures SameBudget(s, ApplyBody(k, s, e).value)
  {
  }

  lemma ClaimingBudget(k: Env, s: State, e: Event)
    requires BudgetOk(s) && Claiming(e.body) && ApplyBody(k, s, e).Some?
    ensures BudgetOk(ApplyBody(k, s, e).value)
  {
    match e.body
    case Reserved(_, _, _, _, _, _) => ReservedBudget(s, e);
    case Reclaimed(_, _, _, _, _) => ReclaimedBudget(s, e);
    case Released(_, _, _, _) => ReleasedBudget(s, e);
    case PhaseCheckpointed(_, _, _, _, _, _) => PhaseBudget(s, e);
    case LegacyCheckpointed(_) => LegacyBudget(s, e);
  }

  lemma ReclaimedBudget(s: State, e: Event)
    requires BudgetOk(s) && e.body.Reclaimed? && ApplyReclaimed(s, e).Some?
    ensures BudgetOk(ApplyReclaimed(s, e).value)
  {
    var z := ApplyReclaimed(s, e).value;
    ClaimBudget(s, z, e.body.workflow, z.reservations[e.body.workflow]);
  }

  lemma ReleasedBudget(s: State, e: Event)
    requires BudgetOk(s) && e.body.Released? && ApplyReleased(s, e).Some?
    ensures BudgetOk(ApplyReleased(s, e).value)
  {
    var z := ApplyReleased(s, e).value;
    ClaimBudget(s, z, e.body.workflow, z.reservations[e.body.workflow]);
  }

  lemma ApplyBudget(k: Env, s: State, e: Event, n: nat)
    requires BudgetOk(s) && HeadOk(s, n) && Apply(k, s, e).Ok?
    ensures BudgetOk(Apply(k, s, e).value)
  {
    var entered := Enter(s, e);
    SameBudgetOk(s, entered);
    var t := ApplyBody(k, entered, e).value;
    if Claiming(e.body) {
      ClaimingBudget(k, entered, e);
    } else {
      OtherSameBudget(k, entered, e);
      BodyHead(k, entered, e);
      SameBudgetOk(entered, t);
    }
    SameBudgetOk(t, Apply(k, s, e).value);
  }

  lemma {:induction false} EveryBudgetOk(k: Env, log: seq<Event>)
    requires Accepted(k, log)
    ensures BudgetOk(Replay(k, log).value)
    decreases |log|
  {
    if log != [] {
      var n := |log| - 1;
      EveryBudgetOk(k, log[..n]);
      EveryStateOk(k, log[..n]);
      ApplyBudget(k, Replay(k, log[..n]).value, log[n], n);
    }
  }

  // ---------------------------------------------------------------- claims and the log

  /** Which claims a state's events give out or need: unchanged unless the event is of workflows. */
  lemma ClaimsPush(s: State, log: seq<Event>, e: Event, z: State)
    requires ClaimsOk(s, log)
    requires NewClaim(s, z, e) || SameClaims(s, z, e)
    ensures ClaimsOk(z, log + [e])
  {
    var all, n := log + [e], |log|;
    forall w | w in z.reservations
      ensures z.reservations[w].workflow == w && exists i :: LastClaim(all, w, i) && GivenBy(z.reservations[w], all[i])
    {
      if ClaimEvent(e, w) {
        assert LastClaim(all, w, n);
      } else {
        assert w in s.reservations;
        var i :| LastClaim(log, w, i) && GivenBy(s.reservations[w], log[i]);
        assert forall j :: 0 <= j < n ==> all[j] == log[j];
        assert LastClaim(all, w, i);
      }
    }
    forall w | w !in z.reservations ensures forall i :: 0 <= i < |all| ==> !ClaimEvent(all[i], w) {
      assert w !in s.reservations;
      forall i | 0 <= i < |all| ensures !ClaimEvent(all[i], w) {
        if i < n { assert all[i] == log[i]; }
      }
    }
  }

  /** The event gives out a claim. */
  ghost predicate NewClaim(s: State, z: State, e: Event) {
    && (e.body.Reserved? || e.body.Reclaimed?)
    && var w := e.body.workflow;
       && w in z.reservations && z.reservations == s.reservations[w := z.reservations[w]]
       && z.reservations[w].workflow == w && GivenBy(z.reservations[w], e)
  }

  /** The event gives out none, and changes none. */
  ghost predicate SameClaims(s: State, z: State, e: Event) {
    && !e.body.Reserved? && !e.body.Reclaimed? && z.reservations.Keys == s.reservations.Keys
    && forall w :: w in s.reservations ==>
      z.reservations[w].(released := s.reservations[w].released) == s.reservations[w]
  }

  lemma GivesClaim(s: State, e: Event, log: seq<Event>)
    requires ClaimsOk(s, log)
    ensures e.body.Reserved? && ApplyReserved(s, e).Some? ==> NewClaim(s, ApplyReserved(s, e).value, e)
    ensures e.body.Reclaimed? && ApplyReclaimed(s, e).Some? ==> NewClaim(s, ApplyReclaimed(s, e).value, e)
  {
  }

  lemma GivesNone(s: State, e: Event)
    ensures e.body.Released? && ApplyReleased(s, e).Some? ==> SameClaims(s, ApplyReleased(s, e).value, e)
    ensures e.body.PhaseCheckpointed? && ApplyPhase(s, e).Some? ==> SameClaims(s, ApplyPhase(s, e).value, e)
  {
  }

  lemma ClaimingReservations(k: Env, s: State, e: Event, log: seq<Event>)
    requires Claiming(e.body) && ApplyBody(k, s, e).Some? && ClaimsOk(s, log)
    ensures NewClaim(s, ApplyBody(k, s, e).value, e) || SameClaims(s, ApplyBody(k, s, e).value, e)
  {
    if e.body.Reserved? || e.body.Reclaimed? {
      GivesClaim(s, e, log);
    } else if !e.body.LegacyCheckpointed? {
      GivesNone(s, e);
    }
  }

  lemma ApplyReservations(k: Env, s: State, e: Event, log: seq<Event>)
    requires Apply(k, s, e).Ok? && ClaimsOk(s, log)
    ensures NewClaim(s, Apply(k, s, e).value, e) || SameClaims(s, Apply(k, s, e).value, e)
  {
    var entered := Enter(s, e);
    if Claiming(e.body) {
      ClaimingReservations(k, entered, e, log);
    } else {
      OtherSameBudget(k, entered, e);
    }
  }

  lemma {:induction false} EveryClaimOk(k: Env, log: seq<Event>)
    requires Accepted(k, log)
    ensures ClaimsOk(Replay(k, log).value, log)
    decreases |log|
  {
    if log != [] {
      var n := |log| - 1;
      EveryClaimOk(k, log[..n]);
      ApplyClaims(k, Replay(k, log[..n]).value, log[n], log[..n], log);
    } else {
      NoClaims();
    }
  }

  lemma NoClaims()
    ensures ClaimsOk(Start, [])
  {
  }

  lemma ApplyClaims(k: Env, s: State, e: Event, log: seq<Event>, all: seq<Event>)
    requires Apply(k, s, e).Ok? && ClaimsOk(s, log) && |all| == |log| + 1 && all[..|log|] == log && all[|log|] == e
    ensures ClaimsOk(Apply(k, s, e).value, all)
  {
    ApplyReservations(k, s, e, log);
    ClaimsPush(s, log, e, Apply(k, s, e).value);
    assert all == log + [e];
  }

  // ---------------------------------------------------------------- phases and the log

  /** Row i checkpoints phase p of workflow w. */
  predicate PhaseAt(log: seq<Event>, i: int, w: Id, p: Id) {
    0 <= i < |log| && log[i].body.PhaseCheckpointed? && log[i].body.workflow == w && log[i].body.phase == p
  }

  predicate Recorded(s: State, w: Id, p: Id) { w in s.workflows && p in s.workflows[w].phases }

  /** The recorded phases are those of the rows, each of one row, under one definition. */
  ghost predicate PhasesOk(s: State, log: seq<Event>) {
    && (forall i, w, p :: PhaseAt(log, i, w, p) ==> Recorded(s, w, p) && log[i].body.definition == s.workflows[w].definition)
    && (forall w, p :: Recorded(s, w, p) ==> exists i :: PhaseAt(log, i, w, p))
    && (forall i, j, w, p :: PhaseAt(log, i, w, p) && PhaseAt(log, j, w, p) ==> i == j)
  }

  ghost predicate NewPhase(s: State, z: State, e: Event) {
    && e.body.PhaseCheckpointed?
    && var b := e.body;
       var w := if b.workflow in s.workflows then s.workflows[b.workflow] else Workflow(b.definition, []);
       && w.definition == b.definition && b.phase !in w.phases
       && z.workflows == s.workflows[b.workflow := w.(phases := w.phases + [b.phase])]
  }

  lemma ApplyPhases(k: Env, s: State, e: Event)
    requires Apply(k, s, e).Ok?
    ensures var z := Apply(k, s, e).value;
      if e.body.PhaseCheckpointed? then NewPhase(s, z, e) else z.workflows == s.workflows
  {
    var entered := Enter(s, e);
    if Claiming(e.body) {
      ClaimingPhases(k, entered, e);
    } else {
      OtherSameBudget(k, entered, e);
    }
  }

  lemma ClaimingPhases(k: Env, s: State, e: Event)
    requires Claiming(e.body) && ApplyBody(k, s, e).Some?
    ensures var z := ApplyBody(k, s, e).value;
      if e.body.PhaseCheckpointed? then NewPhase(s, z, e) else z.workflows == s.workflows
  {
    if e.body.PhaseCheckpointed? {
      PhaseIsNew(s, e);
    } else if !e.body.LegacyCheckpointed? {
      ClaimsKeepPhases(s, e);
    }
  }

  lemma PhaseIsNew(s: State, e: Event)
    requires e.body.PhaseCheckpointed? && ApplyPhase(s, e).Some?
    ensures NewPhase(s, ApplyPhase(s, e).value, e)
  {
  }

  lemma ClaimsKeepPhases(s: State, e: Event)
    ensures e.body.Reserved? && ApplyReserved(s, e).Some? ==> ApplyReserved(s, e).value.workflows == s.workflows
    ensures e.body.Reclaimed? && ApplyReclaimed(s, e).Some? ==> ApplyReclaimed(s, e).value.workflows == s.workflows
    ensures e.body.Released? && ApplyReleased(s, e).Some? ==> ApplyReleased(s, e).value.workflows == s.workflows
  {
  }

  lemma PhasesPush(s: State, log: seq<Event>, e: Event, z: State)
    requires PhasesOk(s, log)
    requires if e.body.PhaseCheckpointed? then NewPhase(s, z, e) else z.workflows == s.workflows
    ensures PhasesOk(z, log + [e])
  {
    var all, n := log + [e], |log|;
    forall i, w, p | PhaseAt(all, i, w, p)
      ensures Recorded(z, w, p) && all[i].body.definition == z.workflows[w].definition && (i < n ==> PhaseAt(log, i, w, p))
    {
      if i < n { assert PhaseAt(log, i, w, p); }
    }
    forall w, p | Recorded(z, w, p) ensures exists i :: PhaseAt(all, i, w, p) {
      if Recorded(s, w, p) {
        var i :| PhaseAt(log, i, w, p);
        assert PhaseAt(all, i, w, p);
      } else {
        assert PhaseAt(all, n, w, p);
      }
    }
    forall i, j, w, p | PhaseAt(all, i, w, p) && PhaseAt(all, j, w, p) ensures i == j {
      if i == n || j == n { assert !Recorded(s, w, p); }
    }
  }

  lemma {:induction false} EveryPhaseOk(k: Env, log: seq<Event>)
    requires Accepted(k, log)
    ensures PhasesOk(Replay(k, log).value, log)
    decreases |log|
  {
    if log != [] {
      var n := |log| - 1;
      EveryPhaseOk(k, log[..n]);
      PhasesNext(k, Replay(k, log[..n]).value, log[n], log[..n], log);
    } else {
      NoPhases();
    }
  }

  lemma NoPhases()
    ensures PhasesOk(Start, [])
  {
  }

  lemma PhasesNext(k: Env, s: State, e: Event, log: seq<Event>, all: seq<Event>)
    requires Apply(k, s, e).Ok? && PhasesOk(s, log) && |all| == |log| + 1 && all[..|log|] == log && all[|log|] == e
    ensures PhasesOk(Apply(k, s, e).value, all)
  {
    ApplyPhases(k, s, e);
    PhasesPush(s, log, e, Apply(k, s, e).value);
    assert all == log + [e];
  }

  // ---------------------------------------------------------------- main results

  /** Whatever crashes, resumes and reclaims there were, an accepted log checkpoints a phase once at
      most, and all phases of a workflow under one definition. */
  lemma PhaseRecordedOnce(k: Env, log: seq<Event>, w: Id, i: nat, j: nat)
    requires Accepted(k, log) && i <= j < |log| && log[i].body.PhaseCheckpointed? && log[j].body.PhaseCheckpointed?
    requires log[i].body.workflow == log[j].body.workflow
    ensures log[i].body.definition == log[j].body.definition
    ensures log[i].body.phase == log[j].body.phase ==> i == j
  {
    EveryPhaseOk(k, log);
    assert PhaseAt(log, i, log[i].body.workflow, log[i].body.phase) && PhaseAt(log, j, log[j].body.workflow, log[j].body.phase);
  }

  /** In every accepted log at most one reservation is unreleased, all reserved steps together are
      within the session's limit, and the steps checkpointed for a workflow are within its
      reservation. */
  lemma ReservationsBounded(k: Env, log: seq<Event>, v: Id, w: Id)
    requires Accepted(k, log) && v in Replay(k, log).value.reservations && w in Replay(k, log).value.reservations
    ensures var s := Replay(k, log).value;
      && (Active(s.reservations[v]) && Active(s.reservations[w]) ==> v == w)
      && s.spec.Some? && ReservedSteps(s, s.reserved) <= s.spec.value.limits.workflowSteps
      && PhaseSteps(s.checkpoints, w) <= s.reservations[w].stepCount
  {
    EveryBudgetOk(k, log);
    var s := Replay(k, log).value;
    assert w in s.reserved;
  }

  /** The claim an event of a workflow names, if it is one that needs it. */
  function NamedClaim(b: Body): Option<(Id, Id)> {
    match b
    case Reclaimed(w, _, _, _, prior) => Some((w, prior))
    case Released(w, _, claim, _) => Some((w, claim))
    case PhaseCheckpointed(w, _, claim, _, _, _) => Some((w, claim))
    case _ => None
  }

  lemma NamesCurrent(k: Env, s: State, e: Event)
    requires Apply(k, s, e).Ok? && NamedClaim(e.body).Some?
    ensures var (w, claim) := NamedClaim(e.body).value; w in s.reservations && s.reservations[w].claimEvent == claim
  {
  }

  /** After a reclaim no checkpoint, reclaim or release that names an older claim is accepted, event
      ids being unique on the ledger. */
  lemma StaleClaimRefused(k: Env, log: seq<Event>, w: Id, i: nat, j: nat, e: Event)
    requires Accepted(k, log) && i < j < |log| && ClaimEvent(log[i], w) && ClaimEvent(log[j], w)
    requires forall a, b :: 0 <= a < b < |log| ==> log[a].id != log[b].id
    requires NamedClaim(e.body) == Some((w, log[i].id))
    ensures !Accepted(k, log + [e])
  {
    EveryClaimOk(k, log);
    ReplayPush(k, log, e);
    var s := Replay(k, log).value;
    if w in s.reservations {
      var l :| LastClaim(log, w, l) && GivenBy(s.reservations[w], log[l]);
      assert j <= l && log[i].id != log[l].id;
    }
    if Apply(k, s, e).Ok? { NamesCurrent(k, s, e); }
  }

  /** A reclaim is accepted only when the claim it takes over has expired. */
  lemma ReclaimOnlyAfterExpiry(k: Env, s: State, e: Event)
    requires Apply(k, s, e).Ok? && e.body.Reclaimed?
    ensures e.body.workflow in s.reservations
    ensures s.reservations[e.body.workflow].claimExpires < e.at && Active(s.reservations[e.body.workflow])
  {
  }

  lemma ClaimTakesOver(k: Env, s: State, e: Event, w: Id, prior: Event)
    requires Apply(k, s, e).Ok? && ClaimEvent(e, w) && w in s.reservations && GivenBy(s.reservations[w], prior)
    ensures e.body.Reclaimed? && e.body.priorEvent == prior.id && ExpiresOf(prior.body) < e.at
  {
    if e.body.Reclaimed? {
      ReclaimOnlyAfterExpiry(k, s, e);
      NamesCurrent(k, s, e);
    } else {
      ReservedOnce(k, s, e);
    }
  }

  /** Claims hand over: of two claims on a workflow with none between them the later one takes over
      the earlier, after that has expired. */
  lemma ClaimsHandOver(k: Env, log: seq<Event>, w: Id, i: nat, j: nat)
    requires Accepted(k, log) && i < j < |log| && ClaimEvent(log[i], w) && ClaimEvent(log[j], w)
    requires forall l :: i < l < j ==> !ClaimEvent(log[l], w)
    ensures log[j].body.Reclaimed? && log[j].body.priorEvent == log[i].id && ExpiresOf(log[i].body) < log[j].at
  {
    var before := log[..j];
    UpToAccepted(k, log, j + 1);
    assert log[..j + 1] == before + [log[j]] && before[i] == log[i];
    ReplayPush(k, before, log[j]);
    var s := Replay(k, before).value;
    LastGives(k, before, w, i);
    ClaimTakesOver(k, s, log[j], w, log[i]);
  }

  lemma LastGives(k: Env, log: seq<Event>, w: Id, i: nat)
    requires Accepted(k, log) && LastClaim(log, w, i)
    ensures w in Replay(k, log).value.reservations && GivenBy(Replay(k, log).value.reservations[w], log[i])
  {
    EveryClaimOk(k, log);
    var s := Replay(k, log).value;
    assert w in s.reservations;
    var l :| LastClaim(log, w, l) && GivenBy(s.reservations[w], log[l]);
    assert l == i;
  }

  lemma {:induction false} UpToAccepted(k: Env, log: seq<Event>, n: nat)
    requires Accepted(k, log) && n <= |log|
    ensures Accepted(k, log[..n])
    decreases |log|
  {
    if n < |log| {
      var before := log[..|log| - 1];
      UpToAccepted(k, before, n);
      assert before[..n] == log[..n];
    } else {
      assert log[..n] == log;
    }
  }

  lemma ReservedOnce(k: Env, s: State, e: Event)
    requires Apply(k, s, e).Ok? && e.body.Reserved?
    ensures e.body.workflow !in s.reservations
  {
  }

  /** Releasing a workflow does not fence its phases: whether a phase is accepted does not depend on
      it. */
  lemma ReleaseDoesNotFencePhases(s: State, e: Event, released: Option<RunStatus>)
    requires e.body.PhaseCheckpointed? && e.body.workflow in s.reservations
    ensures var r := s.reservations[e.body.workflow];
      var z := s.(reservations := s.reservations[e.body.workflow := r.(released := released)]);
      ApplyPhase(z, e).Some? <==> ApplyPhase(s, e).Some?
  {
  }

  lemma ReleaseSets(k: Env, s: State, r: Event)
    requires Apply(k, s, r).Ok? && r.body.Released?
    ensures var w := r.body.workflow;
      && w in s.reservations
      && Apply(k, s, r).value == s.(session := Some(r.session), current := r.sequence, seen := s.seen + {r.id},
                                    reservations := s.reservations[w := s.reservations[w].(released := Some(r.body.status))])
  {
  }

  lemma PhaseReads(s: State, z: State, e: Event, f: Event)
    requires e.body.PhaseCheckpointed? && f.body == e.body
    requires z.reservations == s.reservations && z.children == s.children && z.workflows == s.workflows && z.checkpoints == s.checkpoints
    ensures ApplyPhase(s, e).Some? <==> ApplyPhase(z, f).Some?
  {
  }

  lemma PhaseTakenIff(k: Env, s: State, e: Event)
    requires e.body.PhaseCheckpointed?
    ensures Apply(k, s, e).Ok? <==> Admit(s, e).Ok? && ApplyPhase(s, e).Some?
  {
    PhaseReads(s, Enter(s, e), e, e);
  }

  lemma AfterRelease(k: Env, s: State, r: Event, e: Event)
    requires s.current >= 0 && Apply(k, s, r).Ok? && r.body.Released? && e.body.PhaseCheckpointed? && e.body.workflow == r.body.workflow
    requires e.session == r.session && e.sequence == r.sequence
    ensures Apply(k, Apply(k, s, r).value, e.(sequence := r.sequence + 1)).Ok? <==> Apply(k, s, e).Ok?
  {
    var f, w, z := e.(sequence := r.sequence + 1), e.body.workflow, Apply(k, s, r).value;
    ReleaseSets(k, s, r);
    var y := s.(reservations := s.reservations[w := s.reservations[w].(released := Some(r.body.status))]);
    ReleaseDoesNotFencePhases(s, e, Some(r.body.status));
    PhaseReads(y, z, e, f);
    PhaseTakenIff(k, s, e);
    PhaseTakenIff(k, z, f);
  }

  /** A phase is taken right after its workflow was released exactly when it would have been taken
      before. */
  lemma PhaseTakenDespiteRelease(k: Env, log: seq<Event>, r: Event, e: Event)
    requires Accepted(k, log + [r]) && r.body.Released? && e.body.PhaseCheckpointed? && e.body.workflow == r.body.workflow
    requires e.session == r.session && e.sequence == r.sequence
    ensures Accepted(k, log + [r] + [e.(sequence := r.sequence + 1)]) <==> Accepted(k, log + [e])
  {
    ReplayPush(k, log, r);
    ReplayPush(k, log, e);
    ReplayPush(k, log + [r], e.(sequence := r.sequence + 1));
    EveryStateOk(k, log);
    AfterRelease(k, Replay(k, log).value, r, e);
  }

  // ---------------------------------------------------------------- the engine

  /** A workflow as the engine runs it: its phases' steps and the children they run in. */
  datatype Phase = Phase(id: Id, steps: seq<Id>, children: seq<Id>)

  datatype Definition = Definition(id: Id, digest: Id, phases: seq<Phase>)

  function ChildrenOf(phases: seq<Phase>): seq<Id> {
    if phases == [] then [] else ChildrenOf(phases[..|phases| - 1]) + phases[|phases| - 1].children
  }

  function StepsOf(phases: seq<Phase>): seq<Id> {
    if phases == [] then [] else StepsOf(phases[..|phases| - 1]) + phases[|phases| - 1].steps
  }

  /** What the definition's schema asks. */
  ghost predicate DefinitionOk(d: Definition) {
    && d.phases != []
    && (forall i :: 0 <= i < |d.phases| ==> d.phases[i].steps != [] && |d.phases[i].steps| == |d.phases[i].children|)
    && (forall i, j :: 0 <= i < j < |d.phases| ==> d.phases[i].id != d.phases[j].id)
    && Distinct(StepsOf(d.phases)) && Distinct(ChildrenOf(d.phases))
  }

  datatype EngineError = StepLimit | ChildLimit | DefinitionConflict | RunIsOver | BadResume | AlreadyActive | ParentAlreadyActive | StaleClaim | ClaimLive
    | ParentActive | Missing | ClaimLost | ReleaseConflict | ParentTerminal | OrphanChild | StoreRefused

  /** `#validateScope`, as far as the parent's counts go. */
  function ValidateScope(s: State, d: Definition): Result<(), EngineError>
    requires s.spec.Some?
  {
    var children := ChildrenOf(d.phases);
    var steps := if d.id in s.reservations then 0 else |children|;
    if ReservedSteps(s, s.reserved) + LegacySteps(s, s.checkpoints) + steps > s.spec.value.limits.workflowSteps then Err(StepLimit)
    else if NewChildren(s, children) > s.spec.value.limits.children - |s.children| then Err(ChildLimit)
    else Ok(())
  }

  /** The phases that are durable under this very definition; a legacy checkpoint has none. */
  function DurablePhases(s: State, d: Definition): Result<seq<Id>, EngineError> {
    if exists i :: 0 <= i < |s.checkpoints| && s.checkpoints[i].workflow == d.id && s.checkpoints[i].steps.None? then Err(DefinitionConflict)
    else if d.id !in s.workflows then Ok([])
    else if s.workflows[d.id].definition != d.digest then Err(DefinitionConflict)
    else Ok(s.workflows[d.id].phases)
  }

  /** `#reserve`: the event to append, or none when the workflow has completed. */
  function Reserve(s: State, d: Definition, request: Id, resumeFrom: Option<Id>, now: int): Result<Option<Body>, EngineError>
    requires s.spec.Some?
  {
    var expires := now + s.spec.value.limits.duration;
    if d.id in s.reservations then
      var r := s.reservations[d.id];
      if r.definition != d.digest then Err(DefinitionConflict)
      else if r.released.Some? && r.released.value != RunCompleted then Err(RunIsOver)
      else if r.released.Some? then (if resumeFrom.Some? then Err(BadResume) else Ok(None))
      else if resumeFrom.None? then Err(AlreadyActive)
      else if resumeFrom.value != r.claimEvent then Err(StaleClaim)
      else if now <= r.claimExpires then Err(ClaimLive)
      else Ok(Some(Reclaimed(d.id, d.digest, request, expires, r.claimEvent)))
    else if resumeFrom.Some? then Err(BadResume)
    else if exists w :: w in s.reservations && Active(s.reservations[w]) then Err(ParentActive)
    else Ok(Some(Reserved(d.id, d.digest, request, expires, |ChildrenOf(d.phases)|, ChildrenOf(d.phases))))
  }

  /** `#release`, by the run that holds the claim. */
  function Release(s: State, d: Definition, request: Id, claim: Id, status: RunStatus): Result<Option<Body>, EngineError> {
    if d.id !in s.reservations || s.reservations[d.id].definition != d.digest then Err(Missing)
    else
      var r := s.reservations[d.id];
      if r.claim != request || r.claimEvent != claim then Err(ClaimLost)
      else if r.released.Some? then (if r.released.value != status then Err(ReleaseConflict) else Ok(None))
      else Ok(Some(Released(d.id, d.digest, claim, status)))
  }

  /** `#assertClaim` and then `#checkpoint`. */
  function CheckpointPhase(s: State, d: Definition, request: Id, claim: Id, phase: Phase): Result<Body, EngineError> {
    if d.id !in s.reservations || s.reservations[d.id].claim != request || s.reservations[d.id].claimEvent != claim then Err(ClaimLost)
    else Ok(PhaseCheckpointed(d.id, d.digest, claim, phase.id, phase.steps, phase.children))
  }

  lemma {:induction false} ChildrenNonEmpty(phases: seq<Phase>)
    requires phases != [] && forall i :: 0 <= i < |phases| ==> phases[i].steps != [] && |phases[i].steps| == |phases[i].children|
    ensures ChildrenOf(phases) != []
  {
    assert phases[|phases| - 1].children != [];
  }

  /** Every reservation or reclaim the engine decides on is accepted by the fold of the state it was
      decided on. */
  lemma ReserveAccepted(k: Env, s: State, d: Definition, request: Id, resumeFrom: Option<Id>, now: int, e: Event)
    requires s.spec.Some? && DefinitionOk(d) && ValidateScope(s, d).Ok?
    requires var r := Reserve(s, d, request, resumeFrom, now); r.Ok? && r.value == Some(e.body)
    requires e.sequence == s.current + 1 && s.current > 0 && s.session == Some(e.session) && s.ending.None? && e.at == now
    ensures Apply(k, s, e).Ok?
  {
    ChildrenNonEmpty(d.phases);
    var z := Enter(s, e);
    SameSteps(s, z, s.reserved);
    SameLegacy(s, z, s.checkpoints);
    SameNew(s, z, ChildrenOf(d.phases));
    if e.body.Reserved? {
      assert ApplyReserved(z, e).Some?;
      AppliesClaim(k, s, e);
    } else {
      assert ApplyReclaimed(z, e).Some?;
      AppliesClaim(k, s, e);
    }
  }

  lemma AppliesClaim(k: Env, s: State, e: Event)
    requires e.sequence == s.current + 1 && s.current > 0 && s.session == Some(e.session) && s.ending.None? && OfWorkflow(e.body)
    ensures Apply(k, s, e).Ok? <==> ApplyBody(k, Enter(s, e), e).Some?
  {
  }

  lemma {:induction false} SameLegacy(s: State, z: State, cs: seq<Checkpoint>)
    requires z.reservations == s.reservations
    ensures LegacySteps(z, cs) == LegacySteps(s, cs)
  {
    if cs != [] { SameLegacy(s, z, cs[..|cs| - 1]); }
  }

  lemma {:induction false} SameNew(s: State, z: State, ids: seq<Id>)
    requires z.children == s.children
    ensures NewChildren(z, ids) == NewChildren(s, ids)
  {
    if ids != [] { SameNew(s, z, ids[1..]); }
  }

  /** So is every release. */
  lemma ReleaseAccepted(k: Env, s: State, d: Definition, request: Id, claim: Id, status: RunStatus, e: Event)
    requires var r := Release(s, d, request, claim, status); r.Ok? && r.value == Some(e.body)
    requires e.sequence == s.current + 1 && s.current > 0 && s.session == Some(e.session) && s.ending.None?
    ensures Apply(k, s, e).Ok? && ReleasedBy(Apply(k, s, e).value, d.id, request, status)
  {
    assert ApplyReleased(Enter(s, e), e).Some?;
    AppliesClaim(k, s, e);
  }

  /** The run of `request` released the workflow. */
  predicate ReleasedBy(s: State, w: Id, request: Id, status: RunStatus) {
    w in s.reservations && s.reservations[w].claim == request && s.reservations[w].released == Some(status)
  }

  /** The phase's children are attached, it is new under this definition, and its steps are within the
      reservation. */
  predicate CheckpointFits(s: State, d: Definition, phase: Phase) {
    && (forall i :: 0 <= i < |phase.children| ==> phase.children[i] in s.children)
    && (d.id in s.workflows ==> s.workflows[d.id].definition == d.digest && phase.id !in s.workflows[d.id].phases)
    && d.id in s.reservations && PhaseSteps(s.checkpoints, d.id) + |phase.steps| <= s.reservations[d.id].stepCount
  }

  /** In a definition that its schema admits, each phase has steps, and a child of its own for each. */
  lemma PhaseShape(d: Definition, m: nat)
    requires DefinitionOk(d) && m < |d.phases|
    ensures var p := d.phases[m]; p.steps != [] && |p.steps| == |p.children| && Distinct(p.steps) && Distinct(p.children)
  {
    PartsDistinct(d.phases, m);
  }

  lemma DistinctHalves(a: seq<Id>, b: seq<Id>)
    requires Distinct(a + b)
    ensures Distinct(a) && Distinct(b)
  {
    forall i, j | 0 <= i < j < |a| ensures a[i] != a[j] { assert (a + b)[i] != (a + b)[j]; }
    forall i, j | 0 <= i < j < |b| ensures b[i] != b[j] { assert (a + b)[|a| + i] != (a + b)[|a| + j]; }
  }

  lemma {:induction false} PartsDistinct(phases: seq<Phase>, m: nat)
    requires m < |phases| && Distinct(StepsOf(phases)) && Distinct(ChildrenOf(phases))
    ensures Distinct(phases[m].steps) && Distinct(phases[m].children)
    decreases |phases|
  {
    var n := |phases| - 1;
    DistinctHalves(StepsOf(phases[..n]), phases[n].steps);
    DistinctHalves(ChildrenOf(phases[..n]), phases[n].children);
    if m < n { PartsDistinct(phases[..n], m); }
  }

  /** A checkpoint is accepted exactly when, besides the engine's claim, its children are attached,
      the phase is new under this definition, and its steps are still within the reservation. */
  lemma CheckpointAcceptedIff(k: Env, s: State, d: Definition, request: Id, claim: Id, phase: Phase, e: Event)
    requires CheckpointPhase(s, d, request, claim, phase) == Ok(e.body)
    requires phase.steps != [] && |phase.steps| == |phase.children| && Distinct(phase.steps) && Distinct(phase.children)
    requires e.sequence == s.current + 1 && s.current > 0 && s.session == Some(e.session) && s.ending.None?
    ensures Apply(k, s, e).Ok? <==> CheckpointFits(s, d, phase)
  {
    assert ApplyBody(k, Enter(s, e), e) == ApplyPhase(Enter(s, e), e);
    AppliesClaim(k, s, e);
  }
}
