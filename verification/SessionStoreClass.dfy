/** The relational session store as an object on its ledger. */
module SessionStoreClass {
  import opened Outcomes
  import opened F = ForkTree

  class RelationalSessionEventStore {
    var ledger: Ledger

    constructor ()
      ensures ledger == Ledger(map[], 0)
    {
      ledger := Ledger(map[], 0);
    }

    /** `assertSessionCausation`: the set of earlier event ids grows as the rows are walked. */
    method AssertSessionCausation(session: Id, rows: seq<Row>) returns (ok: bool)
      ensures ok <==> CausationOk(ledger, session, rows)
    {
      if rows == [] { return true; }
      if !AnchorOk(ledger, session, rows) { return false; }
      var earlier: set<Id> := {};
      for n := 0 to |rows|
        invariant forall x :: x in earlier <==> exists i :: 0 <= i < n && rows[i].id == x
        invariant forall k :: 0 < k < n ==> Links(rows, k)
      {
        var isForkAttachment := rows[n].event.Attached? && rows[n].cause.By? && rows[n].cause.event in earlier;
        if n > 0 && rows[n].cause != By(rows[n - 1].id) && !isForkAttachment {
          assert !Links(rows, n);
          return false;
        }
        earlier := earlier + {rows[n].id};
      }
      ok := true;
    }

    method AssertUniformTrace(rows: seq<Row>) returns (ok: bool)
      ensures ok <==> UniformTrace(rows)
    {
      for n := 0 to |rows|
        invariant forall k :: 0 <= k < n ==> rows[k].trace == rows[0].trace
      {
        if rows[n].trace != rows[0].trace { return false; }
      }
      ok := true;
    }

    method Read(session: Id, rows: seq<Row>) returns (r: Result<(), Error>)
      ensures r == ReadPrefix(ledger, session, rows)
    {
      var uniform := AssertUniformTrace(rows);
      if !uniform { return Err(Trace); }
      var linked := AssertSessionCausation(session, rows);
      r := if linked then Ok(()) else Err(Causation);
    }

    method AppendEvents(session: Id, expected: nat, events: seq<(Id, Event)>, trace: Option<Id>) returns (problem: Option<Error>)
      modifies this
      ensures match Append(old(ledger), session, expected, events, trace)
        case Ok(l) => problem.None? && ledger == l
        case Err(e) => problem == Some(e) && ledger == old(ledger)
    {
      var rows := Stream(ledger, session);
      var t := TraceFor(ledger, session, trace);
      if events == [] || !NewIds(RowsOf(events, Root(session), t, 0)) { return Some(Invalid); }
      var read := Read(session, rows);
      if read.Err? { return Some(read.error); }
      if trace.Some? && trace.value != t { return Some(Trace); }
      var stored := expected < |rows| && SameEvents(rows, expected, RowsOf(events, Root(session), t, 0));
      if |rows| != expected && !stored { return Some(Version); }
      if |rows| == expected && Fold(session, Extended(ledger, session, events, trace)).None? { return Some(Replay); }
      if expected == 0 && !RootFirst(events) { return Some(Causation); }
      if stored {
        var same := SameRows(rows, expected, RowsOf(events, CauseAt(ledger, session, expected), t, 0));
        return if same then None else Some(DuplicateId);
      }
      var all := Extended(ledger, session, events, trace);
      if !NewIds(all) { return Some(DuplicateId); }
      ledger := Ledger(ledger.streams[session := all], ledger.next + |events|);
      problem := None;
    }

    /** Every refusal is told before the batch is written, and a refused fork writes nothing. */
    method ForkSession(i: ForkInput) returns (problem: Option<Error>)
      modifies this
      ensures match Fork(old(ledger), i)
        case Ok(l) => problem.None? && ledger == l
        case Err(e) => problem == Some(e) && ledger == old(ledger)
    {
      var rows := Stream(ledger, i.parent);
      if !(1 <= i.sequence <= |rows|) { return Some(NotFound); }
      var read := Read(i.parent, rows[..i.sequence]);
      if read.Err? { return Some(read.error); }
      read := Read(i.parent, rows);
      if read.Err? { return Some(read.error); }
      var source, parent := Fold(i.parent, rows[..i.sequence]), Fold(i.parent, rows);
      if source.None? || parent.None? { return Some(Replay); }
      var spec := parent.value.spec;
      if i.spec.parent != Some(i.parent) { return Some(ParentMismatch); }
      if i.spec.authority != spec.authority || i.spec.policy != spec.policy { return Some(AuthorityWidening); }
      if !Within(i.spec.limits, spec.limits) { return Some(LimitWidening); }
      var existing := AttachedAt(rows, i.spec.session);
      if existing >= 0 && rows[existing].id != i.attached { return Some(ChildConflict); }
      if existing < 0 && |parent.value.children| >= spec.limits.children { return Some(ChildLimit); }
      if i.trace.Some? && i.trace.value != rows[0].trace { return Some(Trace); }
      var attached := ParentRows(ledger, i);
      if attached.Err? { return Some(attached.error); }
      problem := PrepareChild(i, attached.value);
      if problem.None? { problem := AppendBatch(i, attached.value); }
    }

    /** `_prepareAppend` of the child's first events, next to the parent's rows of the same batch. */
    method PrepareChild(i: ForkInput, parent: seq<Row>) returns (problem: Option<Error>)
      requires 1 <= i.sequence <= |Stream(ledger, i.parent)|
      ensures problem == ChildProblem(ledger, i, parent)
    {
      var rows, added := Stream(ledger, i.spec.session), ChildRows(ledger, i, parent);
      if !NewIds(added) { return Some(Invalid); }
      var read := Read(i.spec.session, rows);
      if read.Err? { return Some(read.error); }
      if rows != [] && rows[0].trace != added[0].trace { return Some(Trace); }
      if rows == [] && Fold(i.spec.session, added).None? { return Some(Replay); }
      if rows != [] && !SameEvents(rows, 0, added) { return Some(Version); }
      var a := AttachedAt(parent, i.spec.session);
      if a < 0 || parent[a].cause != By(Stream(ledger, i.parent)[i.sequence - 1].id) { return Some(Causation); }
      problem := None;
    }

    /** `appendBatch`: rows stored already have to be the same, and either both streams are written
        or neither is. */
    method AppendBatch(i: ForkInput, parent: seq<Row>) returns (problem: Option<Error>)
      requires 1 <= i.sequence <= |Stream(ledger, i.parent)|
      modifies this
      ensures match Commit(old(ledger), i, parent)
        case Ok(l) => problem.None? && ledger == l
        case Err(e) => problem == Some(e) && ledger == old(ledger)
    {
      var rows, added := Stream(ledger, i.spec.session), ChildRows(ledger, i, parent);
      if !NewIds(parent) { return Some(DuplicateId); }
      if rows != [] && !SameRows(rows, 0, added) { return Some(DuplicateId); }
      var attached := if parent == Stream(ledger, i.parent) then 0 else 1;
      var begun := if rows == [] then |added| else 0;
      var streams := ledger.streams[i.parent := parent];
      ledger := Ledger(streams[i.spec.session := if rows == [] then added else rows], ledger.next + attached + begun);
      problem := None;
    }
  }
}
