/** The local subagent provider: the traversal fills its two collections in place, and settling
    reports success for the sessions the traversal has listed. */
module SubagentProviderClass {
  import opened Outcomes
  import opened T = Traversal

  class CancellationWalk {
    const tree: Tree
    var visited: set<Id>
    var ordered: seq<Id>

    function Value(): Walk
      reads this
    {
      Walk(visited, ordered)
    }

    constructor (tree: Tree)
      ensures this.tree == tree && Value() == Walk({}, [])
    {
      this.tree := tree;
      visited, ordered := {}, [];
    }

    method VisitChild(id: Id) returns (problem: Option<Error>)
      modifies this
      ensures match Visit(tree, id, old(Value()))
        case Ok(w) => problem.None? && Value() == w
        case Err(e) => problem == Some(e)
      decreases LIMIT - |visited|
    {
      if id in visited { return None; }
      if |visited| >= LIMIT { return Some(TreeLimitExceeded); }
      visited := visited + {id};
      var children := tree(id);
      if children.None? { return Some(Unreadable); }
      ghost var entered := Value();
      for n := 0 to |children.value|
        invariant VisitAll(tree, children.value, entered) == VisitAll(tree, children.value[n..], Value())
        invariant entered.visited <= visited
      {
        Grows(entered.visited, visited);
        assert children.value[n..][0] == children.value[n] && children.value[n..][1..] == children.value[n + 1..];
        problem := VisitChild(children.value[n]);
        if problem.Some? { return; }
      }
      ordered := ordered + [id];
      problem := None;
    }
  }

  method OrderForCancellation(tree: Tree, ids: seq<Id>) returns (r: Result<seq<Id>, Error>)
    ensures r == CancellationOrder(tree, ids)
  {
    var walk := new CancellationWalk(tree);
    for n := 0 to |ids|
      invariant VisitAll(tree, ids, Walk({}, [])) == VisitAll(tree, ids[n..], walk.Value())
    {
      assert ids[n..][0] == ids[n] && ids[n..][1..] == ids[n + 1..];
      var problem := walk.VisitChild(ids[n]);
      if problem.Some? { return Err(problem.value); }
    }
    r := Ok(walk.ordered);
  }

  /** What one pass of settling finds: the parent's children, the tree when the traversal reads it and
      after the wait, the sessions that are terminal then, whose cancellation fails and whose task is
      rejected, and the sessions spawned before the tasks are gathered and during the wait. */
  datatype World = World(attached: seq<Id>, tree: Tree, treeAfter: Tree, terminalBefore: Id -> bool, terminalAfter: Id -> bool,
    cancelFails: Id -> bool, rejected: Id -> bool, early: set<Id>, late: set<Id>)

  function Filter(ids: seq<Id>, keep: Id -> bool): (r: seq<Id>)
    ensures forall x :: x in r <==> x in ids && keep(x)
  {
    if ids == [] then []
    else
      var n := |ids| - 1;
      Filter(ids[..n], keep) + (if keep(ids[n]) then [ids[n]] else [])
  }

  /** The sessions a pass settles: the requested ones, or with a cancellation all under them. */
  function Listed(w: World, ids: seq<Id>, cancelling: bool): Result<seq<Id>, Error> {
    if cancelling then CancellationOrder(w.tree, ids) else Ok(ids)
  }

  /** When a pass reports success. */
  predicate Settles(w: World, active: set<Id>, ids: seq<Id>, cancelling: bool) {
    && AllAttached(ids, w) && Listed(w, ids, cancelling).Ok?
    && forall x :: x in Listed(w, ids, cancelling).value ==>
      && w.terminalAfter(x)
      && (x in active + (if cancelling then w.early else {}) ==> !w.rejected(x))
      && (cancelling && !w.terminalBefore(x) ==> !w.cancelFails(x))
  }

  function NotTerminal(w: World): Id -> bool {
    x => !w.terminalBefore(x)
  }

  /** The sessions a pass asks to cancel. */
  function Asked(w: World, ids: seq<Id>, cancelling: bool): seq<Id> {
    if cancelling && AllAttached(ids, w) && Listed(w, ids, true).Ok?
    then Filter(Listed(w, ids, true).value, NotTerminal(w)) else []
  }

  /** What a pass reports, asks and leaves active. */
  predicate Reported(w: World, was: set<Id>, ids: seq<Id>, cancelling: bool, r: Result<seq<Id>, Error>, cancels: seq<Id>, now: set<Id>) {
    && (r.Ok? <==> Settles(w, was, ids, cancelling)) && cancels == Asked(w, ids, cancelling)
    && (r.Ok? ==> r.value == ids && now == was + (if cancelling then w.early else {}) + w.late - SetOf(Listed(w, ids, cancelling).value))
  }

  class LocalSubagentProvider {
    var active: set<Id>

    constructor ()
      ensures active == {}
    {
      active := {};
    }

    /** `#settle`; `deadline` is the world of the second pass if the wait of a join times out.  It
        succeeds exactly when the listed sessions are terminal after the wait, none of their tasks
        was rejected and none of their cancellations failed. */
    method Settle(ids: seq<Id>, w: World, deadline: Option<World>, cancelling: bool) returns (r: Result<seq<Id>, Error>, cancels: seq<Id>)
      modifies this
      ensures if AllAttached(ids, w) && !cancelling && deadline.Some?
        then Reported(deadline.value, old(active) + w.late, ids, true, r, cancels, active)
        else Reported(w, old(active), ids, cancelling, r, cancels, active)
      decreases if cancelling then 0 else 1
    {
      cancels := [];
      if !AllAttached(ids, w) { return Err(NotAttached), []; }
      var settleIds := ids;
      if cancelling {
        var order := OrderForCancellation(w.tree, ids);
        if order.Err? { return Err(order.error), []; }
        settleIds := order.value;
        cancels := Filter(settleIds, NotTerminal(w));
        assert cancels == Asked(w, ids, true);
        active := active + w.early;
        if exists k :: 0 <= k < |cancels| && w.cancelFails(cancels[k]) {
          CancelCounts(w, old(active), ids);
          return Err(CancelFailed), cancels;
        }
      }
      var rejected := exists k :: 0 <= k < |settleIds| && settleIds[k] in active && w.rejected(settleIds[k]);
      active := active + w.late;
      if deadline.Some? && !cancelling {
        r, cancels := Settle(ids, deadline.value, None, true);
        return;
      }
      var settled := AllTerminal(settleIds, w);
      if !settled { return Err(OrphanChild), cancels; }
      active := active - SetOf(settleIds);
      if rejected { return Err(TaskRejected), cancels; }
      r := Ok(ids);
    }
  }

  lemma CancelCounts(w: World, was: set<Id>, ids: seq<Id>)
    requires exists k :: 0 <= k < |Asked(w, ids, true)| && w.cancelFails(Asked(w, ids, true)[k])
    ensures !Settles(w, was, ids, true)
  {
    var k :| 0 <= k < |Asked(w, ids, true)| && w.cancelFails(Asked(w, ids, true)[k]);
    var x := Asked(w, ids, true)[k];
    assert x in Asked(w, ids, true);
    assert x in Listed(w, ids, true).value && !w.terminalBefore(x);
  }

  predicate AllAttached(ids: seq<Id>, w: World) {
    forall k :: 0 <= k < |ids| ==> ids[k] in w.attached
  }

  method AllTerminal(ids: seq<Id>, w: World) returns (all: bool)
    ensures all <==> forall x :: x in ids ==> w.terminalAfter(x)
  {
    for n := 0 to |ids|
      invariant forall k :: 0 <= k < n ==> w.terminalAfter(ids[k])
    {
      if !w.terminalAfter(ids[n]) { return false; }
    }
    all := true;
  }

  /** A cancellation that reports success has made every session reachable when it began terminal,
      and has asked each of them that was not. */
  lemma SettledTree(w: World, active: set<Id>, ids: seq<Id>)
    requires Settles(w, active, ids, true)
    ensures forall x :: Reaches(w.tree, ids, x) ==> w.terminalAfter(x) && (x in Asked(w, ids, true) <==> !w.terminalBefore(x))
    ensures forall x :: x in Asked(w, ids, true) ==> Reaches(w.tree, ids, x)
  {
    OrderIsTheTree(w.tree, ids);
  }

  /** After a cancellation that reports success, everything reachable by then is terminal exactly when
      the sessions attached to listed ones in the meantime are, with all that lies under them. */
  lemma SettledTreeIff(w: World, active: set<Id>, ids: seq<Id>)
    requires Settles(w, active, ids, true) && Grown(w.tree, w.treeAfter)
    ensures var order := CancellationOrder(w.tree, ids).value;
      (forall x :: Reaches(w.treeAfter, ids, x) ==> w.terminalAfter(x))
      <==> forall x :: ReachedLate(w.tree, w.treeAfter, order, x) ==> w.terminalAfter(x)
  {
    GrownReach(w.tree, w.treeAfter, ids);
  }
}
