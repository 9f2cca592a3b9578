/** The cancellation traversal: every session under the requested children, once, descendants
    first, up to a bound on their number. */
module Traversal {
  import opened Outcomes

  type Id = string

  const LIMIT := 4096

  /** The children each session has attached; None where its log does not replay. */
  type Tree = Id -> Option<seq<Id>>

  datatype Error = TreeLimitExceeded | Unreadable | NotAttached | CancelFailed | OrphanChild | TaskRejected

  /** Sessions seen, and those finished, in order. */
  datatype Walk = Walk(visited: set<Id>, ordered: seq<Id>)

  function Visit(t: Tree, id: Id, w: Walk): (r: Result<Walk, Error>)
    ensures r.Ok? ==> w.visited <= r.value.visited
    decreases LIMIT - |w.visited|, 0
  {
    if id in w.visited then Ok(w)
    else if |w.visited| >= LIMIT then Err(TreeLimitExceeded)
    else match t(id)
      case None => Err(Unreadable)
      case Some(children) =>
        var done :- VisitAll(t, children, Walk(w.visited + {id}, w.ordered));
        Ok(Walk(done.visited, done.ordered + [id]))
  }

  function VisitAll(t: Tree, ids: seq<Id>, w: Walk): (r: Result<Walk, Error>)
    ensures r.Ok? ==> w.visited <= r.value.visited
    decreases LIMIT - |w.visited|, 1, |ids|
  {
    if ids == [] then Ok(w)
    else
      var first :- Visit(t, ids[0], w);
      Grows(w.visited, first.visited);
      VisitAll(t, ids[1..], first)
  }

  lemma {:induction false} Grows(a: set<Id>, b: set<Id>)
    requires a <= b
    ensures |a| <= |b|
  {
    if x :| x in a { Grows(a - {x}, b - {x}); }
  }

  /** `#cancellationOrder` */
  function CancellationOrder(t: Tree, ids: seq<Id>): Result<seq<Id>, Error> {
    var w :- VisitAll(t, ids, Walk({}, []));
    Ok(w.ordered)
  }

  // ---------------------------------------------------------------- what is visited

  predicate AllIn(ids: seq<Id>, s: set<Id>) { forall k :: 0 <= k < |ids| ==> ids[k] in s }

  ghost predicate Closed(t: Tree, s: set<Id>) {
    forall x :: x in s ==> t(x).Some? && AllIn(t(x).value, s)
  }

  ghost predicate Once(ids: seq<Id>) { forall i, j :: 0 <= i < j < |ids| ==> ids[i] != ids[j] }

  /** From `w` to `done`: what is new is listed once, behind the rest, and its children are seen. */
  ghost predicate Visited(t: Tree, w: Walk, done: Walk) {
    && w.visited <= done.visited && w.ordered <= done.ordered
    && (forall x :: x in done.ordered ==> x in done.visited)
    && Once(done.ordered)
    && (forall x :: x in done.visited - w.visited ==> x in done.ordered && t(x).Some? && AllIn(t(x).value, done.visited))
    && (forall x :: x in done.ordered ==> x in w.ordered || x !in w.visited)
  }

  ghost predicate WalkOk(w: Walk) {
    Once(w.ordered) && forall x :: x in w.ordered ==> x in w.visited
  }

  lemma {:induction false} VisitKeeps(t: Tree, id: Id, w: Walk)
    requires WalkOk(w) && Visit(t, id, w).Ok?
    ensures Visited(t, w, Visit(t, id, w).value) && id in Visit(t, id, w).value.visited
    decreases LIMIT - |w.visited|, 0
  {
    if id !in w.visited {
      var entered := Walk(w.visited + {id}, w.ordered);
      VisitAllKeeps(t, t(id).value, entered);
      var done := VisitAll(t, t(id).value, entered).value;
      assert id !in done.ordered;
    }
  }

  lemma {:induction false} VisitAllKeeps(t: Tree, ids: seq<Id>, w: Walk)
    requires WalkOk(w) && VisitAll(t, ids, w).Ok?
    ensures Visited(t, w, VisitAll(t, ids, w).value) && AllIn(ids, VisitAll(t, ids, w).value.visited)
    decreases LIMIT - |w.visited|, 1, |ids|
  {
    if ids != [] {
      var first := Visit(t, ids[0], w).value;
      VisitKeeps(t, ids[0], w);
      Grows(w.visited, first.visited);
      VisitAllKeeps(t, ids[1..], first);
      var done := VisitAll(t, ids[1..], first).value;
      forall x | x in done.visited - w.visited ensures x in done.ordered && t(x).Some? && AllIn(t(x).value, done.visited) {
        if x in first.visited { assert x in first.ordered; }
      }
      forall k | 0 <= k < |ids| ensures ids[k] in done.visited {
        if k > 0 { assert ids[k] == ids[1..][k - 1]; }
      }
    }
  }

  /** Nothing outside a closed set that holds the roots is ever visited. */
  lemma {:induction false} VisitInside(t: Tree, id: Id, w: Walk, s: set<Id>)
    requires Closed(t, s) && w.visited <= s && id in s
    ensures Visit(t, id, w).Ok? ==> Visit(t, id, w).value.visited <= s
    ensures |s| <= LIMIT ==> Visit(t, id, w).Ok?
    decreases LIMIT - |w.visited|, 0
  {
    Grows(w.visited, s);
    if id !in w.visited {
      Grows(w.visited + {id}, s);
      if |w.visited| < LIMIT { VisitAllInside(t, t(id).value, Walk(w.visited + {id}, w.ordered), s); }
    }
  }

  lemma {:induction false} VisitAllInside(t: Tree, ids: seq<Id>, w: Walk, s: set<Id>)
    requires Closed(t, s) && w.visited <= s && AllIn(ids, s)
    ensures VisitAll(t, ids, w).Ok? ==> VisitAll(t, ids, w).value.visited <= s
    ensures |s| <= LIMIT ==> VisitAll(t, ids, w).Ok?
    decreases LIMIT - |w.visited|, 1, |ids|
  {
    if ids != [] {
      VisitInside(t, ids[0], w, s);
      if Visit(t, ids[0], w).Ok? {
        Grows(w.visited, Visit(t, ids[0], w).value.visited);
        VisitAllInside(t, ids[1..], Visit(t, ids[0], w).value, s);
      }
    }
  }

  /** The visited set never outgrows the bound. */
  lemma {:induction false} VisitBounded(t: Tree, id: Id, w: Walk)
    requires |w.visited| <= LIMIT
    ensures Visit(t, id, w).Ok? ==> |Visit(t, id, w).value.visited| <= LIMIT
    decreases LIMIT - |w.visited|, 0
  {
    if id !in w.visited && |w.visited| < LIMIT && t(id).Some? {
      VisitAllBounded(t, t(id).value, Walk(w.visited + {id}, w.ordered));
    }
  }

  lemma {:induction false} VisitAllBounded(t: Tree, ids: seq<Id>, w: Walk)
    requires |w.visited| <= LIMIT
    ensures VisitAll(t, ids, w).Ok? ==> |VisitAll(t, ids, w).value.visited| <= LIMIT
    decreases LIMIT - |w.visited|, 1, |ids|
  {
    if ids != [] && Visit(t, ids[0], w).Ok? {
      VisitBounded(t, ids[0], w);
      Grows(w.visited, Visit(t, ids[0], w).value.visited);
      VisitAllBounded(t, ids[1..], Visit(t, ids[0], w).value);
    }
  }

  function SetOf(ids: seq<Id>): set<Id> { set k | 0 <= k < |ids| :: ids[k] }

  /** A path in the tree. */
  ghost predicate Path(t: Tree, p: seq<Id>) {
    p != [] && forall k :: 0 <= k < |p| - 1 ==> t(p[k]).Some? && p[k + 1] in t(p[k]).value
  }

  ghost predicate Reaches(t: Tree, roots: seq<Id>, x: Id) {
    exists p :: Path(t, p) && p[0] in roots && p[|p| - 1] == x
  }

  lemma ReachesChild(t: Tree, roots: seq<Id>, x: Id, y: Id)
    requires Reaches(t, roots, x) && t(x).Some? && y in t(x).value
    ensures Reaches(t, roots, y)
  {
    var p :| Path(t, p) && p[0] in roots && p[|p| - 1] == x;
    var q := p + [y];
    assert Path(t, q) && q[0] in roots && q[|q| - 1] == y;
  }

  lemma {:induction false} PathInside(t: Tree, p: seq<Id>, s: set<Id>, k: nat)
    requires Path(t, p) && p[0] in s && Closed(t, s) && k < |p|
    ensures p[k] in s
  {
    if k > 0 {
      PathInside(t, p, s, k - 1);
      assert p[k - 1 + 1] in t(p[k - 1]).value;
    }
  }

  /** When the traversal succeeds, its list is exactly the sessions reachable from the requested
      children, each once. */
  lemma OrderIsTheTree(t: Tree, ids: seq<Id>)
    requires CancellationOrder(t, ids).Ok?
    ensures var order := CancellationOrder(t, ids).value;
      && Once(order) && |order| <= LIMIT && Closed(t, SetOf(order)) && AllIn(ids, SetOf(order))
      && forall x :: x in order <==> Reaches(t, ids, x)
  {
    var start := Walk({}, []);
    var done := VisitAll(t, ids, start).value;
    VisitAllKeeps(t, ids, start);
    VisitAllBounded(t, ids, start);
    assert Closed(t, done.visited);
    assert SetOf(done.ordered) == done.visited by {
      forall x | x in done.visited ensures x in SetOf(done.ordered) { assert x in done.visited - start.visited; }
    }
    OnceCounts(done.ordered);
    ReachedOnly(t, ids, done.visited);
    forall x | Reaches(t, ids, x) ensures x in done.visited { ReachedIn(t, ids, x, done.visited); }
  }

  lemma ReachedIn(t: Tree, ids: seq<Id>, x: Id, s: set<Id>)
    requires Reaches(t, ids, x) && AllIn(ids, s) && Closed(t, s)
    ensures x in s
  {
    var p :| Path(t, p) && p[0] in ids && p[|p| - 1] == x;
    PathInside(t, p, s, |p| - 1);
  }

  /** The traversal succeeds exactly when the tree is small enough and all of it can be read. */
  lemma OrderedExactlyWhen(t: Tree, ids: seq<Id>)
    ensures CancellationOrder(t, ids).Ok? <==> exists s: set<Id> :: |s| <= LIMIT && AllIn(ids, s) && Closed(t, s)
  {
    if CancellationOrder(t, ids).Ok? {
      OrderIsTheTree(t, ids);
      OnceCounts(CancellationOrder(t, ids).value);
    }
    forall s: set<Id> | |s| <= LIMIT && AllIn(ids, s) && Closed(t, s) ensures CancellationOrder(t, ids).Ok? {
      VisitAllInside(t, ids, Walk({}, []), s);
    }
  }

  /** In terms of what is reachable: it succeeds exactly when every session it comes to can be read,
      and they are no more than the bound. */
  lemma OrderedIffSmall(t: Tree, ids: seq<Id>)
    ensures CancellationOrder(t, ids).Ok? <==>
      && (forall x :: Reaches(t, ids, x) ==> t(x).Some?)
      && exists s: set<Id> :: |s| <= LIMIT && forall x :: Reaches(t, ids, x) ==> x in s
  {
    if CancellationOrder(t, ids).Ok? {
      OrderIsTheTree(t, ids);
      var s := SetOf(CancellationOrder(t, ids).value);
      OnceCounts(CancellationOrder(t, ids).value);
      assert |s| <= LIMIT && forall x :: Reaches(t, ids, x) ==> x in s;
    }
    if forall x :: Reaches(t, ids, x) ==> t(x).Some? {
      forall s: set<Id> | |s| <= LIMIT && forall x :: Reaches(t, ids, x) ==> x in s ensures CancellationOrder(t, ids).Ok? {
        ReachedCloses(t, ids, s);
      }
    }
  }

  lemma RequestedReached(t: Tree, ids: seq<Id>, k: nat)
    requires k < |ids|
    ensures Reaches(t, ids, ids[k])
  {
    var p := [ids[k]];
    assert Path(t, p) && p[0] in ids && p[|p| - 1] == ids[k];
  }

  /** The reachable part of a set that holds it all is closed. */
  lemma ReachedCloses(t: Tree, ids: seq<Id>, s: set<Id>)
    requires |s| <= LIMIT && forall x :: Reaches(t, ids, x) ==> x in s && t(x).Some?
    ensures CancellationOrder(t, ids).Ok?
  {
    var reached := set x | x in s && Reaches(t, ids, x);
    Grows(reached, s);
    forall k | 0 <= k < |ids| ensures ids[k] in reached { RequestedReached(t, ids, k); }
    forall x | x in reached ensures t(x).Some? && AllIn(t(x).value, reached) {
      forall k | 0 <= k < |t(x).value| ensures t(x).value[k] in reached { ReachesChild(t, ids, x, t(x).value[k]); }
    }
    OrderedExactlyWhen(t, ids);
  }

  lemma {:induction false} OnceCounts(ids: seq<Id>)
    requires Once(ids)
    ensures |SetOf(ids)| == |ids|
  {
    if ids != [] {
      var n := |ids| - 1;
      OnceCounts(ids[..n]);
      assert SetOf(ids) == SetOf(ids[..n]) + {ids[n]};
    }
  }

  /** Everything visited is reachable: the reachable part of it is closed already. */
  lemma ReachedOnly(t: Tree, ids: seq<Id>, visited: set<Id>)
    requires VisitAll(t, ids, Walk({}, [])).Ok? && VisitAll(t, ids, Walk({}, [])).value.visited == visited
    requires Closed(t, visited) && AllIn(ids, visited)
    ensures forall x :: x in visited ==> Reaches(t, ids, x)
  {
    var s := set x | x in visited && Reaches(t, ids, x);
    forall k | 0 <= k < |ids| ensures ids[k] in s {
      assert Path(t, [ids[k]]);
    }
    forall x | x in s ensures t(x).Some? && AllIn(t(x).value, s) {
      forall k | 0 <= k < |t(x).value| ensures t(x).value[k] in s {
        ReachesChild(t, ids, x, t(x).value[k]);
      }
    }
    VisitAllInside(t, ids, Walk({}, []), s);
  }

  // ---------------------------------------------------------------- descendants first

  /** `y` lies under `x`. */
  ghost predicate Leads(t: Tree, x: Id, y: Id) {
    exists p :: Path(t, p) && |p| > 1 && p[0] == x && p[|p| - 1] == y
  }

  lemma LeadsToChild(t: Tree, x: Id, y: Id)
    requires t(x).Some? && y in t(x).value
    ensures Leads(t, x, y)
  {
    var p := [x, y];
    assert Path(t, p) && |p| > 1 && p[0] == x && p[|p| - 1] == y;
  }

  lemma LeadsFurther(t: Tree, x: Id, y: Id, z: Id)
    requires Leads(t, x, y) && t(y).Some? && z in t(y).value
    ensures Leads(t, x, z)
  {
    var p :| Path(t, p) && |p| > 1 && p[0] == x && p[|p| - 1] == y;
    var q := p + [z];
    assert Path(t, q) && |q| > 1 && q[0] == x && q[|q| - 1] == z;
  }

  /** No session of `s` lies under itself. */
  ghost predicate Acyclic(t: Tree, s: set<Id>) {
    forall x :: x in s ==> !Leads(t, x, x)
  }

  predicate Before(ids: seq<Id>, x: Id, y: Id) {
    exists i, j :: 0 <= i < j < |ids| && ids[i] == x && ids[j] == y
  }

  /** Every session listed since `w` comes after all its children. */
  ghost predicate ChildrenFirst(t: Tree, w: Walk, done: Walk) {
    forall j :: |w.ordered| <= j < |done.ordered| ==>
      t(done.ordered[j]).Some? && forall y :: y in t(done.ordered[j]).value ==> y in done.ordered[..j]
  }

  /** What is visited now lies under every session entered and not finished. */
  ghost predicate OpenAbove(t: Tree, w: Walk, id: Id) {
    forall x :: x in w.visited && x !in w.ordered ==> Leads(t, x, id)
  }

  ghost predicate SameOpen(w: Walk, done: Walk) {
    forall x :: x in done.visited && x !in done.ordered <==> x in w.visited && x !in w.ordered
  }

  lemma {:induction false} VisitDown(t: Tree, id: Id, w: Walk, s: set<Id>)
    requires WalkOk(w) && Visit(t, id, w).Ok? && Closed(t, s) && Acyclic(t, s) && id in s && OpenAbove(t, w, id)
    ensures var done := Visit(t, id, w).value;
      SameOpen(w, done) && ChildrenFirst(t, w, done) && w.ordered <= done.ordered && id in done.ordered
    decreases LIMIT - |w.visited|, 0
  {
    VisitKeeps(t, id, w);
    if id !in w.visited {
      var entered, children := Walk(w.visited + {id}, w.ordered), t(id).value;
      OpenAboveChildren(t, id, w);
      VisitAllDown(t, children, entered, s);
      VisitAllKeeps(t, children, entered);
      FinishDown(t, id, w, VisitAll(t, children, entered).value);
    }
  }

  lemma OpenAboveChildren(t: Tree, id: Id, w: Walk)
    requires OpenAbove(t, w, id) && t(id).Some?
    ensures forall k :: 0 <= k < |t(id).value| ==> OpenAbove(t, Walk(w.visited + {id}, w.ordered), t(id).value[k])
  {
    var entered := Walk(w.visited + {id}, w.ordered);
    forall k, x | 0 <= k < |t(id).value| && x in entered.visited && x !in entered.ordered ensures Leads(t, x, t(id).value[k]) {
      if x == id { LeadsToChild(t, id, t(id).value[k]); } else { LeadsFurther(t, x, id, t(id).value[k]); }
    }
  }

  /** A session is listed when all its children are. */
  lemma FinishDown(t: Tree, id: Id, w: Walk, done: Walk)
    requires id !in w.visited && t(id).Some? && WalkOk(w)
    requires var entered := Walk(w.visited + {id}, w.ordered);
      SameOpen(entered, done) && ChildrenFirst(t, entered, done) && Visited(t, entered, done)
    requires forall y :: y in t(id).value ==> y in done.ordered
    ensures var end := Walk(done.visited, done.ordered + [id]);
      SameOpen(w, end) && ChildrenFirst(t, w, end) && w.ordered <= end.ordered
  {
    var end := Walk(done.visited, done.ordered + [id]);
    forall j | |w.ordered| <= j < |end.ordered|
      ensures t(end.ordered[j]).Some? && forall y :: y in t(end.ordered[j]).value ==> y in end.ordered[..j]
    {
      if j < |done.ordered| {
        assert end.ordered[..j] == done.ordered[..j];
      } else {
        assert end.ordered[..j] == done.ordered;
      }
    }
  }

  lemma {:induction false} VisitAllDown(t: Tree, ids: seq<Id>, w: Walk, s: set<Id>)
    requires WalkOk(w) && VisitAll(t, ids, w).Ok? && Closed(t, s) && Acyclic(t, s) && AllIn(ids, s)
    requires forall k :: 0 <= k < |ids| ==> OpenAbove(t, w, ids[k])
    ensures var done := VisitAll(t, ids, w).value;
      SameOpen(w, done) && ChildrenFirst(t, w, done) && w.ordered <= done.ordered && forall x :: x in ids ==> x in done.ordered
    decreases LIMIT - |w.visited|, 1, |ids|
  {
    if ids != [] {
      var first := Visit(t, ids[0], w).value;
      VisitKeeps(t, ids[0], w);
      VisitDown(t, ids[0], w, s);
      Grows(w.visited, first.visited);
      forall k | 0 <= k < |ids[1..]| ensures OpenAbove(t, first, ids[1..][k]) {
        assert OpenAbove(t, w, ids[k + 1]);
      }
      VisitAllDown(t, ids[1..], first, s);
      DownTwice(t, w, first, VisitAll(t, ids[1..], first).value);
    }
  }

  lemma DownTwice(t: Tree, w: Walk, first: Walk, done: Walk)
    requires ChildrenFirst(t, w, first) && ChildrenFirst(t, first, done) && w.ordered <= first.ordered <= done.ordered
    ensures ChildrenFirst(t, w, done)
  {
    forall j | |w.ordered| <= j < |first.ordered| ensures done.ordered[j] == first.ordered[j] && done.ordered[..j] == first.ordered[..j] {
    }
  }

  lemma UnderIsBefore(t: Tree, order: seq<Id>, x: Id, y: Id)
    requires ChildrenFirst(t, Walk({}, []), Walk({}, order)) && x in order && Leads(t, x, y)
    ensures Before(order, y, x)
  {
    var p :| Path(t, p) && |p| > 1 && p[0] == x && p[|p| - 1] == y;
    var j :| 0 <= j < |order| && order[j] == x;
    var i := Down(t, order, p, j);
  }

  /** Every descendant is listed before the sessions it lies under exactly when no listed session
      lies under itself. */
  lemma DescendantsFirstIff(t: Tree, ids: seq<Id>)
    requires CancellationOrder(t, ids).Ok?
    ensures var order := CancellationOrder(t, ids).value;
      Acyclic(t, SetOf(order)) <==> forall x, y :: x in order && Leads(t, x, y) ==> Before(order, y, x)
  {
    var order := CancellationOrder(t, ids).value;
    OrderIsTheTree(t, ids);
    if Acyclic(t, SetOf(order)) {
      VisitAllDown(t, ids, Walk({}, []), SetOf(order));
      forall x, y | x in order && Leads(t, x, y) ensures Before(order, y, x) {
        UnderIsBefore(t, order, x, y);
      }
    }
    if x :| x in order && Leads(t, x, x) {
      assert !Before(order, x, x);
    }
  }

  lemma {:induction false} Down(t: Tree, order: seq<Id>, p: seq<Id>, j: nat) returns (i: nat)
    requires ChildrenFirst(t, Walk({}, []), Walk({}, order)) && Path(t, p) && |p| > 1 && j < |order| && order[j] == p[0]
    ensures i < j && order[i] == p[|p| - 1]
    decreases |p|
  {
    assert p[0 + 1] in t(p[0]).value;
    assert p[1] in order[..j];
    i :| 0 <= i < j && order[i] == p[1];
    if |p| > 2 {
      PathTail(t, p);
      i := Down(t, order, p[1..], i);
    }
  }

  lemma PathTail(t: Tree, p: seq<Id>)
    requires Path(t, p) && |p| > 1
    ensures Path(t, p[1..])
  {
    var q := p[1..];
    forall k | 0 <= k < |q| - 1 ensures t(q[k]).Some? && q[k + 1] in t(q[k]).value {
      assert t(p[k + 1]).Some? && p[k + 1 + 1] in t(p[k + 1]).value;
    }
  }

  /** Along a path, whatever falls at every step falls from the first session to the last. */
  lemma {:induction false} Falls(t: Tree, s: set<Id>, began: Id -> int, p: seq<Id>)
    requires Closed(t, s) && Path(t, p) && |p| > 1 && p[0] in s
    requires forall x, y :: x in s && y in t(x).value ==> began(x) < began(y)
    ensures began(p[0]) < began(p[|p| - 1])
    decreases |p|
  {
    assert p[0 + 1] in t(p[0]).value;
    if |p| > 2 {
      assert p[1] in s by { PathInside(t, p, s, 1); }
      PathTail(t, p);
      Falls(t, s, began, p[1..]);
    }
  }

  /** A tree whose sessions all began after those they were attached to has no cycle. */
  lemma LaterIsAcyclic(t: Tree, s: set<Id>, began: Id -> int)
    requires Closed(t, s) && forall x, y :: x in s && y in t(x).value ==> began(x) < began(y)
    ensures Acyclic(t, s)
  {
    forall x | x in s ensures !Leads(t, x, x) {
      if p :| Path(t, p) && |p| > 1 && p[0] == x && p[|p| - 1] == x {
        Falls(t, s, began, p);
      }
    }
  }

  // ---------------------------------------------------------------- a tree that grows meanwhile

  /** Nothing is detached. */
  ghost predicate Grown(t: Tree, later: Tree) {
    forall x :: t(x).Some? ==> later(x).Some? && t(x).value <= later(x).value
  }

  /** Children attached to listed sessions since the list was made. */
  ghost predicate AttachedLate(t: Tree, later: Tree, order: seq<Id>, c: Id) {
    exists x :: x in order && t(x).Some? && later(x).Some? && c in later(x).value && c !in t(x).value
  }

  /** Those, and what lies under them. */
  ghost predicate ReachedLate(t: Tree, later: Tree, order: seq<Id>, y: Id) {
    exists c :: AttachedLate(t, later, order, c) && Reaches(later, [c], y)
  }

  lemma {:induction false} GrownPath(t: Tree, later: Tree, order: seq<Id>, p: seq<Id>)
    requires Closed(t, SetOf(order)) && Grown(t, later) && Path(later, p) && p[0] in order
    ensures p[|p| - 1] in order || ReachedLate(t, later, order, p[|p| - 1])
    decreases |p|
  {
    var last := p[|p| - 1];
    if |p| > 1 {
      assert p[0 + 1] in later(p[0]).value && p[0] in SetOf(order);
      PathTail(later, p);
      var q := p[1..];
      if p[1] in t(p[0]).value {
        GrownPath(t, later, order, q);
      } else {
        assert AttachedLate(t, later, order, p[1]);
        assert Path(later, q) && q[0] in [p[1]] && q[|q| - 1] == last;
        assert Reaches(later, [p[1]], last);
      }
    }
  }

  lemma JoinPaths(t: Tree, p: seq<Id>, q: seq<Id>)
    requires Path(t, p) && Path(t, q) && t(p[|p| - 1]).Some? && q[0] in t(p[|p| - 1]).value
    ensures Path(t, p + q)
  {
    var r := p + q;
    forall k | 0 <= k < |r| - 1 ensures t(r[k]).Some? && r[k + 1] in t(r[k]).value {
      if k < |p| - 1 {
        assert r[k] == p[k] && r[k + 1] == p[k + 1];
      } else if k > |p| - 1 {
        assert r[k] == q[k - |p|] && q[k - |p| + 1] in t(q[k - |p|]).value;
      }
    }
  }

  lemma LateIsReached(t: Tree, later: Tree, ids: seq<Id>, order: seq<Id>, y: Id)
    requires (forall x :: x in order ==> Reaches(later, ids, x)) && ReachedLate(t, later, order, y)
    ensures Reaches(later, ids, y)
  {
    var c :| AttachedLate(t, later, order, c) && Reaches(later, [c], y);
    var x :| x in order && t(x).Some? && later(x).Some? && c in later(x).value && c !in t(x).value;
    var p :| Path(later, p) && p[0] in ids && p[|p| - 1] == x;
    var q :| Path(later, q) && q[0] in [c] && q[|q| - 1] == y;
    JoinPaths(later, p, q);
    var r := p + q;
    assert Path(later, r) && r[0] in ids && r[|r| - 1] == y;
  }

  /** What is reachable afterwards: the listed sessions, and those attached to them in the meantime
      with all that lies under them. */
  lemma GrownReach(t: Tree, later: Tree, ids: seq<Id>)
    requires CancellationOrder(t, ids).Ok? && Grown(t, later)
    ensures var order := CancellationOrder(t, ids).value;
      forall y :: Reaches(later, ids, y) <==> y in order || ReachedLate(t, later, order, y)
  {
    var order := CancellationOrder(t, ids).value;
    OrderIsTheTree(t, ids);
    forall x | x in order ensures Reaches(later, ids, x) {
      assert Reaches(t, ids, x);
      var p :| Path(t, p) && p[0] in ids && p[|p| - 1] == x;
      forall k | 0 <= k < |p| - 1 ensures later(p[k]).Some? && p[k + 1] in later(p[k]).value {
        assert p[k + 1] in t(p[k]).value;
      }
      assert Path(later, p);
    }
    forall y | Reaches(later, ids, y) ensures y in order || ReachedLate(t, later, order, y) {
      var p :| Path(later, p) && p[0] in ids && p[|p| - 1] == y;
      assert p[0] in SetOf(order);
      GrownPath(t, later, order, p);
    }
    forall y | ReachedLate(t, later, order, y) ensures Reaches(later, ids, y) {
      LateIsReached(t, later, ids, order, y);
    }
  }
}
