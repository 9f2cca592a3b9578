/** The cancellation traversal and settling on the trees that the session store builds. */
module ForkedTrees {
  import opened Outcomes
  import opened F = ForkTree
  import T = Traversal
  import P = SubagentProviderClass

  /** The tree the traversal reads.  A name without a log replays as a session without children. */
  function TreeOf(l: Ledger): T.Tree {
    (s: Id) => Some(ChildrenOf(Stream(l, s)))
  }

  function BeganAt(l: Ledger): Id -> int {
    (s: Id) => if Stream(l, s) == [] then l.next else Stream(l, s)[0].position
  }

  // ---------------------------------------------------------------- order

  /** Forks only lead down.  Where every child of a listed session was forked from it or has no log,
      cancellation reaches whatever lies under a session before the session itself. */
  lemma ForkedTreesAreOrdered(ops: seq<Op>, ids: seq<Id>)
    requires T.CancellationOrder(TreeOf(Run(ops)), ids).Ok?
    requires var order := T.CancellationOrder(TreeOf(Run(ops)), ids).value;
      forall x, c :: x in order && PlainlyAttached(ops, x, c) ==> ForkedFrom(ops, x, c) || Stream(Run(ops), c) == []
    ensures var t := TreeOf(Run(ops));
      var order := T.CancellationOrder(t, ids).value;
      forall x, y :: x in order && T.Leads(t, x, y) ==> T.Before(order, y, x)
  {
    var l := Run(ops);
    var t, began := TreeOf(l), BeganAt(l);
    var order := T.CancellationOrder(t, ids).value;
    T.OrderIsTheTree(t, ids);
    forall x, y | x in T.SetOf(order) && y in t(x).value ensures began(x) < began(y) {
      ChildrenAreForks(ops, x, y);
      EveryLedger(ops);
      if Stream(l, x) != [] { assert LogOk(l, x, Stream(l, x)); }
    }
    T.LaterIsAcyclic(t, T.SetOf(order), began);
    T.DescendantsFirstIff(t, ids);
  }

  /** The traversal succeeds exactly when at most 4096 names can be reached, with or without a log. */
  lemma ListedIffSmall(l: Ledger, ids: seq<Id>)
    ensures T.CancellationOrder(TreeOf(l), ids).Ok? <==>
      exists s: set<Id> :: |s| <= T.LIMIT && forall x :: T.Reaches(TreeOf(l), ids, x) ==> x in s
  {
    T.OrderedIffSmall(TreeOf(l), ids);
  }

  // ---------------------------------------------------------------- settling while the tree grows

  lemma {:induction false} ChildrenGrow(rows: seq<Row>, more: seq<Row>)
    ensures ChildrenOf(rows) <= ChildrenOf(rows + more)
    decreases |more|
  {
    if more == [] {
      assert rows + more == rows;
    } else {
      var all, n := rows + more, |more| - 1;
      assert all[..|all| - 1] == rows + more[..n];
      ChildrenGrow(rows, more[..n]);
    }
  }

  lemma ExtendedGrows(l: Ledger, m: Ledger)
    requires Extends(l, m)
    ensures T.Grown(TreeOf(l), TreeOf(m))
  {
    forall x ensures ChildrenOf(Stream(l, x)) <= ChildrenOf(Stream(m, x)) {
      var was, now := Stream(l, x), Stream(m, x);
      assert was <= now && now == was + now[|was|..];
      ChildrenGrow(was, now[|was|..]);
    }
  }

  /** Later operations detach nothing. */
  lemma TreesGrow(ops: seq<Op>, more: seq<Op>)
    ensures T.Grown(TreeOf(Run(ops)), TreeOf(Run(ops + more)))
  {
    LaterExtends(ops, more);
    ExtendedGrows(Run(ops), Run(ops + more));
  }

  /** A pass of settling that reads the ledger after `ops` and again after `more`. */
  function Between(ops: seq<Op>, more: seq<Op>, parent: Id, fails: Id -> bool, rejected: Id -> bool, early: set<Id>, late: set<Id>): P.World {
    var l, m := Run(ops), Run(ops + more);
    P.World(ChildrenOf(Stream(l, parent)), TreeOf(l), TreeOf(m), x => HasEnded(l, x), x => HasEnded(m, x), fails, rejected, early, late)
  }

  /** A cancellation that reports success leaves every session under the requested ones ended exactly
      when those attached while it waited, and what lies under them, have ended as well; and they were
      attached to sessions that were asked to cancel. */
  lemma SettledLedgerIff(ops: seq<Op>, more: seq<Op>, parent: Id, fails: Id -> bool, rejected: Id -> bool, early: set<Id>, late: set<Id>,
                         w: P.World, active: set<Id>, ids: seq<Id>)
    requires w == Between(ops, more, parent, fails, rejected, early, late) && P.Settles(w, active, ids, true)
    ensures var order := T.CancellationOrder(w.tree, ids).value;
      && ((forall x :: T.Reaches(w.treeAfter, ids, x) ==> HasEnded(Run(ops + more), x))
          <==> forall x :: T.ReachedLate(w.tree, w.treeAfter, order, x) ==> HasEnded(Run(ops + more), x))
      && forall c :: T.AttachedLate(w.tree, w.treeAfter, order, c) ==>
        exists x :: x in P.Asked(w, ids, true) && c in ChildrenOf(Stream(Run(ops + more), x))
  {
    var order := T.CancellationOrder(w.tree, ids).value;
    TreesGrow(ops, more);
    P.SettledTreeIff(w, active, ids);
    forall c | T.AttachedLate(w.tree, w.treeAfter, order, c)
      ensures exists x :: x in P.Asked(w, ids, true) && c in ChildrenOf(Stream(Run(ops + more), x))
    {
      var x :| x in order && w.tree(x).Some? && w.treeAfter(x).Some? && c in w.treeAfter(x).value && c !in w.tree(x).value;
      if HasEnded(Run(ops), x) { EndedForGood(ops, more, x); }
      assert x in P.Asked(w, ids, true);
    }
  }

  /** A name without a log is listed like any session, but it is never found to have ended: a
      cancellation that reaches one reports success only if its log is begun and ended meanwhile. */
  lemma LoglessMustEnd(ops: seq<Op>, more: seq<Op>, parent: Id, fails: Id -> bool, rejected: Id -> bool, early: set<Id>, late: set<Id>,
                       w: P.World, active: set<Id>, ids: seq<Id>, x: Id)
    requires w == Between(ops, more, parent, fails, rejected, early, late) && P.Settles(w, active, ids, true)
    requires T.Reaches(w.tree, ids, x) && Stream(Run(ops), x) == []
    ensures x in P.Asked(w, ids, true) && !fails(x) && Stream(Run(ops + more), x) != [] && HasEnded(Run(ops + more), x)
  {
    P.SettledTree(w, active, ids);
    T.OrderIsTheTree(w.tree, ids);
  }

  // ---------------------------------------------------------------- two runs

  const WIDE := Limits(9, 9, 9, 9, 9, 9)

  function RootSpec(s: Id): Spec { Spec(s, None, "all", "all", WIDE) }

  /** A first append that attaches a child by its name only. */
  function PairEvents(s: Id, c: Id): seq<(Id, Event)> { [("created", Created(RootSpec(s))), ("attached", Attached(c, "all"))] }

  function PairRows(s: Id, c: Id, n: nat): seq<Row> {
    [Row("created", n, s, Root(s), Created(RootSpec(s))), Row("attached", n + 1, s, By("created"), Attached(c, "all"))]
  }

  lemma PairTaken(l: Ledger, s: Id, c: Id)
    requires Stream(l, s) == [] && s != c
    ensures Append(l, s, 0, PairEvents(s, c), None) == Ok(Ledger(l.streams[s := PairRows(s, c, l.next)], l.next + 2))
    ensures ChildrenOf(PairRows(s, c, l.next)) == [c]
  {
    var rows := PairRows(s, c, l.next);
    assert Extended(l, s, PairEvents(s, c), None) == rows;
    PairFolds(s, c, l.next);
    var plain := RowsOf(PairEvents(s, c), Root(s), s, 0);
    assert plain[0].id == "created" && plain[1].id == "attached";
  }

  lemma PairFolds(s: Id, c: Id, n: nat)
    requires s != c
    ensures Fold(s, PairRows(s, c, n)).Some? && ChildrenOf(PairRows(s, c, n)) == [c]
  {
    var rows := PairRows(s, c, n);
    assert rows[..1] == [rows[0]] && rows[..1][..0] == [];
    assert Fold(s, rows[..1]) == Some(Summary(RootSpec(s), [], false, false));
    assert ChildrenOf(rows[..1]) == [];
  }

  /** `a` lies under `b` and is listed after it. */
  ghost predicate Disordered(t: T.Tree, a: Id, b: Id) {
    T.CancellationOrder(t, [a]) == Ok([b, a]) && T.Leads(t, b, a) && !T.Before([b, a], a, b)
  }

  /** Two sessions that name each other as children: both lie under themselves, and the parent of the
      last one listed is listed first. */
  lemma MutualAttachment()
    ensures exists ops, a, b :: Disordered(TreeOf(Run(ops)), a, b)
  {
    MutualRun([DoAppend("a", 0, PairEvents("a", "b"), None), DoAppend("b", 0, PairEvents("b", "a"), None)]);
  }

  lemma MutualRun(ops: seq<Op>)
    requires ops == [DoAppend("a", 0, PairEvents("a", "b"), None), DoAppend("b", 0, PairEvents("b", "a"), None)]
    ensures Disordered(TreeOf(Run(ops)), "a", "b")
  {
    assert ops[..1] == [ops[0]] && ops[..1][..0] == [];
    RunLast(ops[..1]);
    RunLast(ops);
    PairTaken(Run([]), "a", "b");
    PairTaken(Run(ops[..1]), "b", "a");
    MutualTree(TreeOf(Run(ops)), "a", "b");
  }

  lemma MutualTree(t: T.Tree, a: Id, b: Id)
    requires a != b && t(a) == Some([b]) && t(b) == Some([a])
    ensures Disordered(t, a, b)
  {
    MutualOrder(t, a, b);
    T.LeadsToChild(t, b, a);
  }

  /** A visit of a session not seen before, from a visit of its children. */
  lemma VisitBy(t: T.Tree, x: Id, children: seq<Id>, w: T.Walk, entered: T.Walk, done: T.Walk)
    requires x !in w.visited && |w.visited| < T.LIMIT && t(x) == Some(children)
    requires entered == T.Walk(w.visited + {x}, w.ordered) && T.VisitAll(t, children, entered) == Ok(done)
    ensures T.Visit(t, x, w) == Ok(T.Walk(done.visited, done.ordered + [x]))
  {
  }

  lemma VisitOne(t: T.Tree, x: Id, w: T.Walk)
    ensures T.VisitAll(t, [x], w) == T.Visit(t, x, w)
  {
    assert [x][1..] == [];
  }

  lemma MutualOrder(t: T.Tree, a: Id, b: Id)
    requires a != b && t(a) == Some([b]) && t(b) == Some([a])
    ensures T.CancellationOrder(t, [a]) == Ok([b, a])
  {
    var start, w1, w2 := T.Walk({}, []), T.Walk({a}, []), T.Walk({a, b}, []);
    VisitOne(t, a, w2);
    VisitBy(t, b, [a], w1, w2, w2);
    VisitOne(t, b, w1);
    VisitBy(t, a, [b], start, w1, T.Walk({a, b}, [] + [b]));
    VisitOne(t, a, start);
    assert [] + [b] + [a] == [b, a];
  }

  /** One append that names a child nobody has begun: the child is listed. */
  lemma LoglessListed()
    ensures exists ops, a, b :: (
      && b in ChildrenOf(Stream(Run(ops), a)) && Stream(Run(ops), b) == []
      && T.CancellationOrder(TreeOf(Run(ops)), [b]) == Ok([b]))
  {
    var ops := [DoAppend("a", 0, PairEvents("a", "b"), None)];
    assert ops[..0] == [];
    RunLast(ops);
    PairTaken(Run([]), "a", "b");
    LeafOrder(TreeOf(Run(ops)), "b");
    assert "b" in ChildrenOf(Stream(Run(ops), "a")) && Stream(Run(ops), "b") == [];
  }

  lemma LeafOrder(t: T.Tree, c: Id)
    requires t(c) == Some([])
    ensures T.CancellationOrder(t, [c]) == Ok([c])
  {
    var start, entered := T.Walk({}, []), T.Walk({} + {c}, []);
    VisitBy(t, c, [], start, entered, entered);
    VisitOne(t, c, start);
    assert [] + [c] == [c];
  }

  /** A fork of `c` from the end of `p`, whose spec it inherits, under the attachment id `x`. */
  function Input(l: Ledger, p: Id, c: Id, x: Id): ForkInput
    requires Stream(l, p) != [] && Stream(l, p)[0].event.Created?
  {
    ForkInput(p, |Stream(l, p)|, Stream(l, p)[0].event.spec.(session := c, parent := Some(p)), false, x, "created", "forked", "", None)
  }

  function BegunRows(l: Ledger, p: Id, c: Id, x: Id): seq<Row>
    requires Stream(l, p) != [] && Stream(l, p)[0].event.Created?
  {
    var i, t := Input(l, p, c, x), Stream(l, p)[0].trace;
    [Row("created", l.next + 1, t, By(x), Created(i.spec)), Row("forked", l.next + 2, t, By("created"), Forked(p, i.sequence))]
  }

  function ForkedLedger(l: Ledger, p: Id, c: Id, x: Id): Ledger
    requires Stream(l, p) != [] && Stream(l, p)[0].event.Created?
  {
    Ledger(l.streams[p := Attach(l, Input(l, p, c, x))][c := BegunRows(l, p, c, x)], l.next + 3)
  }

  /** `p` can still fork: it has not ended, its children are below its limit, and the child's name and
      the id of the attachment are not in use. */
  predicate CanFork(l: Ledger, p: Id, c: Id, x: Id) {
    var rows := Stream(l, p);
    && rows != [] && rows[0].event.Created? && !HasEnded(l, p) && |ChildrenOf(rows)| < rows[0].event.spec.limits.children
    && p != c && Stream(l, c) == [] && c !in ChildrenOf(rows) && forall k :: 0 <= k < |rows| ==> rows[k].id != x
  }

  lemma BegunFolds(l: Ledger, p: Id, c: Id, x: Id)
    requires Stream(l, p) != [] && Stream(l, p)[0].event.Created? && p != c
    ensures BegunRows(l, p, c, x) == RowsOf(ChildEvents(Input(l, p, c, x)), By(x), Stream(l, p)[0].trace, l.next + 1)
    ensures Fold(c, BegunRows(l, p, c, x)).Some? && ChildrenOf(BegunRows(l, p, c, x)) == []
  {
    var rows := BegunRows(l, p, c, x);
    assert rows[..1] == [rows[0]] && rows[..1][..0] == [];
    assert ChildrenOf(rows[..1]) == [];
  }

  lemma SimpleAttach(l: Ledger, p: Id, c: Id, x: Id)
    requires LedgerOk(l) && CanFork(l, p, c, x)
    ensures var i := Input(l, p, c, x); var rows, all := Stream(l, p), Attach(l, i);
      && Fold(p, rows).Some? && Fold(p, rows).value.spec == rows[0].event.spec && Fold(p, rows).value.children == ChildrenOf(rows)
      && AttachedAt(rows, c) < 0 && ParentRows(l, i) == Ok(all)
      && NewIds(all) && AttachedAt(all, c) == |rows| && ChildrenOf(all) == ChildrenOf(rows) + [c]
  {
    var i, rows := Input(l, p, c, x), Stream(l, p);
    var all := Attach(l, i);
    assert LogOk(l, p, rows);
    FoldTells(p, rows);
    if AttachedAt(rows, c) >= 0 { ChildrenAttached(rows, c); }
    assert all[..|rows|] == rows;
    AttachedLast(rows, Attachment(l, i), c);
  }

  lemma BegunAre(l: Ledger, p: Id, c: Id, x: Id)
    requires Stream(l, p) != [] && Stream(l, p)[0].event.Created? && p != c
    ensures var i := Input(l, p, c, x); ChildRows(l, i, Attach(l, i)) == BegunRows(l, p, c, x) && NewIds(BegunRows(l, p, c, x))
  {
    BegunFolds(l, p, c, x);
    assert |Attach(l, Input(l, p, c, x))| == |Stream(l, p)| + 1;
    assert BegunRows(l, p, c, x)[0].id != BegunRows(l, p, c, x)[1].id;
  }

  lemma ChildFine(l: Ledger, i: ForkInput, parent: seq<Row>)
    requires 1 <= i.sequence <= |Stream(l, i.parent)| && Stream(l, i.spec.session) == []
    requires NewIds(ChildRows(l, i, parent)) && Fold(i.spec.session, ChildRows(l, i, parent)).Some?
    requires var a := AttachedAt(parent, i.spec.session); a >= 0 && parent[a].cause == By(Stream(l, i.parent)[i.sequence - 1].id)
    ensures ChildProblem(l, i, parent).None?
  {
  }

  lemma SimpleChild(l: Ledger, p: Id, c: Id, x: Id)
    requires LedgerOk(l) && CanFork(l, p, c, x)
    ensures var i := Input(l, p, c, x); ChildProblem(l, i, Attach(l, i)).None? && ChildRows(l, i, Attach(l, i)) == BegunRows(l, p, c, x)
  {
    var i, n := Input(l, p, c, x), |Stream(l, p)|;
    var all := Attach(l, i);
    SimpleAttach(l, p, c, x);
    BegunFolds(l, p, c, x);
    assert |all| == n + 1 && all[n] == Attachment(l, i);
    BegunAre(l, p, c, x);
    ChildFine(l, i, all);
  }

  lemma SimpleFork(l: Ledger, p: Id, c: Id, x: Id)
    requires LedgerOk(l) && CanFork(l, p, c, x)
    ensures Fork(l, Input(l, p, c, x)) == Ok(ForkedLedger(l, p, c, x))
    ensures ChildrenOf(Attach(l, Input(l, p, c, x))) == ChildrenOf(Stream(l, p)) + [c]
  {
    var i, rows := Input(l, p, c, x), Stream(l, p);
    SimpleAttach(l, p, c, x);
    SimpleChild(l, p, c, x);
    assert LogOk(l, p, rows) && rows[..i.sequence] == rows;
    assert ForkProblem(i, Fold(p, rows).value, rows).None?;
    assert Commit(l, i, Attach(l, i)) == Ok(ForkedLedger(l, p, c, x));
  }

  /** A session that has not ended may end. */
  lemma EndTaken(l: Ledger, s: Id, e: Id)
    requires Stream(l, s) != [] && LogOk(l, s, Stream(l, s)) && !HasEnded(l, s)
    requires forall k :: 0 <= k < |Stream(l, s)| ==> Stream(l, s)[k].id != e
    ensures var r := Append(l, s, |Stream(l, s)|, [(e, Ended)], None);
      r.Ok? && HasEnded(r.value, s) && ChildrenOf(Stream(r.value, s)) == ChildrenOf(Stream(l, s))
      && forall o :: o != s ==> Stream(r.value, o) == Stream(l, o)
  {
    var rows := Stream(l, s);
    var all := Extended(l, s, [(e, Ended)], None);
    EndFolds(s, rows, all);
  }

  lemma EndFolds(s: Id, rows: seq<Row>, all: seq<Row>)
    requires rows != [] && Fold(s, rows).Some? && !rows[|rows| - 1].event.Ended? && NewIds(rows)
    requires |all| == |rows| + 1 && all[..|rows|] == rows && all[|rows|].event.Ended?
    requires forall k :: 0 <= k < |rows| ==> rows[k].id != all[|rows|].id
    ensures Fold(s, all).Some? && NewIds(all) && ChildrenOf(all) == ChildrenOf(rows)
  {
    FoldTells(s, rows);
  }

  /** The child forks a grandchild, and then ends. */
  function Meanwhile(l: Ledger, c: Id, d: Id, x: Id, e: Id): seq<Op>
    requires Stream(l, c) != [] && Stream(l, c)[0].event.Created?
  {
    [DoFork(Input(l, c, d, x)), DoAppend(c, |Stream(l, c)| + 1, [(e, Ended)], None)]
  }

  lemma RunTwo(ops: seq<Op>, a: Op, b: Op)
    ensures Run(ops + [a]) == Next(Run(ops), a) && Run(ops + [a, b]) == Next(Run(ops + [a]), b)
  {
    RunMore(ops, [a]);
    assert ops + [] == ops && [a][..0] == [];
    RunMore(ops, [a, b]);
    assert [a, b][..1] == [a];
  }

  /** The ids of the attachment and of the end are new to `c`. */
  predicate CanForkAndEnd(l: Ledger, c: Id, d: Id, x: Id, e: Id) {
    CanFork(l, c, d, x) && x != e && forall k :: 0 <= k < |Stream(l, c)| ==> Stream(l, c)[k].id != e
  }

  /** What the two operations leave. */
  ghost predicate ForkedAndEnded(l: Ledger, m: Ledger, c: Id, d: Id) {
    && HasEnded(m, c) && d in ChildrenOf(Stream(m, c)) && Stream(m, d) != [] && !HasEnded(m, d)
    && forall o :: o != c && o != d ==> Stream(m, o) == Stream(l, o)
  }

  /** The ledger between the two. */
  ghost predicate Midway(l: Ledger, m: Ledger, c: Id, d: Id, e: Id) {
    && LedgerOk(m) && |Stream(m, c)| == |Stream(l, c)| + 1 && !HasEnded(m, c) && d in ChildrenOf(Stream(m, c))
    && Stream(m, d) != [] && !HasEnded(m, d) && (forall k :: 0 <= k < |Stream(m, c)| ==> Stream(m, c)[k].id != e)
    && forall o :: o != c && o != d ==> Stream(m, o) == Stream(l, o)
  }

  lemma ForksFirst(l: Ledger, c: Id, d: Id, x: Id, e: Id)
    requires LedgerOk(l) && CanForkAndEnd(l, c, d, x, e)
    ensures Midway(l, Next(l, DoFork(Input(l, c, d, x))), c, d, e)
  {
    SimpleFork(l, c, d, x);
    ForkKeeps(l, Input(l, c, d, x));
    ForkLeaves(l, c, d, x, e);
  }

  lemma ForkLeaves(l: Ledger, c: Id, d: Id, x: Id, e: Id)
    requires CanForkAndEnd(l, c, d, x, e) && LedgerOk(ForkedLedger(l, c, d, x))
    requires ChildrenOf(Attach(l, Input(l, c, d, x))) == ChildrenOf(Stream(l, c)) + [d]
    ensures Midway(l, ForkedLedger(l, c, d, x), c, d, e)
  {
    var m := ForkedLedger(l, c, d, x);
    assert Stream(m, c) == Attach(l, Input(l, c, d, x)) && Stream(m, d) == BegunRows(l, c, d, x);
  }

  lemma ThenEnds(l: Ledger, m: Ledger, c: Id, d: Id, e: Id)
    requires Midway(l, m, c, d, e) && c != d
    ensures ForkedAndEnded(l, Next(m, DoAppend(c, |Stream(l, c)| + 1, [(e, Ended)], None)), c, d)
  {
    EndTaken(m, c, e);
  }

  /** Settling reports success, and a session under the requested one has not ended. */
  ghost predicate Escapes(w: P.World, c: Id, d: Id) {
    P.Settles(w, {}, [c], true) && T.Reaches(w.treeAfter, [c], d) && !w.terminalAfter(d)
  }

  lemma LateEscapes(w: P.World, c: Id, d: Id)
    requires w.treeAfter(c).Some? && d in w.treeAfter(c).value && c in w.attached && T.CancellationOrder(w.tree, [c]).Ok?
    requires forall y :: y in T.CancellationOrder(w.tree, [c]).value ==> w.terminalAfter(y) && !w.cancelFails(y) && !w.rejected(y)
    requires !w.terminalAfter(d)
    ensures Escapes(w, c, d)
  {
    var p := [c, d];
    assert T.Path(w.treeAfter, p) && p[0] in [c] && p[|p| - 1] == d;
  }

  /** A run, and what it does while settling waits, with nothing failing. */
  function Watched(ops: seq<Op>, more: seq<Op>, parent: Id): P.World {
    Between(ops, more, parent, x => false, x => false, {}, {})
  }

  /** Any child that can still fork, once all under it has ended, may fork a grandchild while it is
      asked to cancel: settling reports that all is terminal, and the grandchild, reachable by then, is
      not. */
  lemma LateChildEscapes(ops: seq<Op>, parent: Id, c: Id, d: Id, x: Id, e: Id)
    requires CanForkAndEnd(Run(ops), c, d, x, e) && c in ChildrenOf(Stream(Run(ops), parent))
    requires T.CancellationOrder(TreeOf(Run(ops)), [c]).Ok?
    requires forall y :: T.Reaches(TreeOf(Run(ops)), [c], y) && y != c ==> HasEnded(Run(ops), y)
    ensures Escapes(Watched(ops, Meanwhile(Run(ops), c, d, x, e), parent), c, d)
  {
    var l, more := Run(ops), Meanwhile(Run(ops), c, d, x, e);
    EveryLedger(ops);
    RunTwo(ops, more[0], more[1]);
    assert more == [more[0], more[1]];
    ForksFirst(l, c, d, x, e);
    ThenEnds(l, Next(l, more[0]), c, d, e);
    AllListedEnd(l, Run(ops + more), c, d);
    LateEscapes(Watched(ops, more, parent), c, d);
  }

  lemma AllListedEnd(l: Ledger, m: Ledger, c: Id, d: Id)
    requires ForkedAndEnded(l, m, c, d) && Stream(l, d) == [] && T.CancellationOrder(TreeOf(l), [c]).Ok?
    requires forall y :: T.Reaches(TreeOf(l), [c], y) && y != c ==> HasEnded(l, y)
    ensures forall y :: y in T.CancellationOrder(TreeOf(l), [c]).value ==> HasEnded(m, y)
  {
    T.OrderIsTheTree(TreeOf(l), [c]);
    forall y | y in T.CancellationOrder(TreeOf(l), [c]).value ensures HasEnded(m, y) {
      assert T.Reaches(TreeOf(l), [c], y);
      if y != c { assert HasEnded(l, y) && y != d; }
    }
  }

  // -- such a run

  const START: seq<Op> := [DoAppend("p", 0, [("first", Created(RootSpec("p")))], None)]

  lemma Started()
    ensures Run(START) == Ledger(map["p" := [Row("first", 0, "p", Root("p"), Created(RootSpec("p")))]], 1)
  {
    var rows := [Row("first", 0, "p", Root("p"), Created(RootSpec("p")))];
    RunLast(START);
    assert START[..0] == [];
    assert Extended(Run([]), "p", [("first", Created(RootSpec("p")))], None) == rows;
    assert Fold("p", rows) == Some(Summary(RootSpec("p"), [], false, false));
    assert Append(Run([]), "p", 0, [("first", Created(RootSpec("p")))], None) == Ok(Ledger(map["p" := rows], 1));
  }

  lemma StartedCanFork(l: Ledger)
    requires l == Ledger(map["p" := [Row("first", 0, "p", Root("p"), Created(RootSpec("p")))]], 1)
    ensures CanFork(l, "p", "c", "attached") && Stream(l, "d") == []
  {
    var rows := Stream(l, "p");
    assert rows[..0] == [] && ChildrenOf(rows) == [];
  }

  lemma ChildForked(l: Ledger, p: Id, c: Id, d: Id)
    requires LedgerOk(l) && CanFork(l, p, c, "attached") && p != d && c != d && Stream(l, d) == []
    requires Stream(l, p)[0].event.spec.limits.children > 0
    ensures var m := Next(l, DoFork(Input(l, p, c, "attached")));
      && CanForkAndEnd(m, c, d, "attached", "end") && c in ChildrenOf(Stream(m, p)) && ChildrenOf(Stream(m, c)) == []
  {
    SimpleFork(l, p, c, "attached");
    BegunFolds(l, p, c, "attached");
  }

  /** Settling the only child of a root session, which forks meanwhile. */
  lemma LeafEscapes(ops: seq<Op>, l: Ledger)
    requires l == Run(ops) && CanForkAndEnd(l, "c", "d", "attached", "end") && "c" in ChildrenOf(Stream(l, "p")) && ChildrenOf(Stream(l, "c")) == []
    ensures exists ops, more, parent, c, d :: Escapes(Watched(ops, more, parent), c, d)
  {
    LeafOrder(TreeOf(l), "c");
    T.OrderIsTheTree(TreeOf(l), ["c"]);
    LateChildEscapes(ops, "p", "c", "d", "attached", "end");
  }

  lemma ForkedFirst(start: seq<Op>, fork: Op)
    ensures Run(start + [fork]) == Next(Run(start), fork)
  {
    RunMore(start, [fork]);
    assert start + [] == start && [fork][..0] == [];
  }

  lemma EscapesFrom(start: seq<Op>)
    requires CanFork(Run(start), "p", "c", "attached") && Stream(Run(start), "d") == []
    requires Stream(Run(start), "p")[0].event.spec.limits.children > 0
    ensures exists ops, more, parent, c, d :: Escapes(Watched(ops, more, parent), c, d)
  {
    var l := Run(start);
    var fork := DoFork(Input(l, "p", "c", "attached"));
    EveryLedger(start);
    ForkedFirst(start, fork);
    ChildForked(l, "p", "c", "d");
    LeafEscapes(start + [fork], Next(l, fork));
  }

  lemma LateChildHappens()
    ensures exists ops, more, parent, c, d :: Escapes(Watched(ops, more, parent), c, d)
  {
    Started();
    StartedCanFork(Run(START));
    EscapesFrom(START);
  }
}
