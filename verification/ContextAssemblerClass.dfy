/** The assembler's loops: counting with a memory, selection from the newest history back, the retry
    loop around the compaction provider. */
module ContextAssemblerClass {
  import opened Outcomes
  import opened Ordering
  import opened B = ContextBudget

  lemma SortOf<T(!new)>(xs: seq<T>, ys: seq<T>, leq: (T, T) -> bool)
    requires TotalOrder(leq) && Ordering.Sorted(ys, leq) && multiset(xs) == multiset(ys)
    requires forall i, j :: 0 <= i < |ys| && 0 <= j < |ys| && leq(ys[i], ys[j]) && leq(ys[j], ys[i]) ==> ys[i] == ys[j]
    ensures Sort(xs, leq) == ys
  {
    SortSorts(xs, leq);
    SortedUnique(ys, Sort(xs, leq), leq);
  }

  function Reverse<T>(xs: seq<T>): (r: seq<T>)
    ensures |r| == |xs|
  {
    if xs == [] then [] else Reverse(xs[1..]) + [xs[0]]
  }

  lemma {:induction false} ReverseSame<T>(xs: seq<T>)
    ensures multiset(Reverse(xs)) == multiset(xs)
  {
    if xs != [] {
      ReverseSame(xs[1..]);
      assert xs == [xs[0]] + xs[1..];
    }
  }

  lemma {:induction false} ReverseAt<T>(xs: seq<T>, k: nat)
    requires k < |xs|
    ensures Reverse(xs)[k] == xs[|xs| - 1 - k]
  {
    if k < |xs| - 1 { ReverseAt(xs[1..], k); }
  }

  /** Entries that the order does not tell apart are the same. */
  ghost predicate Distinct(h: seq<Entry>) {
    forall j, k :: 0 <= j < |h| && 0 <= k < |h| && EntryLeq(h[j], h[k]) && EntryLeq(h[k], h[j]) ==> h[j] == h[k]
  }

  /** A suffix gathered from its end is put back in order by sorting. */
  lemma OrderedSuffix(h: seq<Entry>, j: nat)
    requires j <= |h| && Ordering.Sorted(h, EntryLeq) && Distinct(h)
    ensures OrderedHistory(Reverse(h[j..])) == h[j..]
  {
    OrdersAreTotal();
    ReverseSame(h[j..]);
    SortOf(Reverse(h[j..]), h[j..], EntryLeq);
  }

  lemma SameSequenceSame(h: seq<Entry>, x: Entry, y: Entry)
    requires forall j, k :: 0 <= j < k < |h| ==> h[j].sequence != h[k].sequence
    requires x in multiset(h) && y in multiset(h) && x.sequence == y.sequence
    ensures x == y
  {
    var a :| 0 <= a < |h| && h[a] == x;
    var b :| 0 <= b < |h| && h[b] == y;
  }

  lemma DistinctOrdered(h: seq<Entry>)
    requires forall j, k :: 0 <= j < k < |h| ==> h[j].sequence != h[k].sequence
    ensures Ordering.Sorted(OrderedHistory(h), EntryLeq) && Distinct(OrderedHistory(h))
  {
    OrdersAreTotal();
    SortSorts(h, EntryLeq);
    var o := OrderedHistory(h);
    forall j, k | 0 <= j < |o| && 0 <= k < |o| && EntryLeq(o[j], o[k]) && EntryLeq(o[k], o[j]) ensures o[j] == o[k] {
      assert o[j] in multiset(o) && o[k] in multiset(o);
      SameSequenceSame(h, o[j], o[k]);
    }
  }

  /** Measuring the entries gathered so far and one more measures the suffix they make. */
  lemma OneBack(i: Input, ordered: seq<Entry>, at: nat)
    requires at < |ordered| && Ordering.Sorted(ordered, EntryLeq) && Distinct(ordered)
    ensures Reverse(ordered[at..]) == Reverse(ordered[at + 1..]) + [ordered[at]]
    ensures Measure(i, Reverse(ordered[at..]), []) == i.tokens(ordered[at..], [])
  {
    assert ordered[at..][1..] == ordered[at + 1..] && ordered[at..][0] == ordered[at];
    OrderedSuffix(ordered, at);
  }

  lemma RefsBack(ordered: seq<Entry>, at: nat, j: nat)
    requires at < j <= |ordered|
    ensures Reverse(Refs(ordered[at..j])) == Reverse(Refs(ordered[at + 1..j])) + [ordered[at].ref]
  {
    assert Refs(ordered[at..j])[1..] == Refs(ordered[at + 1..j]) && Refs(ordered[at..j])[0] == ordered[at].ref;
  }

  /** Memory picked so far and the next in line are in order. */
  lemma NextInOrder(i: Input, kept: seq<Entry>, ordered: seq<Memory>, n: nat, picked: seq<Memory>)
    requires n < |ordered| && Fits(i, kept, []) && Ordering.Sorted(ordered, MemoryLeq) && picked == Pick(i, kept, ordered, n).0
    ensures OrderedMemory(picked + [ordered[n]]) == picked + [ordered[n]]
  {
    PickKeeps(i, kept, ordered, n);
    forall k | 0 <= k < |picked| ensures MemoryLeq(picked[k], ordered[n]) {
      assert picked[k] in picked;
    }
    SortFixed(picked + [ordered[n]], MemoryLeq);
  }

  /** After `n` entries from the end: those from `j` on are selected, those before it omitted. */
  ghost predicate Scanned(i: Input, ordered: seq<Entry>, n: nat, overflowed: bool, j: nat, selected: seq<Entry>, omitted: seq<Id>) {
    && n <= |ordered| && |ordered| - n <= j <= |ordered| && selected == Reverse(ordered[j..])
    && omitted == Reverse(Refs(ordered[|ordered| - n..j]))
    && if overflowed then j == Cut(i, ordered, |ordered|) else j == |ordered| - n && Cut(i, ordered, |ordered|) == Cut(i, ordered, j)
  }

  /** One more entry is left out, after others or as the first that does not fit. */
  lemma ScannedPast(i: Input, ordered: seq<Entry>, n: nat, overflowed: bool, j: nat, selected: seq<Entry>, omitted: seq<Id>)
    requires Scanned(i, ordered, n, overflowed, j, selected, omitted) && n < |ordered|
    requires overflowed || !Fits(i, ordered[|ordered| - n - 1..], [])
    ensures Scanned(i, ordered, n + 1, true, j, selected, omitted + [ordered[|ordered| - n - 1].ref])
  {
    RefsBack(ordered, |ordered| - n - 1, j);
  }

  class ContextAssembler {
    var countCache: map<string, nat>

    constructor ()
      ensures countCache == map[]
    {
      countCache := map[];
    }

    /** `#count`: a counter that changes its mind about a text is refused, so all counts that are
        used agree. */
    method Count(canonical: string, answer: nat) returns (count: Option<nat>)
      modifies this
      ensures count == (if canonical in old(countCache) && old(countCache)[canonical] != answer then None else Some(answer))
      ensures count.Some? ==> canonical in countCache && countCache[canonical] == answer
      ensures forall text :: text in old(countCache) ==> text in countCache && countCache[text] == old(countCache)[text]
      ensures countCache.Keys == old(countCache).Keys + (if count.Some? then {canonical} else {})
    {
      if canonical in countCache && countCache[canonical] != answer { return None; }
      countCache := countCache[canonical := answer];
      count := Some(answer);
    }

    /** The first loop: from the newest entry back, until one does not fit. */
    method SelectHistory(i: Input, ordered: seq<Entry>) returns (selected: seq<Entry>, omitted: seq<Id>)
      requires Ordering.Sorted(ordered, EntryLeq) && Distinct(ordered)
      ensures var j := Cut(i, ordered, |ordered|); selected == Reverse(ordered[j..]) && omitted == Reverse(Refs(ordered[..j]))
    {
      selected, omitted := [], [];
      var overflowed := false;
      var reversed := Reverse(ordered);
      ghost var j: nat := |ordered|;
      for n := 0 to |reversed|
        invariant Scanned(i, ordered, n, overflowed, j, selected, omitted)
      {
        ReverseAt(ordered, n);
        OneBack(i, ordered, |ordered| - n - 1);
        if overflowed {
          ScannedPast(i, ordered, n, true, j, selected, omitted);
          omitted := omitted + [reversed[n].ref];
        } else if Measure(i, selected + [reversed[n]], []) <= InputLimit(i) {
          selected := selected + [reversed[n]];
          j := |ordered| - n - 1;
        } else {
          ScannedPast(i, ordered, n, false, j, selected, omitted);
          overflowed := true;
          omitted := omitted + [reversed[n].ref];
        }
      }
      assert ordered[0..j] == ordered[..j];
    }

    /** The second loop: memory by priority, skipping what does not fit. */
    method SelectMemory(i: Input, kept: seq<Entry>, ordered: seq<Memory>) returns (picked: seq<Memory>, omitted: seq<Id>)
      requires OrderedHistory(kept) == kept && Ordering.Sorted(ordered, MemoryLeq) && Fits(i, kept, [])
      ensures (picked, omitted) == Pick(i, kept, ordered, |ordered|)
    {
      picked, omitted := [], [];
      for n := 0 to |ordered|
        invariant (picked, omitted) == Pick(i, kept, ordered, n)
      {
        NextInOrder(i, kept, ordered, n, picked);
        if Measure(i, kept, picked + [ordered[n]]) <= InputLimit(i) {
          picked := picked + [ordered[n]];
        } else {
          omitted := omitted + [ordered[n].ref];
        }
      }
    }

    /** The retry loop. */
    method Compact(i: Input, p: Provider, selected: Work) returns (r: Result<Budgeted, Error>)
      requires WorkOk(i, selected) && selected.compacted != []
      requires forall j, k :: 0 <= j < k < |i.history| ==> i.history[j].sequence != i.history[k].sequence
      ensures r == Attempts(i, p, selected, 0)
      ensures r.Ok? ==> r.value.tokens <= InputLimit(i) && r.value.record.Some?
    {
      var w := selected;
      DistinctOrdered(i.history);
      ghost var total := |i.history| + |i.memory|;
      for attempt := 0 to |i.history| + |i.memory| + 1
        invariant WorkOk(i, w) && w.compacted != []
        invariant Attempts(i, p, selected, 0) == Attempts(i, p, w, attempt)
      {
        InOrder(i, w);
        var left := InputLimit(i) - Measure(i, w.retained, w.memory);
        var verdict := p(attempt, w.compacted, if left < 1 then 1 else left);
        if verdict.Fails? { return Err(ProviderFailed); }
        var replacement := Replacement(i, w, verdict.text);
        var candidate := Measure(i, [replacement] + w.retained, w.memory);
        if candidate <= InputLimit(i) {
          return Ok(Finish(i, w, verdict.text));
        }
        var less := Shrink(w);
        if less.None? { return Err(CannotFit); }
        ShrinkKeeps(i, w);
        w := less.value;
      }
      r := Err(NotConverged);
    }
  }

  /** What is retained is in order, with or without a replacement in front of it. */
  lemma InOrder(i: Input, w: Work)
    requires WorkOk(i, w) && w.compacted != []
    requires Ordering.Sorted(OrderedHistory(i.history), EntryLeq)
    requires forall j, k :: 0 <= j < k < |i.history| ==> i.history[j].sequence != i.history[k].sequence
    ensures OrderedHistory(w.retained) == w.retained && OrderedMemory(w.memory) == w.memory
    ensures forall text :: OrderedHistory([Replacement(i, w, text)] + w.retained) == [Replacement(i, w, text)] + w.retained
  {
    var o := OrderedHistory(i.history);
    forall k | 0 <= k < |w.retained| ensures w.retained[k] == o[|w.compacted| + k] && o[0].sequence < w.retained[k].sequence {
      assert (w.compacted + w.retained)[|w.compacted| + k] == w.retained[k];
      StrictlyLater(i.history, |w.compacted| + k);
    }
    SortFixed(w.retained, EntryLeq);
    SortFixed(w.memory, MemoryLeq);
    assert o[0] == w.compacted[0];
    forall text ensures OrderedHistory([Replacement(i, w, text)] + w.retained) == [Replacement(i, w, text)] + w.retained {
      FirstInOrder(Replacement(i, w, text), w.retained);
    }
  }

  lemma FirstInOrder(e: Entry, h: seq<Entry>)
    requires Ordering.Sorted(h, EntryLeq) && forall k :: 0 <= k < |h| ==> e.sequence < h[k].sequence
    ensures OrderedHistory([e] + h) == [e] + h
  {
    SortFixed([e] + h, EntryLeq);
  }

  lemma StrictlyLater(h: seq<Entry>, k: nat)
    requires 0 < k < |h| && forall a, b :: 0 <= a < b < |h| ==> h[a].sequence != h[b].sequence
    ensures OrderedHistory(h)[0].sequence < OrderedHistory(h)[k].sequence
  {
    OrdersAreTotal();
    SortSorts(h, EntryLeq);
    var o := OrderedHistory(h);
    assert EntryLeq(o[0], o[k]);
    assert o[0] in multiset(h) && o[k] in multiset(h);
    var a :| 0 <= a < |h| && h[a] == o[0];
    var b :| 0 <= b < |h| && h[b] == o[k];
    OnlyOnce(h, o, a, k);
    assert a != b;
  }

  /** An element that occurs once in an arrangement occurs once in any other. */
  lemma OnlyOnce(h: seq<Entry>, o: seq<Entry>, a: nat, k: nat)
    requires multiset(h) == multiset(o) && a < |h| && 0 < k < |o| && o[0] == h[a]
    requires forall x, y :: 0 <= x < y < |h| ==> h[x].sequence != h[y].sequence
    ensures o[k] != o[0]
  {
    assert h == h[..a] + [h[a]] + h[a + 1..];
    assert h[a] !in multiset(h[..a]) && h[a] !in multiset(h[a + 1..]);
    assert multiset(h)[h[a]] == 1;
    assert o == [o[0]] + o[1..];
    assert multiset(o)[o[0]] == 1 + multiset(o[1..])[o[0]];
    assert o[0] !in multiset(o[1..]);
    assert o[1..][k - 1] == o[k] && o[k] in multiset(o[1..]);
  }
}
