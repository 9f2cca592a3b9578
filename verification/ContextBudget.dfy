/** Fitting a turn's context into its token budget: the newest history that fits, then memory by
    priority, and under the compact policy a replacement for the history left out, retried with less
    and less retained until it fits. */
module ContextBudget {
  import opened Outcomes
  import opened Ordering

  type Id = string

  datatype Role = User | Assistant | System

  datatype Message = Message(role: Role, content: string)

  datatype Entry = Entry(id: Id, ref: Id, sequence: int, message: Message)

  datatype Memory = Memory(ref: Id, priority: int, content: string)

  datatype Policy = Reject | Truncate | Compact

  /** `tokens` measures a composed request by its ordered history and memory; all else in it is
      fixed.  `fixedRefs` are the sources of that fixed part. */
  datatype Input = Input(
    history: seq<Entry>,
    memory: seq<Memory>,
    policy: Policy,
    contextTokens: int,
    maxOutput: int,
    sessionTokens: int,
    reserved: int,
    tokens: (seq<Entry>, seq<Memory>) -> nat,
    fixedRefs: set<Id>,
    eventId: Id,
    eventRef: Id,
    compactor: bool,
    pressed: bool)

  /** What a compaction provider answers to one attempt. */
  datatype Verdict = Replaces(text: string) | Fails

  type Provider = (nat, seq<Entry>, int) -> Verdict

  datatype Record = Record(sources: seq<Entry>, retained: seq<Id>, replacement: Message)

  datatype Budgeted = Budgeted(history: seq<Entry>, memory: seq<Memory>, tokens: nat, omitted: seq<Id>, record: Option<Record>)

  datatype Error = Exhausted | ReservedTooLarge | RequiredTooLarge | CompleteTooLarge | NoCompactor | Declined
    | ProviderFailed | CannotFit | NotConverged

  // ---------------------------------------------------------------- order

  predicate EntryBefore(a: Entry, b: Entry) {
    a.sequence < b.sequence || (a.sequence == b.sequence && StringLeq(a.ref, b.ref))
  }

  predicate MemoryBefore(a: Memory, b: Memory) {
    a.priority > b.priority || (a.priority == b.priority && StringLeq(a.ref, b.ref))
  }

  const EntryLeq: (Entry, Entry) -> bool := (a, b) => EntryBefore(a, b)

  const MemoryLeq: (Memory, Memory) -> bool := (a, b) => MemoryBefore(a, b)

  function OrderedHistory(h: seq<Entry>): (r: seq<Entry>)
    ensures |r| == |h|
  {
    Sort(h, EntryLeq)
  }

  function OrderedMemory(m: seq<Memory>): (r: seq<Memory>)
    ensures |r| == |m|
  {
    Sort(m, MemoryLeq)
  }

  lemma OrdersAreTotal()
    ensures TotalOrder(EntryLeq) && TotalOrder(MemoryLeq)
  {
    forall a, b ensures EntryLeq(a, b) || EntryLeq(b, a) { StringTotal(a.ref, b.ref); }
    forall a, b, c | EntryLeq(a, b) && EntryLeq(b, c) ensures EntryLeq(a, c) {
      if a.sequence == b.sequence == c.sequence { StringTransitive(a.ref, b.ref, c.ref); }
    }
    forall a, b ensures MemoryLeq(a, b) || MemoryLeq(b, a) { StringTotal(a.ref, b.ref); }
    forall a, b, c | MemoryLeq(a, b) && MemoryLeq(b, c) ensures MemoryLeq(a, c) {
      if a.priority == b.priority == c.priority { StringTransitive(a.ref, b.ref, c.ref); }
    }
  }

  function Ids(h: seq<Entry>): (r: seq<Id>)
    ensures |r| == |h|
  {
    seq(|h|, i requires 0 <= i < |h| => h[i].id)
  }

  function Refs(h: seq<Entry>): (r: seq<Id>)
    ensures |r| == |h|
  {
    seq(|h|, i requires 0 <= i < |h| => h[i].ref)
  }

  function MemoryRefs(m: seq<Memory>): (r: seq<Id>)
    ensures |r| == |m|
  {
    seq(|m|, i requires 0 <= i < |m| => m[i].ref)
  }

  function Messages(h: seq<Entry>): (r: seq<Message>)
    ensures |r| == |h|
  {
    seq(|h|, i requires 0 <= i < |h| => h[i].message)
  }

  // ---------------------------------------------------------------- the budget

  function InputLimit(i: Input): int { (if i.contextTokens < i.sessionTokens then i.contextTokens else i.sessionTokens) - i.reserved }

  /** `#compose` measured: whatever is included is put in order first. */
  function Measure(i: Input, h: seq<Entry>, m: seq<Memory>): nat {
    i.tokens(OrderedHistory(h), OrderedMemory(m))
  }

  predicate Fits(i: Input, h: seq<Entry>, m: seq<Memory>) { i.tokens(h, m) <= InputLimit(i) }

  /** From the end of the ordered history back to the first entry with which it no longer fits. */
  function Cut(i: Input, ordered: seq<Entry>, j: nat): (r: nat)
    requires j <= |ordered|
    ensures r <= j
  {
    if j == 0 || !Fits(i, ordered[j - 1..], []) then j else Cut(i, ordered, j - 1)
  }

  /** Memory in order, each entry kept if it still fits. */
  function Pick(i: Input, kept: seq<Entry>, ordered: seq<Memory>, n: nat): (seq<Memory>, seq<Id>)
    requires n <= |ordered|
  {
    if n == 0 then ([], [])
    else
      var (picked, omitted) := Pick(i, kept, ordered, n - 1);
      if Fits(i, kept, picked + [ordered[n - 1]]) then (picked + [ordered[n - 1]], omitted)
      else (picked, omitted + [ordered[n - 1].ref])
  }

  /** What the retry loop changes. */
  datatype Work = Work(compacted: seq<Entry>, retained: seq<Entry>, memory: seq<Memory>, omitted: seq<Id>)

  function Replacement(i: Input, w: Work, text: string): Entry
    requires w.compacted != []
  {
    Entry(i.eventId, i.eventRef, w.compacted[0].sequence, Message(Assistant, text))
  }

  function Target(i: Input, w: Work): int {
    var left := InputLimit(i) - i.tokens(w.retained, w.memory);
    if left < 1 then 1 else left
  }

  /** Less is retained: the last memory goes first, then the oldest history. */
  function Shrink(w: Work): Option<Work> {
    if w.memory != [] then
      var n := |w.memory| - 1;
      Some(w.(memory := w.memory[..n], omitted := w.omitted + [w.memory[n].ref]))
    else if w.retained != [] then Some(w.(compacted := w.compacted + [w.retained[0]], retained := w.retained[1..]))
    else None
  }

  function Finish(i: Input, w: Work, text: string): Budgeted
    requires w.compacted != []
  {
    var history := [Replacement(i, w, text)] + w.retained;
    Budgeted(history, w.memory, i.tokens(history, w.memory), Sort(Refs(w.compacted) + w.omitted, StringLeq),
             Some(Record(w.compacted, Ids(w.retained), Message(Assistant, text))))
  }

  /** The attempts from number `attempt` on. */
  function Attempts(i: Input, p: Provider, w: Work, attempt: nat): Result<Budgeted, Error>
    requires w.compacted != []
    decreases |i.history| + |i.memory| - attempt
  {
    if attempt > |i.history| + |i.memory| then Err(NotConverged)
    else
      match p(attempt, w.compacted, Target(i, w))
      case Fails => Err(ProviderFailed)
      case Replaces(text) =>
        if Fits(i, [Replacement(i, w, text)] + w.retained, w.memory) then Ok(Finish(i, w, text))
        else
          match Shrink(w)
          case None => Err(CannotFit)
          case Some(less) => Attempts(i, p, less, attempt + 1)
  }

  /** Everything in order. */
  function Complete(i: Input): Budgeted {
    var h, m := OrderedHistory(i.history), OrderedMemory(i.memory);
    Budgeted(h, m, i.tokens(h, m), [], None)
  }

  function Selected(i: Input): Work {
    var h, m := OrderedHistory(i.history), OrderedMemory(i.memory);
    var j := Cut(i, h, |h|);
    var (picked, omitted) := Pick(i, h[j..], m, |m|);
    Work(h[..j], h[j..], picked, omitted)
  }

  function Ordinary(i: Input): Budgeted {
    var w := Selected(i);
    Budgeted(w.retained, w.memory, i.tokens(w.retained, w.memory), Sort(Refs(w.compacted) + w.omitted, StringLeq), None)
  }

  /** Not everything fits. */
  function Overfull(i: Input, p: Provider): Result<Budgeted, Error> {
    if i.policy == Truncate then Ok(Ordinary(i))
    else if !i.compactor then Err(NoCompactor)
    else if Selected(i).compacted == [] then Ok(Ordinary(i))
    else if !i.pressed then Err(Declined)
    else Attempts(i, p, Selected(i), 0)
  }

  function Budget(i: Input, p: Provider): Result<Budgeted, Error> {
    var limit := InputLimit(i) + i.reserved;
    if limit < 1 then Err(Exhausted)
    else if i.reserved > i.maxOutput || i.reserved > limit then Err(ReservedTooLarge)
    else if !Fits(i, [], []) then Err(RequiredTooLarge)
    else if Fits(i, OrderedHistory(i.history), OrderedMemory(i.memory)) then Ok(Complete(i))
    else if i.policy == Reject then Err(CompleteTooLarge)
    else Overfull(i, p)
  }

  // ---------------------------------------------------------------- the fold's checks

  /** What the session fold asks of a compaction record: its sources and retained ids, in order, are
      the durable history, and the sources are its very prefix. */
  predicate LineageOk(durable: seq<Entry>, r: Record) {
    Ids(r.sources) + r.retained == Ids(durable) && r.sources == durable[..|r.sources|]
  }

  function Visible(h: seq<Message>): seq<Message> {
    if h == [] then [] else (if h[0].role == System then [] else [h[0]]) + Visible(h[1..])
  }

  /** The last `n` entries. */
  function Tail(durable: seq<Entry>, n: nat): seq<Entry>
    requires n <= |durable|
  {
    durable[|durable| - n..]
  }

  predicate OrdinaryOk(durable: seq<Entry>, visible: seq<Message>, refs: set<Id>) {
    && |visible| <= |durable|
    && visible == Messages(Tail(durable, |visible|))
    && forall e <- Tail(durable, |visible|) :: e.ref in refs
  }

  function Among(durable: seq<Entry>, ids: seq<Id>): seq<Entry> {
    if durable == [] then [] else (if durable[0].id in ids then [durable[0]] else []) + Among(durable[1..], ids)
  }

  predicate CompactedOk(durable: seq<Entry>, visible: seq<Message>, refs: set<Id>, r: Record, eventRef: Id) {
    && visible == [r.replacement] + Messages(Among(durable, r.retained))
    && eventRef in refs
    && (forall e <- Among(durable, r.retained) :: e.ref in refs)
    && (forall e <- Among(durable, Ids(r.sources)) :: e.ref !in refs)
  }

  /** `context.assembled` after the compaction record, if there is one. */
  predicate ContextOk(durable: seq<Entry>, visible: seq<Message>, refs: set<Id>, r: Option<Record>, eventRef: Id) {
    match r
    case None => OrdinaryOk(durable, visible, refs)
    case Some(record) => CompactedOk(durable, visible, refs, record, eventRef)
  }

  /** The fold accepts what the assembler appends: the record, if any, and then the request. */
  predicate FoldAccepts(durable: seq<Entry>, i: Input, b: Budgeted) {
    && (b.record.Some? ==> LineageOk(durable, b.record.value))
    && ContextOk(durable, Visible(Messages(b.history)), Included(i, b), b.record, i.eventRef)
  }

  function Included(i: Input, b: Budgeted): set<Id> {
    i.fixedRefs + (set e <- b.history :: e.ref) + (set m <- b.memory :: m.ref)
  }

  // ---------------------------------------------------------------- what selection keeps

  lemma {:induction false} CutKeeps(i: Input, h: seq<Entry>, j: nat)
    requires j <= |h| && Fits(i, h[j..], [])
    ensures var c := Cut(i, h, j);
      Fits(i, h[c..], []) && (c > 0 ==> !Fits(i, h[c - 1..], [])) && forall k :: c <= k <= j ==> Fits(i, h[k..], [])
  {
    if j > 0 && Fits(i, h[j - 1..], []) { CutKeeps(i, h, j - 1); }
  }

  lemma MemoryRefsPush(m: seq<Memory>, last: Memory)
    ensures MemoryRefs(m + [last]) == MemoryRefs(m) + [last.ref]
  {
  }

  /** What is picked, and what is omitted, of the first `n`. */
  ghost predicate Picked(picked: seq<Memory>, omitted: seq<Id>, m: seq<Memory>, n: nat)
    requires n <= |m|
  {
    && |picked| <= n && (forall a :: a in picked ==> exists k :: 0 <= k < n && m[k] == a)
    && multiset(MemoryRefs(picked)) + multiset(omitted) == multiset(MemoryRefs(m[..n]))
  }

  lemma PickStep(picked: seq<Memory>, omitted: seq<Id>, m: seq<Memory>, n: nat)
    requires 0 < n <= |m| && Picked(picked, omitted, m, n - 1)
    ensures Picked(picked + [m[n - 1]], omitted, m, n) && Picked(picked, omitted + [m[n - 1].ref], m, n)
  {
    var last := m[n - 1];
    assert m[..n] == m[..n - 1] + [last];
    MemoryRefsPush(m[..n - 1], last);
    MemoryRefsPush(picked, last);
  }

  lemma {:induction false} PickKeeps(i: Input, kept: seq<Entry>, m: seq<Memory>, n: nat)
    requires n <= |m| && Fits(i, kept, []) && Sorted(m, MemoryLeq)
    ensures var (picked, omitted) := Pick(i, kept, m, n);
      Fits(i, kept, picked) && Sorted(picked, MemoryLeq) && Picked(picked, omitted, m, n)
  {
    if n == 0 {
      assert m[..0] == [] && MemoryRefs([]) == [];
    } else {
      PickKeeps(i, kept, m, n - 1);
      var (picked, omitted) := Pick(i, kept, m, n - 1);
      PickStep(picked, omitted, m, n);
      forall k | 0 <= k < |picked| ensures MemoryLeq(picked[k], m[n - 1]) {
        assert picked[k] in picked;
      }
    }
  }

  /** The ordered history is a compacted part and then the retained part; memory is in order; every
      source not included is listed as omitted. */
  ghost predicate WorkOk(i: Input, w: Work) {
    && w.compacted + w.retained == OrderedHistory(i.history)
    && Sorted(w.memory, MemoryLeq) && |w.memory| <= |i.memory| && (forall m :: m in w.memory ==> m in i.memory)
    && multiset(MemoryRefs(w.memory)) + multiset(w.omitted) == multiset(MemoryRefs(i.memory))
  }

  lemma {:induction false} RefsOfInsert(x: Memory, m: seq<Memory>)
    ensures multiset(MemoryRefs(Insert(x, m, MemoryLeq))) == multiset(MemoryRefs(m)) + multiset{x.ref}
  {
    if m != [] {
      var r := Insert(x, m, MemoryLeq);
      assert MemoryRefs(m) == [m[0].ref] + MemoryRefs(m[1..]);
      if MemoryLeq(m[0], x) {
        RefsOfInsert(x, m[1..]);
        assert MemoryRefs(r) == [m[0].ref] + MemoryRefs(Insert(x, m[1..], MemoryLeq));
      } else {
        assert MemoryRefs(r) == [x.ref] + MemoryRefs(m);
      }
    }
  }

  lemma {:induction false} RefsOfSort(m: seq<Memory>)
    ensures multiset(MemoryRefs(OrderedMemory(m))) == multiset(MemoryRefs(m))
    decreases |m|
  {
    if m != [] {
      var n := |m| - 1;
      RefsOfSort(m[..n]);
      RefsOfInsert(m[n], OrderedMemory(m[..n]));
      assert m == m[..n] + [m[n]];
      MemoryRefsPush(m[..n], m[n]);
    }
  }

  lemma OrderedMemoryOf(m: seq<Memory>)
    ensures Sorted(OrderedMemory(m), MemoryLeq)
    ensures multiset(MemoryRefs(OrderedMemory(m))) == multiset(MemoryRefs(m))
    ensures forall k :: 0 <= k < |m| ==> OrderedMemory(m)[k] in m
  {
    OrdersAreTotal();
    SortSorts(m, MemoryLeq);
    RefsOfSort(m);
    forall k | 0 <= k < |m| ensures OrderedMemory(m)[k] in m {
      assert OrderedMemory(m)[k] in multiset(OrderedMemory(m));
    }
  }

  lemma SelectedHistory(i: Input)
    requires Fits(i, [], [])
    ensures var w := Selected(i);
      && w.compacted + w.retained == OrderedHistory(i.history) && Fits(i, w.retained, [])
      && (w.compacted != [] ==> !Fits(i, [w.compacted[|w.compacted| - 1]] + w.retained, []))
  {
    var h := OrderedHistory(i.history);
    assert h[|h|..] == [];
    CutKeeps(i, h, |h|);
    var j := Cut(i, h, |h|);
    assert h[..j] + h[j..] == h;
    assert j > 0 ==> [h[..j][j - 1]] + h[j..] == h[j - 1..];
  }

  lemma SelectedKeeps(i: Input)
    requires Fits(i, [], [])
    ensures WorkOk(i, Selected(i)) && Fits(i, Selected(i).retained, Selected(i).memory)
  {
    SelectedHistory(i);
    var w, m := Selected(i), OrderedMemory(i.memory);
    OrderedMemoryOf(i.memory);
    PickKeeps(i, w.retained, m, |m|);
    assert m[..|m|] == m;
  }

  // ---------------------------------------------------------------- what the result keeps

  /** No source is lost and none is used twice; the input is within its limit; what was compacted is
      a prefix of the ordered history, and the rest of it is retained. */
  ghost predicate ResultOk(i: Input, b: Budgeted) {
    && b.tokens == i.tokens(b.history, b.memory) <= InputLimit(i)
    && Sorted(b.memory, MemoryLeq) && (forall m :: m in b.memory ==> m in i.memory)
    && match b.record
       case None =>
         var h := OrderedHistory(i.history);
         && |b.history| <= |h| && b.history == h[|h| - |b.history|..]
         && multiset(b.omitted) + multiset(Refs(b.history)) + multiset(MemoryRefs(b.memory)) == multiset(Refs(h)) + multiset(MemoryRefs(i.memory))
       case Some(r) =>
         && b.history != [] && r.sources != [] && r.sources + b.history[1..] == OrderedHistory(i.history)
         && b.history[0] == Entry(i.eventId, i.eventRef, r.sources[0].sequence, r.replacement)
         && r.replacement.role == Assistant && r.retained == Ids(b.history[1..])
         && multiset(b.omitted) + multiset(MemoryRefs(b.memory)) == multiset(Refs(r.sources)) + multiset(MemoryRefs(i.memory))
  }

  lemma CompleteKeeps(i: Input)
    requires Fits(i, OrderedHistory(i.history), OrderedMemory(i.memory))
    ensures ResultOk(i, Complete(i))
  {
    OrderedMemoryOf(i.memory);
    var b := Complete(i);
    assert b.history == OrderedHistory(i.history)[0..];
    forall x | x in b.memory ensures x in i.memory {
      var k :| 0 <= k < |b.memory| && b.memory[k] == x;
    }
  }

  lemma RefsConcat(a: seq<Entry>, b: seq<Entry>)
    ensures Refs(a + b) == Refs(a) + Refs(b)
  {
  }

  lemma OrdinaryKeeps(i: Input)
    requires WorkOk(i, Selected(i)) && Fits(i, Selected(i).retained, Selected(i).memory)
    ensures ResultOk(i, Ordinary(i))
  {
    var w, h := Selected(i), OrderedHistory(i.history);
    SortSame(Refs(w.compacted) + w.omitted, StringLeq);
    assert h[|h| - |w.retained|..] == w.retained;
    RefsConcat(w.compacted, w.retained);
  }

  lemma FinishKeeps(i: Input, w: Work, text: string)
    requires WorkOk(i, w) && w.compacted != [] && Fits(i, [Replacement(i, w, text)] + w.retained, w.memory)
    ensures ResultOk(i, Finish(i, w, text))
  {
    SortSame(Refs(w.compacted) + w.omitted, StringLeq);
    assert ([Replacement(i, w, text)] + w.retained)[1..] == w.retained;
  }

  lemma ShrinkKeeps(i: Input, w: Work)
    requires WorkOk(i, w) && w.compacted != [] && Shrink(w).Some?
    ensures var less := Shrink(w).value;
      WorkOk(i, less) && less.compacted != [] && |less.retained| + |less.memory| == |w.retained| + |w.memory| - 1
  {
    if w.memory != [] {
      var n := |w.memory| - 1;
      assert MemoryRefs(w.memory) == MemoryRefs(w.memory[..n]) + [w.memory[n].ref];
    } else {
      assert w.compacted + [w.retained[0]] + w.retained[1..] == w.compacted + w.retained;
    }
  }

  /** The retry loop always ends within its bound: each rejection retains one source less. */
  lemma {:induction false} AttemptsKeep(i: Input, p: Provider, w: Work, attempt: nat)
    requires WorkOk(i, w) && w.compacted != [] && |w.retained| + |w.memory| + attempt <= |i.history| + |i.memory|
    ensures var r := Attempts(i, p, w, attempt);
      r != Err(NotConverged) && (r.Ok? ==> r.value.record.Some? && ResultOk(i, r.value))
    decreases |i.history| + |i.memory| - attempt
  {
    match p(attempt, w.compacted, Target(i, w))
    case Fails =>
    case Replaces(text) =>
      if Fits(i, [Replacement(i, w, text)] + w.retained, w.memory) {
        FinishKeeps(i, w, text);
      } else if Shrink(w).Some? {
        ShrinkKeeps(i, w);
        AttemptsKeep(i, p, Shrink(w).value, attempt + 1);
      }
  }

  lemma CompactingKeeps(i: Input, p: Provider)
    requires WorkOk(i, Selected(i)) && Selected(i).compacted != []
    ensures var r := Attempts(i, p, Selected(i), 0);
      r != Err(NotConverged) && (r.Ok? ==> r.value.record.Some? && ResultOk(i, r.value))
  {
    var w := Selected(i);
    assert |w.compacted + w.retained| == |i.history|;
    AttemptsKeep(i, p, w, 0);
  }

  lemma OverfullKeeps(i: Input, p: Provider)
    requires Fits(i, [], [])
    ensures Overfull(i, p) != Err(NotConverged)
    ensures Overfull(i, p).Ok? ==> ResultOk(i, Overfull(i, p).value)
  {
    SelectedKeeps(i);
    if i.policy == Truncate || Selected(i).compacted == [] {
      OrdinaryKeeps(i);
    } else {
      CompactingKeeps(i, p);
    }
  }

  lemma BudgetCases(i: Input, p: Provider)
    ensures var r := Budget(i, p);
      || (r.Err? && r.error != NotConverged)
      || (r == Ok(Complete(i)) && Fits(i, OrderedHistory(i.history), OrderedMemory(i.memory)))
      || (r == Overfull(i, p) && Fits(i, [], []))
  {
  }

  lemma ResultCases(i: Input, p: Provider, r: Result<Budgeted, Error>)
    requires || (r.Err? && r.error != NotConverged)
             || (r == Ok(Complete(i)) && Fits(i, OrderedHistory(i.history), OrderedMemory(i.memory)))
             || (r == Overfull(i, p) && Fits(i, [], []))
    ensures r != Err(NotConverged) && (r.Ok? ==> ResultOk(i, r.value))
  {
    if r == Ok(Complete(i)) && Fits(i, OrderedHistory(i.history), OrderedMemory(i.memory)) {
      CompleteKeeps(i);
    } else if r == Overfull(i, p) && Fits(i, [], []) {
      OverfullKeeps(i, p);
    }
  }

  /** Whatever the measure and the provider: the loop converges, and every result stays within the
      limit and accounts for every source exactly once. */
  lemma BudgetKeeps(i: Input, p: Provider)
    ensures Budget(i, p) != Err(NotConverged)
    ensures Budget(i, p).Ok? ==> ResultOk(i, Budget(i, p).value)
  {
    BudgetCases(i, p);
    ResultCases(i, p, Budget(i, p));
  }

  /** History is kept greedily: the retained suffix cannot be extended by one more entry. */
  lemma SelectionIsMaximal(i: Input)
    requires Fits(i, [], [])
    ensures var w := Selected(i);
      && w.compacted + w.retained == OrderedHistory(i.history) && Fits(i, w.retained, w.memory)
      && (w.compacted != [] ==> !Fits(i, [w.compacted[|w.compacted| - 1]] + w.retained, []))
  {
    SelectedKeeps(i);
    SelectedHistory(i);
  }

  // ---------------------------------------------------------------- what the fold makes of it

  /** Durable history: events have ids and references of their own, also apart from the compaction
      event to come; no turn is a system message. */
  ghost predicate DurableOk(durable: seq<Entry>, i: Input) {
    && (forall j, k :: 0 <= j < k < |durable| ==>
          durable[j].id != durable[k].id && durable[j].ref != durable[k].ref && durable[j].sequence != durable[k].sequence)
    && (forall e :: e in durable ==> e.message.role != System && e.ref != i.eventRef)
  }

  /** A source from outside the history, an instruction or a memory, goes by the entry's reference. */
  predicate NamedOutside(i: Input, b: Budgeted, e: Entry) { e.ref in i.fixedRefs || exists m <- b.memory :: m.ref == e.ref }

  predicate NoneNamed(i: Input, b: Budgeted, es: seq<Entry>) { forall e <- es :: !NamedOutside(i, b, e) }

  ghost predicate InSequence(durable: seq<Entry>) {
    forall j, k :: 0 <= j < k < |durable| ==> durable[j].sequence < durable[k].sequence
  }

  lemma OrderedIsDurable(durable: seq<Entry>)
    requires forall j, k :: 0 <= j < k < |durable| ==> durable[j].sequence != durable[k].sequence
    ensures OrderedHistory(durable) == durable <==> InSequence(durable)
  {
    if InSequence(durable) {
      SortFixed(durable, EntryLeq);
    } else if OrderedHistory(durable) == durable {
      OrdersAreTotal();
      SortSorts(durable, EntryLeq);
    }
  }

  lemma IdsDetermine(a: seq<Entry>, b: seq<Entry>)
    requires multiset(a) == multiset(b) && Ids(a) == Ids(b)
    requires forall j, k :: 0 <= j < k < |b| ==> b[j].id != b[k].id
    ensures a == b
  {
    assert |a| == |Ids(a)| == |Ids(b)| == |b|;
    forall k | 0 <= k < |a| ensures a[k] == b[k] {
      assert a[k] in multiset(b);
      var x :| 0 <= x < |b| && b[x] == a[k];
      assert Ids(a)[k] == Ids(b)[k];
    }
  }

  lemma {:induction false} AllVisible(h: seq<Message>)
    requires forall k :: 0 <= k < |h| ==> h[k].role != System
    ensures Visible(h) == h
  {
    if h != [] {
      AllVisible(h[1..]);
      assert h == [h[0]] + h[1..];
    }
  }

  lemma {:induction false} AmongNone(durable: seq<Entry>, ids: seq<Id>)
    requires forall e :: e in durable ==> e.id !in ids
    ensures Among(durable, ids) == []
  {
    if durable != [] { AmongNone(durable[1..], ids); }
  }

  lemma {:induction false} AmongAll(durable: seq<Entry>, ids: seq<Id>)
    requires forall e :: e in durable ==> e.id in ids
    ensures Among(durable, ids) == durable
  {
    if durable != [] {
      AmongAll(durable[1..], ids);
      assert durable == [durable[0]] + durable[1..];
    }
  }

  lemma {:induction false} AmongParts(a: seq<Entry>, b: seq<Entry>, ids: seq<Id>)
    ensures Among(a + b, ids) == Among(a, ids) + Among(b, ids)
  {
    if a == [] {
      assert a + b == b;
    } else {
      AmongParts(a[1..], b, ids);
      assert (a + b)[1..] == a[1..] + b && (a + b)[0] == a[0];
      var one := if a[0].id in ids then [a[0]] else [];
      assert Among(a, ids) == one + Among(a[1..], ids);
      assert one + (Among(a[1..], ids) + Among(b, ids)) == one + Among(a[1..], ids) + Among(b, ids);
    }
  }

  lemma InIds(h: seq<Entry>, e: Entry)
    ensures e in h ==> e.id in Ids(h)
    ensures e.id in Ids(h) ==> exists k :: 0 <= k < |h| && h[k].id == e.id
  {
    if e in h {
      var k :| 0 <= k < |h| && h[k] == e;
      assert Ids(h)[k] == e.id;
    }
    if e.id in Ids(h) {
      var k :| 0 <= k < |h| && Ids(h)[k] == e.id;
    }
  }

  /** A prefix and a suffix of durable history are told apart by their ids. */
  lemma AmongSplit(a: seq<Entry>, b: seq<Entry>)
    requires forall j, k :: 0 <= j < k < |a + b| ==> (a + b)[j].id != (a + b)[k].id
    ensures Among(a + b, Ids(b)) == b && Among(a + b, Ids(a)) == a
  {
    AmongParts(a, b, Ids(b));
    AmongParts(a, b, Ids(a));
    forall e | e in a ensures e.id in Ids(a) && e.id !in Ids(b) {
      InIds(a, e);
      InIds(b, e);
      var j :| 0 <= j < |a| && a[j] == e;
      forall k | 0 <= k < |b| ensures b[k].id != e.id { assert (a + b)[j].id != (a + b)[|a| + k].id; }
    }
    forall e | e in b ensures e.id in Ids(b) && e.id !in Ids(a) {
      InIds(a, e);
      InIds(b, e);
      var k :| 0 <= k < |b| && b[k] == e;
      forall j | 0 <= j < |a| ensures a[j].id != e.id { assert (a + b)[j].id != (a + b)[|a| + k].id; }
    }
    AmongNone(a, Ids(b));
    AmongAll(b, Ids(b));
    AmongAll(a, Ids(a));
    AmongNone(b, Ids(a));
  }

  lemma CompactedVisible(durable: seq<Entry>, i: Input, b: Budgeted)
    requires DurableOk(durable, i) && b.record.Some? && ResultOk(i, b)
    requires b.record.value.sources + b.history[1..] == durable
    ensures var r := b.record.value;
      Visible(Messages(b.history)) == [r.replacement] + Messages(Among(durable, r.retained))
  {
    var r, kept := b.record.value, b.history[1..];
    AmongSplit(r.sources, kept);
    NoneSystem(durable, i, b);
    AllVisible(Messages(b.history));
    assert Messages(b.history) == [r.replacement] + Messages(kept);
  }

  lemma NoneSystem(durable: seq<Entry>, i: Input, b: Budgeted)
    requires DurableOk(durable, i) && b.record.Some? && ResultOk(i, b)
    requires b.record.value.sources + b.history[1..] == durable
    ensures forall k :: 0 <= k < |Messages(b.history)| ==> Messages(b.history)[k].role != System
  {
    var r, kept := b.record.value, b.history[1..];
    forall k | 0 <= k < |b.history| ensures b.history[k].message.role != System {
      if k > 0 {
        assert b.history[k] == kept[k - 1] == durable[|r.sources| + k - 1];
        assert kept[k - 1] in durable;
      }
    }
  }

  lemma CompactedRefs(durable: seq<Entry>, i: Input, b: Budgeted)
    requires DurableOk(durable, i) && b.record.Some? && ResultOk(i, b)
    requires b.record.value.sources + b.history[1..] == durable
    ensures i.eventRef in Included(i, b)
    ensures forall e :: e in b.history[1..] ==> e.ref in Included(i, b)
    ensures forall e :: e in b.record.value.sources ==> (e.ref in Included(i, b) <==> NamedOutside(i, b, e))
  {
    var r, kept := b.record.value, b.history[1..];
    assert b.history[0] in b.history;
    forall e | e in r.sources ensures e.ref in Included(i, b) <==> NamedOutside(i, b, e) {
      assert e in durable;
      var j :| 0 <= j < |r.sources| && r.sources[j] == e;
      assert durable[j] == e;
      forall y | 0 <= y < |b.history| ensures b.history[y].ref != e.ref {
        if y > 0 { assert b.history[y] == durable[|r.sources| + y - 1]; }
      }
    }
  }

  lemma CompactedAccepted(durable: seq<Entry>, i: Input, b: Budgeted)
    requires i.history == durable && DurableOk(durable, i) && OrderedHistory(durable) == durable
    requires ResultOk(i, b) && b.record.Some?
    ensures FoldAccepts(durable, i, b) <==> NoneNamed(i, b, b.record.value.sources)
  {
    var r, kept := b.record.value, b.history[1..];
    assert Ids(durable) == Ids(r.sources) + Ids(kept);
    AmongSplit(r.sources, kept);
    CompactedVisible(durable, i, b);
    CompactedRefs(durable, i, b);
  }

  lemma CompactionAcceptedIff(durable: seq<Entry>, i: Input, b: Budgeted)
    requires i.history == durable && DurableOk(durable, i) && ResultOk(i, b) && b.record.Some?
    ensures FoldAccepts(durable, i, b) <==> InSequence(durable) && NoneNamed(i, b, b.record.value.sources)
  {
    var r := b.record.value;
    OrderedIsDurable(durable);
    SortSame(durable, EntryLeq);
    if LineageOk(durable, r) {
      assert Ids(OrderedHistory(durable)) == Ids(r.sources) + Ids(b.history[1..]);
      IdsDetermine(OrderedHistory(durable), durable);
    }
    if InSequence(durable) { CompactedAccepted(durable, i, b); }
  }

  /** A compaction meets the fold's checks if and only if the durable history, listed turn by turn, is
      already in order of sequence, and no source from outside goes by a reference that was compacted.
      It may be refused when an earlier turn settled after a later one began. */
  lemma CompactionAcceptedIffInSequence(durable: seq<Entry>, i: Input, p: Provider)
    requires i.history == durable && DurableOk(durable, i)
    requires Budget(i, p).Ok? && Budget(i, p).value.record.Some?
    ensures var b := Budget(i, p).value; FoldAccepts(durable, i, b) <==> InSequence(durable) && NoneNamed(i, b, b.record.value.sources)
  {
    BudgetKeeps(i, p);
    CompactionAcceptedIff(durable, i, Budget(i, p).value);
  }

  /** What is kept without a compaction is of the log, and all of it shows. */
  lemma KeptShows(durable: seq<Entry>, i: Input, b: Budgeted)
    requires i.history == durable && DurableOk(durable, i) && ResultOk(i, b) && b.record.None?
    ensures |b.history| <= |durable| && (forall e :: e in b.history ==> e in durable)
    ensures Visible(Messages(b.history)) == Messages(b.history)
  {
    var h := OrderedHistory(durable);
    SortSame(durable, EntryLeq);
    forall e | e in b.history ensures e in durable {
      assert e in h && e in multiset(h);
    }
    forall k | 0 <= k < |b.history| ensures b.history[k].message.role != System { assert b.history[k] in b.history; }
    AllVisible(Messages(b.history));
  }

  lemma IncludedIff(durable: seq<Entry>, i: Input, b: Budgeted, e: Entry)
    requires DurableOk(durable, i) && e in durable && forall x :: x in b.history ==> x in durable
    ensures e.ref in Included(i, b) <==> e in b.history || NamedOutside(i, b, e)
  {
    SameRef(durable, e, b.history);
  }

  /** Without a compaction, the suffix that was kept must read like the durable one, and each entry of
      the durable suffix must be kept or go by the reference of an outside source. */
  lemma OrdinaryAcceptedIff(durable: seq<Entry>, i: Input, b: Budgeted)
    requires i.history == durable && DurableOk(durable, i) && ResultOk(i, b) && b.record.None?
    ensures |b.history| <= |durable|
    ensures var tail := Tail(durable, |b.history|);
      FoldAccepts(durable, i, b) <==>
        Messages(b.history) == Messages(tail) && forall e <- tail :: e in b.history || NamedOutside(i, b, e)
  {
    KeptShows(durable, i, b);
    forall e | e in Tail(durable, |b.history|) ensures e.ref in Included(i, b) <==> e in b.history || NamedOutside(i, b, e) {
      IncludedIff(durable, i, b, e);
    }
  }

  /** An entry of durable history is told by its reference. */
  lemma SameRef(durable: seq<Entry>, e: Entry, part: seq<Entry>)
    requires forall j, k :: 0 <= j < k < |durable| ==> durable[j].ref != durable[k].ref
    requires e in durable && forall x :: x in part ==> x in durable
    ensures (exists x :: x in part && x.ref == e.ref) <==> e in part
  {
    forall x | x in part && x.ref == e.ref ensures x == e {
      var j :| 0 <= j < |durable| && durable[j] == x;
      var k :| 0 <= k < |durable| && durable[k] == e;
    }
  }

  /** In order of sequence that is always so. */
  lemma OrdinaryAccepted(durable: seq<Entry>, i: Input, p: Provider)
    requires i.history == durable && DurableOk(durable, i) && InSequence(durable)
    requires Budget(i, p).Ok? && Budget(i, p).value.record.None?
    ensures FoldAccepts(durable, i, Budget(i, p).value)
  {
    BudgetKeeps(i, p);
    var b := Budget(i, p).value;
    OrderedIsDurable(durable);
    assert b.history == Tail(durable, |b.history|);
    forall k | 0 <= k < |b.history| ensures b.history[k].message.role != System && b.history[k].ref in Included(i, b) {
      assert b.history[k] in durable && b.history[k] in b.history;
    }
    AllVisible(Messages(b.history));
  }

  /** And without it, a request with the whole history is accepted exactly when the ordered messages
      read like the durable ones. */
  lemma CompleteAcceptedIff(durable: seq<Entry>, i: Input)
    requires i.history == durable && DurableOk(durable, i)
    ensures FoldAccepts(durable, i, Complete(i)) <==> Messages(OrderedHistory(durable)) == Messages(durable)
  {
    var h := OrderedHistory(durable);
    SortSame(durable, EntryLeq);
    forall k | 0 <= k < |h| ensures h[k].message.role != System { assert h[k] in multiset(durable); }
    AllVisible(Messages(h));
    assert Tail(durable, |durable|) == durable;
    forall e | e in durable ensures e.ref in Included(i, Complete(i)) { assert e in multiset(h); }
  }

  // -- by what goes in

  predicate WholeFits(i: Input) { Fits(i, OrderedHistory(i.history), OrderedMemory(i.memory)) }

  /** Something has to be compacted, whatever its provider answers. */
  predicate Compacts(i: Input) { i.policy == Compact && !WholeFits(i) && Selected(i).compacted != [] }

  /** The history that is kept where nothing is. */
  function Kept(i: Input): seq<Entry> { if WholeFits(i) then OrderedHistory(i.history) else Selected(i).retained }

  /** No source from outside goes by the reference of an entry. */
  predicate Apart(i: Input) {
    forall e <- i.history :: e.ref !in i.fixedRefs && forall m <- i.memory :: m.ref != e.ref
  }

  /** What is kept is the end of the durable history, word for word. */
  predicate ReadsAlike(durable: seq<Entry>, kept: seq<Entry>) {
    |kept| <= |durable|
    && var tail := Tail(durable, |kept|);
       Messages(kept) == Messages(tail) && forall e <- tail :: e in kept
  }

  lemma {:induction false} AttemptsRecord(i: Input, p: Provider, w: Work, attempt: nat)
    requires w.compacted != [] && Attempts(i, p, w, attempt).Ok?
    ensures Attempts(i, p, w, attempt).value.record.Some?
    decreases |i.history| + |i.memory| - attempt
  {
    var text := p(attempt, w.compacted, Target(i, w)).text;
    if !Fits(i, [Replacement(i, w, text)] + w.retained, w.memory) {
      AttemptsRecord(i, p, Shrink(w).value, attempt + 1);
    }
  }

  lemma ResultByInput(i: Input, p: Provider)
    requires Budget(i, p).Ok?
    ensures var b := Budget(i, p).value; (b.record.Some? <==> Compacts(i)) && (b.record.None? ==> b.history == Kept(i))
  {
    if Compacts(i) && i.compactor && i.pressed { AttemptsRecord(i, p, Selected(i), 0); }
  }

  /** The fold's checks, by the durable history, the outside sources and the policy alone. */
  lemma AcceptedByInput(i: Input, p: Provider)
    requires DurableOk(i.history, i) && Apart(i) && Budget(i, p).Ok?
    ensures FoldAccepts(i.history, i, Budget(i, p).value) <==> if Compacts(i) then InSequence(i.history) else ReadsAlike(i.history, Kept(i))
  {
    var b := Budget(i, p).value;
    BudgetKeeps(i, p);
    ResultByInput(i, p);
    if Compacts(i) {
      CompactionAcceptedIff(i.history, i, b);
      SourcesApart(i, b);
    } else {
      OrdinaryAcceptedIff(i.history, i, b);
      forall e <- Tail(i.history, |b.history|) ensures !NamedOutside(i, b, e) { assert e in i.history; }
    }
  }

  lemma SourcesApart(i: Input, b: Budgeted)
    requires ResultOk(i, b) && b.record.Some? && Apart(i)
    ensures NoneNamed(i, b, b.record.value.sources)
  {
    var r, h := b.record.value, OrderedHistory(i.history);
    SortSame(i.history, EntryLeq);
    forall e <- r.sources ensures !NamedOutside(i, b, e) {
      assert e in r.sources + b.history[1..];
      assert e in multiset(h);
    }
  }

  // ---------------------------------------------------------------- the session's tokens

  /** What an assembled turn is charged: its input, and the output it reported, or else all the
      output that was reserved for it. */
  datatype Spent = Spent(input: nat, reserved: nat, used: Option<nat>)
  {
    function Used(): nat { if used.Some? then used.value else 0 }
    function Cost(): nat { input + if used.Some? then used.value else reserved }
    function Most(): nat { input + if Used() > reserved then Used() else reserved }
    function Over(): nat { if Used() > reserved then Used() - reserved else 0 }
  }

  /** A turn is assembled, or reports output, at any time and as often as its provider likes. */
  datatype Spending = Assemble(input: nat, reserved: nat) | Report(turn: nat, tokens: nat)

  function Consumed(turns: seq<Spent>): nat {
    if turns == [] then 0 else Consumed(turns[..|turns| - 1]) + turns[|turns| - 1].Cost()
  }

  /** `remainingSessionTokens` */
  function Remaining(maximum: nat, turns: seq<Spent>): nat {
    if Consumed(turns) >= maximum then 0 else maximum - Consumed(turns)
  }

  /** A turn is assembled only against what all turns so far have left. */
  predicate Affords(maximum: nat, turns: seq<Spent>, input: nat, reserved: nat) {
    1 <= Remaining(maximum, turns) && input + reserved <= Remaining(maximum, turns)
  }

  function Reported(t: Spent, tokens: nat): Spent { t.(used := Some(t.Used() + tokens)) }

  function Spend(maximum: nat, turns: seq<Spent>, step: Spending): seq<Spent> {
    match step
    case Assemble(input, reserved) => if Affords(maximum, turns, input, reserved) then turns + [Spent(input, reserved, None)] else turns
    case Report(n, tokens) => if n < |turns| then turns[n := Reported(turns[n], tokens)] else turns
  }

  function SpendAll(maximum: nat, turns: seq<Spent>, steps: seq<Spending>): seq<Spent>
    decreases |steps|
  {
    if steps == [] then turns else Spend(maximum, SpendAll(maximum, turns, steps[..|steps| - 1]), steps[|steps| - 1])
  }

  /** What turns may yet come to cost with no report beyond what was reserved: it can be read off the
      log before another turn is assembled. */
  function Potential(turns: seq<Spent>): nat {
    if turns == [] then 0 else Potential(turns[..|turns| - 1]) + turns[|turns| - 1].Most()
  }

  /** Output reported beyond what was reserved. */
  function OverReported(turns: seq<Spent>): nat {
    if turns == [] then 0 else OverReported(turns[..|turns| - 1]) + turns[|turns| - 1].Over()
  }

  /** The step assembles nothing, or keeps what turns may come to cost within the maximum. */
  predicate Careful(maximum: nat, turns: seq<Spent>, step: Spending) {
    step.Assemble? && Affords(maximum, turns, step.input, step.reserved) ==> Potential(turns) + step.input + step.reserved <= maximum
  }

  /** A report that takes its turn no further than what was reserved. */
  predicate Within(turns: seq<Spent>, step: Spending) {
    step.Report? && step.turn < |turns| && turns[step.turn].Used() + step.tokens <= turns[step.turn].reserved
  }

  predicate AllWithin(maximum: nat, turns: seq<Spent>, steps: seq<Spending>) {
    forall n :: 0 <= n < |steps| ==> Within(SpendAll(maximum, turns, steps[..n]), steps[n])
  }

  lemma {:induction false} CostAtMost(turns: seq<Spent>)
    ensures Consumed(turns) <= Potential(turns)
  {
    if turns != [] { CostAtMost(turns[..|turns| - 1]); }
  }

  lemma {:induction false} PotentialOf(turns: seq<Spent>, n: nat, t: Spent)
    requires n < |turns|
    ensures Potential(turns[n := t]) == Potential(turns) - turns[n].Most() + t.Most()
    ensures OverReported(turns[n := t]) == OverReported(turns) - turns[n].Over() + t.Over()
    ensures Consumed(turns[n := t]) == Consumed(turns) - turns[n].Cost() + t.Cost()
    ensures OverReported(turns) >= turns[n].Over()
  {
    var m, z := |turns| - 1, turns[n := t];
    if n < m {
      assert z[..m] == turns[..m][n := t];
      PotentialOf(turns[..m], n, t);
    } else {
      assert z[..m] == turns[..m];
    }
  }

  lemma PotentialMore(turns: seq<Spent>, t: Spent)
    ensures Potential(turns + [t]) == Potential(turns) + t.Most() && OverReported(turns + [t]) == OverReported(turns) + t.Over()
  {
    assert (turns + [t])[..|turns|] == turns;
  }

  lemma StepStaysWithin(maximum: nat, turns: seq<Spent>, step: Spending)
    requires Potential(turns) <= maximum + OverReported(turns) && Careful(maximum, turns, step)
    ensures var z := Spend(maximum, turns, step); Potential(z) <= maximum + OverReported(z)
  {
    match step
    case Assemble(input, reserved) => PotentialMore(turns, Spent(input, reserved, None));
    case Report(n, tokens) => if n < |turns| { PotentialOf(turns, n, Reported(turns[n], tokens)); }
  }

  lemma {:induction false} PotentialStaysWithin(maximum: nat, steps: seq<Spending>)
    requires forall n :: 0 <= n < |steps| ==> Careful(maximum, SpendAll(maximum, [], steps[..n]), steps[n])
    ensures var turns := SpendAll(maximum, [], steps); Potential(turns) <= maximum + OverReported(turns)
    decreases |steps|
  {
    if steps != [] {
      var m := |steps| - 1;
      assert forall n :: 0 <= n < m ==> steps[..m][..n] == steps[..n];
      PotentialStaysWithin(maximum, steps[..m]);
      StepStaysWithin(maximum, SpendAll(maximum, [], steps[..m]), steps[m]);
    }
  }

  /** However turns overlap and report: when each assembly keeps what turns may come to cost within the
      session's tokens, no more is ever spent, but for what is reported beyond what was reserved. */
  lemma SessionStaysWithin(maximum: nat, steps: seq<Spending>)
    requires forall n :: 0 <= n < |steps| ==> Careful(maximum, SpendAll(maximum, [], steps[..n]), steps[n])
    ensures var turns := SpendAll(maximum, [], steps); Consumed(turns) <= maximum + OverReported(turns)
  {
    PotentialStaysWithin(maximum, steps);
    CostAtMost(SpendAll(maximum, [], steps));
  }

  /** Reports within what was reserved change nothing of what turns may come to cost. */
  lemma {:induction false} WithinKeepsPotential(maximum: nat, turns: seq<Spent>, reports: seq<Spending>)
    requires AllWithin(maximum, turns, reports)
    ensures Potential(SpendAll(maximum, turns, reports)) == Potential(turns)
    decreases |reports|
  {
    if reports != [] {
      var m := |reports| - 1;
      var before, step := SpendAll(maximum, turns, reports[..m]), reports[m];
      assert forall n :: 0 <= n < m ==> reports[..m][..n] == reports[..n];
      WithinKeepsPotential(maximum, turns, reports[..m]);
      assert Within(before, step);
      PotentialOf(before, step.turn, Reported(before[step.turn], step.tokens));
    }
  }

  /** The first `n` turns have come to the most they may cost; the others are as they were. */
  ghost predicate SpentUp(turns: seq<Spent>, z: seq<Spent>, n: nat) {
    && |z| == |turns| && n <= |turns|
    && forall k :: 0 <= k < |turns| ==> z[k].Most() == turns[k].Most() && if k < n then z[k].Cost() == z[k].Most() else z[k] == turns[k]
  }

  lemma SpendMore(maximum: nat, turns: seq<Spent>, reports: seq<Spending>, step: Spending)
    requires AllWithin(maximum, turns, reports) && Within(SpendAll(maximum, turns, reports), step)
    ensures AllWithin(maximum, turns, reports + [step])
    ensures SpendAll(maximum, turns, reports + [step]) == Spend(maximum, SpendAll(maximum, turns, reports), step)
  {
    var all, m := reports + [step], |reports|;
    assert all[..m] == reports;
    forall n | 0 <= n < |all| ensures Within(SpendAll(maximum, turns, all[..n]), all[n]) {
      if n < m { assert all[..n] == reports[..n]; }
    }
  }

  /** Every turn below its reservation reports the rest of it. */
  lemma {:induction false} SpendUp(maximum: nat, turns: seq<Spent>, n: nat) returns (reports: seq<Spending>)
    requires n <= |turns|
    ensures AllWithin(maximum, turns, reports) && SpentUp(turns, SpendAll(maximum, turns, reports), n)
  {
    if n == 0 {
      reports := [];
    } else {
      var m := n - 1;
      reports := SpendUp(maximum, turns, m);
      var t := turns[m];
      if t.used.Some? && t.used.value < t.reserved {
        var z, step := SpendAll(maximum, turns, reports), Report(m, t.reserved - t.used.value);
        SpendMore(maximum, turns, reports, step);
        SpentUpMore(maximum, turns, z, m);
        reports := reports + [step];
      }
    }
  }

  lemma SpentUpMore(maximum: nat, turns: seq<Spent>, z: seq<Spent>, m: nat)
    requires m < |turns| && SpentUp(turns, z, m) && turns[m].used.Some? && turns[m].used.value < turns[m].reserved
    ensures SpentUp(turns, Spend(maximum, z, Report(m, turns[m].reserved - turns[m].used.value)), m + 1)
  {
  }

  lemma {:induction false} AllSpentUp(z: seq<Spent>)
    requires forall k :: 0 <= k < |z| ==> z[k].Cost() == z[k].Most()
    ensures Consumed(z) == Potential(z)
  {
    if z != [] { AllSpentUp(z[..|z| - 1]); }
  }

  /** Some reports, none of them beyond what was reserved, take the session past its tokens. */
  ghost predicate CanOverspend(maximum: nat, turns: seq<Spent>) {
    exists reports :: AllWithin(maximum, turns, reports) && Consumed(SpendAll(maximum, turns, reports)) > maximum
  }

  /** From any state: exactly when what turns may come to cost is more than the maximum. */
  lemma OverspendsIff(maximum: nat, turns: seq<Spent>)
    ensures CanOverspend(maximum, turns) <==> Potential(turns) > maximum
  {
    if reports :| AllWithin(maximum, turns, reports) && Consumed(SpendAll(maximum, turns, reports)) > maximum {
      WithinKeepsPotential(maximum, turns, reports);
      CostAtMost(SpendAll(maximum, turns, reports));
    }
    if Potential(turns) > maximum {
      var reports := SpendUp(maximum, turns, |turns|);
      WithinKeepsPotential(maximum, turns, reports);
      AllSpentUp(SpendAll(maximum, turns, reports));
    }
  }

  /** So a turn that is assembled opens the door to it exactly when what turns may come to cost, with
      this one, is more than the maximum: which can be read before it is assembled. */
  lemma AssemblyOpensIff(maximum: nat, turns: seq<Spent>, input: nat, reserved: nat)
    requires Affords(maximum, turns, input, reserved)
    ensures CanOverspend(maximum, Spend(maximum, turns, Assemble(input, reserved))) <==> Potential(turns) + input + reserved > maximum
  {
    PotentialMore(turns, Spent(input, reserved, None));
    OverspendsIff(maximum, Spend(maximum, turns, Assemble(input, reserved)));
  }

  /** A turn that reports twice within its reservation, with another turn assembled in between: the
      session spends almost twice its tokens. */
  lemma SessionOverspends(maximum: nat)
    requires maximum > 2
    ensures var steps := [Assemble(1, maximum - 1), Report(0, 0), Assemble(1, maximum - 2), Report(0, maximum - 1)];
      Consumed(SpendAll(maximum, [], steps)) == 2 * maximum - 1
  {
    var first, second := Assemble(1, maximum - 1), Assemble(1, maximum - 2);
    var steps := [first, Report(0, 0), second, Report(0, maximum - 1)];
    assert steps[..3] == [first, Report(0, 0), second] && steps[..3][..2] == [first, Report(0, 0)];
    assert steps[..3][..2][..1] == [first] && steps[..3][..2][..1][..0] == [];
    var one := Spent(1, maximum - 1, Some(0));
    assert SpendAll(maximum, [], [first]) == [Spent(1, maximum - 1, None)];
    assert SpendAll(maximum, [], [first, Report(0, 0)]) == [one];
    assert [one][..0] == [] && Consumed([one]) == 1;
    assert SpendAll(maximum, [], steps[..3]) == [one, Spent(1, maximum - 2, None)];
    var d := [Spent(1, maximum - 1, Some(maximum - 1)), Spent(1, maximum - 2, None)];
    assert SpendAll(maximum, [], steps) == d;
    assert d[..1] == [d[0]] && d[..1][..0] == [] && Consumed(d[..1]) == maximum;
  }
}
