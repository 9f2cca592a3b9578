/** Stored logs whose open model step is filled up to the reserve. */
module SessionFilled {
  import opened Outcomes
  import opened SessionFold
  import opened SessionStream
  import opened SessionRows
  import opened L = SessionTraces

  function Name(n: nat): (id: Id)
    ensures |id| == n + 1 && id[0] == 'd'
  {
    seq(n + 1, _ => 'd')
  }

  /** The n-th event of the step's stream. */
  function InStream(n: nat, m: ModelEvent): Event { Event(Name(n), "s", n + 5, 0, Streamed("t", Some("a"), "p", m)) }

  /** Some text, in so many bytes. */
  function Delta(n: nat, size: nat): ModelEvent { ModelEvent("p", "q", n, Content("x"), seq(size, _ => 'x')) }

  /** The bytes of a stream of events of these sizes. */
  function Total(sizes: seq<nat>): nat {
    if sizes == [] then 2 else Total(sizes[..|sizes| - 1]) + (if |sizes| == 1 then 0 else 1) + sizes[|sizes| - 1]
  }

  /** One step is open, with `n` events of `bytes` bytes, and later names are new. */
  ghost predicate Filling(s: State, n: nat, bytes: nat) {
    && s.spec == Some(Sp) && s.session == Some("s") && s.ending.None? && s.current == n + 4 && "t" in s.turns
    && (var t := s.turns["t"];
        && t.request.Some? && |t.steps| == 1 && t.steps[0].id == "a" && t.steps[0].request == Ask("q")
        && |t.steps[0].events| == n && !HasEnd(t.steps[0].events) && t.steps[0].bytes == bytes)
    && forall j :: n <= j ==> Name(j) !in s.seen
  }

  /** The ledger takes one more event of the stream exactly when it keeps the step in its bounds. */
  lemma InStreamTakenIff(k: Env, s: State, n: nat, bytes: nat, m: ModelEvent)
    requires Filling(s, n, bytes) && m.provider == "p" && m.request == "q" && m.sequence == n
    ensures Takes(k, s, InStream(n, m)) <==> InBounds(s.turns["t"].steps[0], m)
    ensures Takes(k, s, InStream(n, m)) && !Ends(m) ==>
      Filling(Apply(k, s, InStream(n, m)).value, n + 1, bytes + (if n == 0 then 0 else 1) + |m.text|)
  {
    var e, t := InStream(n, m), s.turns["t"];
    assert StepIndex(t.steps, "a") == 0;
    if InBounds(t.steps[0], m) && !Ends(m) {
      var z := Apply(k, s, e).value;
      NoEndMore(t.steps[0].events, m);
      assert z.seen == s.seen + {Name(n)};
      forall j | n + 1 <= j ensures Name(j) !in z.seen { assert |Name(j)| != |Name(n)|; }
    }
  }

  lemma NoEndMore(events: seq<ModelEvent>, m: ModelEvent)
    requires !HasEnd(events) && !Ends(m)
    ensures !HasEnd(events + [m])
  {
    forall i | 0 <= i < |events + [m]| ensures !Ends((events + [m])[i]) {
      if i < |events| { assert !Ends(events[i]); }
    }
  }

  /** A stored log with one turn and its first step open. */
  lemma Opened(k: Env) returns (log: seq<Event>)
    ensures Stored(k, log) && Filling(Replay(k, log).value, 0, 2)
  {
    var l := TwinsLog(k);
    log := [Creation] + [l[1], l[2], l[3]];
    OneReached(k);
    ReachesIs(k, log, OneOpen(), SEAL);
    assert log[0].id == "1" && log[1].id == "2" && log[2].id == "3" && log[3].id == "4" && |log| == 4;
  }

  lemma {:induction false} TotalGrows(sizes: seq<nat>)
    requires sizes != []
    ensures Total(sizes[..|sizes| - 1]) <= Total(sizes)
  {
  }

  /** Any stream within the bounds of the fold is a stored log's. */
  lemma {:induction false} Filled(k: Env, sizes: seq<nat>) returns (log: seq<Event>)
    requires |sizes| < MAX_MODEL_EVENTS_PER_STEP && Total(sizes) <= MAX_MODEL_STREAM_BYTES_PER_STEP - MODEL_TERMINAL_RESERVE_BYTES
    ensures Stored(k, log) && Filling(Replay(k, log).value, |sizes|, Total(sizes))
    decreases |sizes|
  {
    if sizes == [] {
      log := Opened(k);
    } else {
      var n := |sizes| - 1;
      TotalGrows(sizes);
      log := Filled(k, sizes[..n]);
      var s, m := Replay(k, log).value, Delta(n, sizes[n]);
      InStreamTakenIff(k, s, n, Total(sizes[..n]), m);
      StoredPush(k, log, InStream(n, m));
      ReplayPush(k, log, InStream(n, m));
      log := log + [InStream(n, m)];
    }
  }

  lemma {:induction false} TotalOf(n: nat, size: nat, last: nat)
    ensures Total(seq(n, _ => size)) == 2 + n * size + (if n == 0 then 0 else n - 1)
    ensures n > 0 ==> Total(seq(n, _ => size) + [last]) == 2 + n * size + n + last
    decreases n
  {
    var sizes: seq<nat> := seq(n, _ => size);
    assert (sizes + [last])[..n] == sizes;
    if n > 0 {
      assert sizes[..n - 1] == seq(n - 1, _ => size);
      TotalOf(n - 1, size, last);
      assert (n - 1) * size + size == n * size;
    }
  }

  /** A stored log whose open step is filled up to the reserve: the ledger takes a terminal event there
      exactly when it has at most 8191 bytes. */
  lemma LongEndRefused(k: Env) returns (log: seq<Event>, n: nat)
    ensures Stored(k, log) && Filling(Replay(k, log).value, n, MAX_MODEL_STREAM_BYTES_PER_STEP - MODEL_TERMINAL_RESERVE_BYTES)
    ensures forall m: ModelEvent :: Ends(m) && m.provider == "p" && m.request == "q" && m.sequence == n ==>
      (Stored(k, log + [InStream(n, m)]) <==> |m.text| <= 8191)
  {
    var sizes: seq<nat> := seq(257, _ => 65000) + [63765];
    TotalOf(257, 65000, 63765);
    n := 258;
    log := Filled(k, sizes);
    var s, bytes := Replay(k, log).value, Total(sizes);
    EveryStateOk(k, log);
    assert TurnOk("t", s.turns["t"]);
    forall m: ModelEvent | Ends(m) && m.provider == "p" && m.request == "q" && m.sequence == n
      ensures Stored(k, log + [InStream(n, m)]) <==> |m.text| <= 8191
    {
      InStreamTakenIff(k, s, n, bytes, m);
      StoredPush(k, log, InStream(n, m));
      ReserveIsTight(s.turns["t"].steps[0], m);
    }
  }
}
