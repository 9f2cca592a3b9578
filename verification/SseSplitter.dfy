/** `parseSse`: server-sent events are cut out of a text that arrives in arbitrary chunks.  The
    format is a subset of section 9.2.6 of the WHATWG HTML Living Standard: only `data` lines
    count, CR alone does not end a line, and all leading white space of a value is dropped. */
module SseSplitter {

  const MAX_SSE_BUFFER_BYTES := 1_048_576

  /** Why the parser stopped. */
  datatype End = Done | ProtectedValue | InvalidJson | TooLong | IncompleteFrame | EndedEarly

  /** What a consumer sees: the data of each frame yielded, then the end. */
  datatype Outcome = Outcome(frames: seq<string>, end: End)

  /** The tests the parser applies to a frame, and the UTF-8 length of a text. */
  datatype Checks = Checks(isJson: string -> bool, isProtected: string -> bool, bytes: string -> nat)

  // ---------------------------------------------------------------- lines and frames

  /** `replaceAll('\r\n', '\n')` */
  function Norm(t: string): string {
    if t == [] then []
    else if |t| > 1 && t[0] == '\r' && t[1] == '\n' then ['\n'] + Norm(t[2..])
    else [t[0]] + Norm(t[1..])
  }

  /** `indexOf('\n\n')` */
  function Boundary(t: string): (i: int)
    ensures -1 <= i && (i >= 0 ==> i + 2 <= |t|)
  {
    if |t| < 2 then -1
    else if t[0] == '\n' && t[1] == '\n' then 0
    else
      var rest := Boundary(t[1..]);
      if rest < 0 then -1 else rest + 1
  }

  predicate Space(c: char) {
    '\t' <= c <= '\r' || c in {' ', '\U{00A0}', '\U{1680}', '\U{2028}', '\U{2029}', '\U{202F}', '\U{205F}', '\U{3000}', '\U{FEFF}'}
    || '\U{2000}' <= c <= '\U{200A}'
  }

  function TrimStart(t: string): string {
    if t != [] && Space(t[0]) then TrimStart(t[1..]) else t
  }

  predicate Blank(t: string) {
    forall c <- t :: Space(c)
  }

  function Split(t: string): (lines: seq<string>)
    ensures |lines| > 0
  {
    if t == [] then [[]]
    else
      var rest := Split(t[1..]);
      if t[0] == '\n' then [[]] + rest else [[t[0]] + rest[0]] + rest[1..]
  }

  /** The value of each `data:` line, in order. */
  function DataLines(lines: seq<string>): seq<string> {
    if lines == [] then []
    else if "data:" <= lines[0] then [TrimStart(lines[0][5..])] + DataLines(lines[1..])
    else DataLines(lines[1..])
  }

  function Join(lines: seq<string>): string {
    if lines == [] then [] else if |lines| == 1 then lines[0] else lines[0] + ['\n'] + Join(lines[1..])
  }

  function Data(block: string): string {
    Join(DataLines(Split(block)))
  }

  datatype Verdict = Skip | Yield | Stop(end: End)

  function Judge(k: Checks, data: string): Verdict {
    if data == [] then Skip
    else if data == "[DONE]" then Stop(Done)
    else if k.isProtected(data) then Stop(ProtectedValue)
    else if k.isJson(data) then Yield
    else Stop(InvalidJson)
  }

  // ---------------------------------------------------------------- the parser

  /** Either the rest of the buffer, or the end. */
  datatype Drained = Open(frames: seq<string>, buffer: string) | Closed(frames: seq<string>, end: End)

  function Before(frames: seq<string>, d: Drained): Drained {
    if d.Open? then Open(frames + d.frames, d.buffer) else Closed(frames + d.frames, d.end)
  }

  /** Take every complete frame off the buffer. */
  function Drain(k: Checks, buffer: string): (d: Drained)
    ensures d.Open? ==> Boundary(d.buffer) < 0
    decreases |buffer|
  {
    var i := Boundary(buffer);
    if i < 0 then Open([], buffer)
    else
      Take(k, Data(buffer[..i]), Drain(k, buffer[i + 2..]))
  }

  /** One frame's data, and what the rest of the buffer gives if parsing goes on. */
  function Take(k: Checks, data: string, rest: Drained): (d: Drained)
    ensures d.Open? ==> rest.Open? && d.buffer == rest.buffer
  {
    match Judge(k, data)
    case Skip => rest
    case Yield => Before([data], rest)
    case Stop(end) => Closed([], end)
  }

  function Finish(d: Drained, tail: string): Outcome {
    match d
    case Closed(frames, end) => Outcome(frames, end)
    case Open(frames, buffer) => Outcome(frames, if Blank(buffer + tail) then EndedEarly else IncompleteFrame)
  }

  /** The parser's loop from a given buffer; `tail` is what the decoder still holds at the end. */
  function Run(k: Checks, buffer: string, chunks: seq<string>, tail: string): Outcome
    decreases |chunks|
  {
    if chunks == [] then Finish(Open([], buffer), tail)
    else if k.bytes(buffer + chunks[0]) > MAX_SSE_BUFFER_BYTES then Outcome([], TooLong)
    else
      match Drain(k, Norm(buffer + chunks[0]))
      case Closed(frames, end) => Outcome(frames, end)
      case Open(frames, rest) =>
        After(frames, Run(k, rest, chunks[1..], tail))
  }

  /** The inner loop: yields the frames of the buffer after those already yielded. */
  method DrainBuffer(k: Checks, text: string, yielded: seq<string>) returns (d: Drained)
    ensures d == Before(yielded, Drain(k, text))
  {
    var buffer, frames := text, yielded;
    var boundary := Boundary(buffer);
    while boundary != -1
      invariant boundary == Boundary(buffer)
      invariant Before(frames, Drain(k, buffer)) == Before(yielded, Drain(k, text))
      decreases |buffer|
    {
      var data := Data(buffer[..boundary]);
      ghost var cut := Drain(k, buffer[boundary + 2..]);
      match Judge(k, data) {
        case Skip =>
        case Yield =>
          BeforeTwice(frames, [data], cut);
          frames := frames + [data];
        case Stop(end) => return Closed(frames, end);
      }
      buffer := buffer[boundary + 2..];
      boundary := Boundary(buffer);
    }
    d := Open(frames, buffer);
  }

  lemma BeforeTwice(a: seq<string>, b: seq<string>, d: Drained)
    ensures Before(a, Before(b, d)) == Before(a + b, d)
  {
    assert a + (b + d.frames) == a + b + d.frames;
  }

  method ParseSse(k: Checks, chunks: seq<string>, tail: string) returns (frames: seq<string>, end: End)
    ensures Outcome(frames, end) == Run(k, [], chunks, tail)
  {
    var buffer := [];
    frames := [];
    for n := 0 to |chunks|
      invariant After(frames, Run(k, buffer, chunks[n..], tail)) == Run(k, [], chunks, tail)
    {
      assert chunks[n..][0] == chunks[n] && chunks[n..][1..] == chunks[n + 1..];
      buffer := buffer + chunks[n];
      if k.bytes(buffer) > MAX_SSE_BUFFER_BYTES { return frames, TooLong; }
      buffer := Norm(buffer);
      var d := DrainBuffer(k, buffer, frames);
      if d.Closed? { return d.frames, d.end; }
      AfterTwice(frames, Drain(k, buffer).frames, Run(k, d.buffer, chunks[n + 1..], tail));
      frames, buffer := d.frames, d.buffer;
    }
    end := if Blank(buffer + tail) then EndedEarly else IncompleteFrame;
  }

  function After(frames: seq<string>, later: Outcome): Outcome {
    Outcome(frames + later.frames, later.end)
  }

  lemma AfterTwice(a: seq<string>, b: seq<string>, o: Outcome)
    ensures After(a, After(b, o)) == After(a + b, o)
  {
    assert a + (b + o.frames) == a + b + o.frames;
  }

  // ---------------------------------------------------------------- chunking does not show

  function Concat(chunks: seq<string>): string {
    if chunks == [] then [] else chunks[0] + Concat(chunks[1..])
  }

  predicate StartsCrLf(t: string) {
    |t| >= 2 && t[0] == '\r' && t[1] == '\n'
  }

  predicate StartsCrCrLf(t: string) {
    t != [] && t[0] == '\r' && StartsCrLf(t[1..])
  }

  predicate NoCrLf(t: string) {
    t == [] || (!StartsCrLf(t) && NoCrLf(t[1..]))
  }

  predicate NoCrCrLf(t: string) {
    t == [] || (!StartsCrCrLf(t) && NoCrCrLf(t[1..]))
  }

  /** Parsing the whole text at once, with no limit on the buffer. */
  function Whole(k: Checks, text: string, tail: string): Outcome {
    Finish(Drain(k, Norm(text)), tail)
  }

  lemma {:induction false} NormFixed(t: string)
    requires NoCrLf(t)
    ensures Norm(t) == t
  {
    if t != [] { NormFixed(t[1..]); }
  }

  /** Normalising a first part early changes nothing, and cannot create what it removes. */
  lemma {:induction false} NormAgain(t: string, r: string)
    requires NoCrCrLf(t + r)
    ensures Norm(Norm(t) + r) == Norm(t + r)
    ensures NoCrLf(Norm(t)) && NoCrCrLf(Norm(t) + r)
    ensures t != [] ==> Norm(t) != [] && Norm(t)[0] == if StartsCrLf(t) then '\n' else t[0]
    decreases |t|
  {
    if t == [] {
      assert t + r == r;
    } else if StartsCrLf(t) {
      FoldedParts(t, r);
      NormAgain(t[2..], r);
      NormFolded(Norm(t[2..]), r);
    } else {
      KeptParts(t, r);
      NormAgain(t[1..], r);
      NormKept(t[1..], r, t[0]);
    }
  }

  lemma FoldedParts(t: string, r: string)
    requires StartsCrLf(t)
    ensures NoCrCrLf(t + r) ==> NoCrCrLf(t[2..] + r)
    ensures Norm(t) == ['\n'] + Norm(t[2..]) && Norm(t + r) == ['\n'] + Norm(t[2..] + r)
  {
    assert (t + r)[2..] == t[2..] + r;
    assert (t + r)[1..][1..] == (t + r)[2..];
    if NoCrCrLf(t + r) {
      assert NoCrCrLf((t + r)[1..]);
      assert (t + r)[1..] != [];
    }
  }

  lemma KeptParts(t: string, r: string)
    requires t != [] && !StartsCrLf(t)
    ensures t + r == [t[0]] + (t[1..] + r) && [t[0]] + t[1..] == t
    ensures NoCrCrLf(t + r) ==> NoCrCrLf(t[1..] + r) && !StartsCrCrLf([t[0]] + (t[1..] + r))
    ensures Norm(t) == [t[0]] + Norm(t[1..])
  {
    assert (t + r)[1..] == t[1..] + r;
  }

  lemma NormFolded(v: string, r: string)
    requires NoCrLf(v) && NoCrCrLf(v + r)
    ensures Norm((['\n'] + v) + r) == ['\n'] + Norm(v + r)
    ensures NoCrLf(['\n'] + v) && NoCrCrLf((['\n'] + v) + r)
  {
    assert (['\n'] + v) + r == ['\n'] + (v + r);
    assert (['\n'] + (v + r))[1..] == v + r && (['\n'] + v)[1..] == v;
  }

  /** A character kept in front of a part keeps its place when the part is normalised. */
  lemma NormKept(u: string, r: string, c: char)
    requires u != [] ==> Norm(u) != [] && Norm(u)[0] == if StartsCrLf(u) then '\n' else u[0]
    requires !StartsCrLf([c] + u) && !StartsCrCrLf([c] + (u + r)) && NoCrLf(Norm(u)) && NoCrCrLf(Norm(u) + r)
    requires Norm(Norm(u) + r) == Norm(u + r)
    ensures Norm(([c] + Norm(u)) + r) == Norm([c] + (u + r))
    ensures NoCrLf([c] + Norm(u)) && NoCrCrLf(([c] + Norm(u)) + r)
  {
    var v := Norm(u);
    assert ([c] + v) + r == [c] + (v + r);
    assert ([c] + v)[1..] == v && ([c] + (v + r))[1..] == v + r && ([c] + (u + r))[1..] == u + r;
    if u != [] {
      KeptFirst(u, r, c);
      NormStep(v + r, c);
      NormStep(u + r, c);
    }
  }

  lemma KeptFirst(u: string, r: string, c: char)
    requires u != [] && Norm(u) != [] && Norm(u)[0] == if StartsCrLf(u) then '\n' else u[0]
    requires !StartsCrLf([c] + u) && !StartsCrCrLf([c] + (u + r)) && NoCrLf(Norm(u))
    ensures c == '\r' ==> u[0] != '\n' && Norm(u)[0] != '\n' && !StartsCrLf(Norm(u) + r)
  {
    var v := Norm(u);
    assert ([c] + u)[0] == c && ([c] + u)[1] == u[0];
    assert ([c] + (u + r))[1..] == u + r;
    if c == '\r' && StartsCrLf(v + r) {
      if |v| > 1 {
        assert StartsCrLf(v);
      } else {
        NormOne(u);
      }
    }
  }

  /** What becomes a lone CR was a lone CR. */
  lemma NormOne(u: string)
    requires |Norm(u)| == 1 && Norm(u)[0] == '\r'
    ensures u == ['\r']
  {
    if u != [] && !StartsCrLf(u) {
      assert Norm(u) == [u[0]] + Norm(u[1..]);
      assert Norm(u[1..]) == [];
      assert u[1..] == [];
    }
  }

  lemma NormStep(t: string, c: char)
    ensures c != '\r' || t == [] || t[0] != '\n' ==> Norm([c] + t) == [c] + Norm(t)
    ensures c == '\r' && t != [] && t[0] == '\n' ==> Norm([c] + t) == Norm(t)
  {
    assert ([c] + t)[1..] == t;
    if t != [] && t[0] == '\n' {
      assert ([c] + t)[2..] == t[1..];
    }
  }

  // -- one buffer, drained in two parts

  /** A normalised prefix that ends in a line feed stays as it is. */
  lemma {:induction false} NormPrefix(p: string, r: string)
    requires NoCrLf(p) && p != [] && p[|p| - 1] == '\n'
    ensures Norm(p + r) == p + Norm(r)
  {
    var q := p[1..];
    assert p == [p[0]] + q;
    assert p + r == [p[0]] + (q + r);
    if q == [] {
      assert q + r == r;
    } else {
      NormPrefix(q, r);
      assert (q + r)[0] == q[0];
    }
    NormStep(q + r, p[0]);
    assert [p[0]] + (q + Norm(r)) == p + Norm(r);
  }

  lemma {:induction false} BoundaryOfPrefix(t: string, r: string)
    requires Boundary(t) >= 0
    ensures Boundary(t[..Boundary(t) + 2] + r) == Boundary(t)
    ensures t[Boundary(t) + 1] == '\n'
  {
    var i := Boundary(t);
    var s := t[..i + 2] + r;
    if i > 0 {
      BoundaryOfPrefix(t[1..], r);
      assert s[1..] == t[1..][..i + 1] + r;
    }
  }

  lemma {:induction false} NoCrLfParts(p: string, m: string)
    requires NoCrLf(p + m)
    ensures NoCrLf(p) && NoCrLf(m)
  {
    if p == [] {
      assert p + m == m;
    } else {
      assert (p + m)[1..] == p[1..] + m;
      NoCrLfParts(p[1..], m);
      assert StartsCrLf(p) ==> StartsCrLf(p + m);
    }
  }

  lemma {:induction false} NoCrCrLfRest(p: string, m: string)
    requires NoCrCrLf(p + m)
    ensures NoCrCrLf(m)
  {
    if p == [] {
      assert p + m == m;
    } else {
      assert (p + m)[1..] == p[1..] + m;
      NoCrCrLfRest(p[1..], m);
    }
  }

  /** A frame that is complete in a buffer is still the first one with more text after it. */
  lemma FrameStays(n: string, r: string)
    requires NoCrLf(n) && NoCrCrLf(n + r) && Boundary(n) >= 0
    ensures var i, w := Boundary(n), Norm(n + r); var m := n[i + 2..];
      NoCrLf(m) && NoCrCrLf(m + r) && Boundary(w) == i && w[..i] == n[..i] && w[i + 2..] == Norm(m + r)
  {
    var i := Boundary(n);
    var p, m := n[..i + 2], n[i + 2..];
    assert n == p + m && n + r == p + (m + r);
    NoCrLfParts(p, m);
    NoCrCrLfRest(p, m + r);
    BoundaryOfPrefix(n, []);
    NormPrefix(p, m + r);
    BoundaryOfPrefix(n, Norm(m + r));
  }

  /** What a buffer gives, then what more text gives. */
  function Then(d: Drained, more: Drained): Drained {
    if d.Open? then Before(d.frames, more) else d
  }

  /** More text only adds to what a buffer yields. */
  lemma {:induction false} DrainMore(k: Checks, n: string, r: string) returns (more: Drained)
    requires NoCrLf(n) && NoCrCrLf(n + r)
    ensures Drain(k, Norm(n + r)) == Then(Drain(k, n), more)
    ensures Drain(k, n).Open? ==>
      var b := Drain(k, n).buffer; NoCrLf(b) && NoCrCrLf(b + r) && more == Drain(k, Norm(b + r))
    ensures Drain(k, n).Closed? ==> Drain(k, n).end != TooLong
    decreases |n|
  {
    if Boundary(n) < 0 {
      more := Drain(k, Norm(n + r));
      BeforeNone(more);
    } else {
      FrameStays(n, r);
      var m := n[Boundary(n) + 2..];
      more := DrainMore(k, m, r);
      DrainBoth(k, n, Norm(n + r), more);
    }
  }

  lemma DrainBoth(k: Checks, n: string, w: string, more: Drained)
    requires Boundary(w) == Boundary(n) >= 0 && w[..Boundary(n)] == n[..Boundary(n)]
    requires Drain(k, w[Boundary(n) + 2..]) == Then(Drain(k, n[Boundary(n) + 2..]), more)
    ensures Drain(k, w) == Then(Drain(k, n), more)
    ensures Drain(k, n).Open? ==> Drain(k, n[Boundary(n) + 2..]).Open? && Drain(k, n).buffer == Drain(k, n[Boundary(n) + 2..]).buffer
    ensures Drain(k, n).Closed? && Drain(k, n).end == TooLong ==>
      var d := Drain(k, n[Boundary(n) + 2..]); d.Closed? && d.end == TooLong
  {
    var i := Boundary(n);
    var data, d := Data(n[..i]), Drain(k, n[i + 2..]);
    DrainTakes(k, n, i, data, d);
    DrainTakes(k, w, i, data, Then(d, more));
    TakeMore(k, data, d, more);
    TakeEnds(k, data, d);
  }

  lemma DrainTakes(k: Checks, t: string, i: nat, data: string, rest: Drained)
    requires Boundary(t) == i && data == Data(t[..i]) && rest == Drain(k, t[i + 2..])
    ensures Drain(k, t) == Take(k, data, rest)
  {
  }

  lemma TakeEnds(k: Checks, data: string, d: Drained)
    ensures var t := Take(k, data, d);
      && (t.Open? ==> d.Open? && t.buffer == d.buffer)
      && (t.Closed? && t.end == TooLong ==> d.Closed? && d.end == TooLong)
  {
  }

  lemma TakeMore(k: Checks, data: string, d: Drained, more: Drained)
    ensures Take(k, data, Then(d, more)) == Then(Take(k, data, d), more)
  {
    if d.Open? { BeforeTwice([data], d.frames, more); }
  }

  lemma BeforeNone(d: Drained)
    ensures Before([], d) == d
  {
    assert [] + d.frames == d.frames;
  }

  // -- main results

  /** From any buffer between two chunks, the rest of the text is read as if it came at once. */
  lemma {:induction false} RunIsWhole(k: Checks, b: string, chunks: seq<string>, tail: string)
    requires NoCrLf(b) && Boundary(b) < 0 && NoCrCrLf(b + Concat(chunks))
    ensures var o, w := Run(k, b, chunks, tail), Whole(k, b + Concat(chunks), tail);
      if o.end == TooLong then o.frames <= w.frames else o == w
    decreases |chunks|
  {
    if chunks == [] {
      NormFixed(b);
      assert b + [] == b;
    } else if k.bytes(b + chunks[0]) <= MAX_SSE_BUFFER_BYTES {
      var more := Concat(chunks[1..]);
      var n := Norm(b + chunks[0]);
      assert b + Concat(chunks) == (b + chunks[0]) + more;
      NormAgain(b + chunks[0], more);
      var later := DrainMore(k, n, more);
      var d := Drain(k, n);
      if d.Open? {
        RunIsWhole(k, d.buffer, chunks[1..], tail);
      }
      RunStep(k, b, chunks, tail, later);
    }
  }

  lemma RunStep(k: Checks, b: string, chunks: seq<string>, tail: string, later: Drained)
    requires chunks != [] && k.bytes(b + chunks[0]) <= MAX_SSE_BUFFER_BYTES
    ensures var d := Drain(k, Norm(b + chunks[0]));
      Run(k, b, chunks, tail) ==
        if d.Open? then After(d.frames, Run(k, d.buffer, chunks[1..], tail)) else Outcome(d.frames, d.end)
    ensures var d := Drain(k, Norm(b + chunks[0]));
      Finish(Then(d, later), tail) ==
        if d.Open? then After(d.frames, Finish(later, tail)) else Outcome(d.frames, d.end)
  {
  }

  /** However the text is cut, the consumer sees the same frames and the same end, except that
      the buffer limit may stop it early, after some of those frames. */
  lemma ChunkingDoesNotShow(k: Checks, chunks: seq<string>, tail: string)
    requires NoCrCrLf(Concat(chunks))
    ensures var o, w := Run(k, [], chunks, tail), Whole(k, Concat(chunks), tail);
      if o.end == TooLong then o.frames <= w.frames else o == w
  {
    assert [] + Concat(chunks) == Concat(chunks);
    RunIsWhole(k, [], chunks, tail);
  }

  /** Two cuts of one text that stay within the limit look alike. */
  lemma TwoCutsAgree(k: Checks, one: seq<string>, other: seq<string>, tail: string)
    requires Concat(one) == Concat(other) && NoCrCrLf(Concat(one))
    requires Run(k, [], one, tail).end != TooLong && Run(k, [], other, tail).end != TooLong
    ensures Run(k, [], one, tail) == Run(k, [], other, tail)
  {
    ChunkingDoesNotShow(k, one, tail);
    ChunkingDoesNotShow(k, other, tail);
  }

  // -- texts that fit the buffer

  /** The length of a text in bytes is that of its parts. */
  ghost predicate Additive(k: Checks) {
    forall a, b :: k.bytes(a + b) == k.bytes(a) + k.bytes(b)
  }

  lemma {:induction false} NormFewerBytes(k: Checks, t: string)
    requires Additive(k)
    ensures k.bytes(Norm(t)) <= k.bytes(t)
    decreases |t|
  {
    if t != [] {
      if StartsCrLf(t) {
        NormFewerBytes(k, t[2..]);
        assert t == (['\r'] + ['\n']) + t[2..];
        assert k.bytes(['\n'] + Norm(t[2..])) == k.bytes(['\n']) + k.bytes(Norm(t[2..]));
      } else {
        NormFewerBytes(k, t[1..]);
        assert t == [t[0]] + t[1..];
      }
    }
  }

  lemma {:induction false} DrainFewerBytes(k: Checks, t: string)
    requires Additive(k)
    ensures var d := Drain(k, t); if d.Open? then k.bytes(d.buffer) <= k.bytes(t) else d.end != TooLong
    decreases |t|
  {
    if Boundary(t) >= 0 {
      var i := Boundary(t);
      assert t == t[..i + 2] + t[i + 2..];
      DrainFewerBytes(k, t[i + 2..]);
      DrainTakes(k, t, i, Data(t[..i]), Drain(k, t[i + 2..]));
      TakeEnds(k, Data(t[..i]), Drain(k, t[i + 2..]));
    }
  }

  /** No cut of a text that fits the buffer as a whole meets the limit. */
  lemma {:induction false} SmallTextsFit(k: Checks, b: string, chunks: seq<string>, tail: string)
    requires Additive(k) && k.bytes(b + Concat(chunks)) <= MAX_SSE_BUFFER_BYTES
    ensures Run(k, b, chunks, tail).end != TooLong
    decreases |chunks|
  {
    if chunks != [] {
      var now, more := b + chunks[0], Concat(chunks[1..]);
      assert b + Concat(chunks) == now + more;
      NormFewerBytes(k, now);
      DrainFewerBytes(k, Norm(now));
      var d := Drain(k, Norm(now));
      if d.Open? {
        assert k.bytes(d.buffer + more) == k.bytes(d.buffer) + k.bytes(more);
        SmallTextsFit(k, d.buffer, chunks[1..], tail);
      }
    }
  }

  /** Two cuts of a text without CR CR LF that fits the buffer look alike. */
  lemma SmallTextsAgree(k: Checks, one: seq<string>, other: seq<string>, tail: string)
    requires Additive(k) && Concat(one) == Concat(other) && NoCrCrLf(Concat(one)) && k.bytes(Concat(one)) <= MAX_SSE_BUFFER_BYTES
    ensures Run(k, [], one, tail) == Run(k, [], other, tail)
  {
    assert [] + Concat(one) == Concat(one) && [] + Concat(other) == Concat(other);
    SmallTextsFit(k, [], one, tail);
    SmallTextsFit(k, [], other, tail);
    TwoCutsAgree(k, one, other, tail);
  }

  lemma {:induction false} NormShorter(t: string)
    ensures |Norm(t)| <= |t|
    ensures !NoCrLf(t) ==> |Norm(t)| < |t|
  {
    if t != [] {
      NormShorter(t[if StartsCrLf(t) then 2 else 1..]);
    }
  }

  /** A CR kept before a CR LF meets the line feed that replaces it. */
  lemma {:induction false} NormLeavesCrLf(t: string)
    requires !NoCrCrLf(t)
    ensures !NoCrLf(Norm(t))
    decreases |t|
  {
    if StartsCrCrLf(t) {
      assert Norm(t) == ['\r'] + Norm(t[1..]);
      assert StartsCrLf(Norm(t));
    } else if StartsCrLf(t) {
      assert t[1..][1..] == t[2..];
      NormLeavesCrLf(t[2..]);
      assert Norm(t)[1..] == Norm(t[2..]);
    } else {
      NormLeavesCrLf(t[1..]);
      assert Norm(t)[1..] == Norm(t[1..]);
    }
  }

  /** Normalising again at the next chunk is harmless exactly when no CR stands before a CR LF. */
  lemma NormTwiceIffNoCrCrLf(t: string)
    ensures Norm(Norm(t)) == Norm(t) <==> NoCrCrLf(t)
  {
    assert t + [] == t && Norm(t) + [] == Norm(t);
    if NoCrCrLf(t) {
      NormAgain(t, []);
    } else {
      NormLeavesCrLf(t);
      NormShorter(Norm(t));
    }
  }

  const Line := "data:1"

  /** The excluded family is real: with a CR before a CR LF, one empty chunk more changes the
      frames and the end. */
  lemma ChunkingCanShow(k: Checks)
    requires k.isJson("1") && !k.isProtected("1")
    requires k.bytes(Line + "\n\r\r\n") <= MAX_SSE_BUFFER_BYTES && k.bytes(Line + "\n\r\n") <= MAX_SSE_BUFFER_BYTES
    ensures Run(k, [], [Line + "\n\r\r\n"], []) == Outcome([], IncompleteFrame)
    ensures Run(k, [], [Line + "\n\r\r\n", []], []) == Outcome(["1"], EndedEarly)
  {
    TextNormalises();
    FrameOfLine(k);
    TwoCutsDiffer(k, Line + "\n\r\r\n", Line + "\n\r\n", Line + "\n\n");
  }

  lemma TextNormalises()
    ensures Norm(Line + "\n\r\r\n") == Line + "\n\r\n" && Norm(Line + "\n\r\n") == Line + "\n\n"
    ensures Boundary(Line + "\n\r\n") < 0 && !Blank(Line + "\n\r\n")
  {
    LineFirst(Line, "\n\r\r\n");
    LineFirst(Line, "\n\r\n");
    assert Norm("\n\r\r\n") == "\n\r\n" && Norm("\n\r\n") == "\n\n";
  }

  lemma TwoCutsDiffer(k: Checks, text: string, once: string, twice: string)
    requires k.bytes(text) <= MAX_SSE_BUFFER_BYTES && k.bytes(once) <= MAX_SSE_BUFFER_BYTES
    requires Norm(text) == once && Norm(once) == twice && Boundary(once) < 0 && !Blank(once)
    requires Drain(k, twice) == Open(["1"], [])
    ensures Run(k, [], [text], []) == Outcome([], IncompleteFrame)
    ensures Run(k, [], [text, []], []) == Outcome(["1"], EndedEarly)
  {
    assert [] + text == text && once + [] == once;
    AfterOnce(k, text, once);
    LastChunk(k, once);
    assert [text, []][1..] == [[]];
    RunStep(k, [], [text, []], [], Open([], []));
  }

  lemma AfterOnce(k: Checks, text: string, once: string)
    requires k.bytes([] + text) <= MAX_SSE_BUFFER_BYTES
    requires Norm([] + text) == once && Boundary(once) < 0 && !Blank(once)
    ensures Run(k, [], [text], []) == Outcome([], IncompleteFrame)
  {
    assert once + [] == once;
    assert Drain(k, once) == Open([], once);
    RunStep(k, [], [text], [], Open([], []));
    assert Run(k, once, [], []) == Outcome([], IncompleteFrame);
  }

  lemma LastChunk(k: Checks, once: string)
    requires k.bytes(once + []) <= MAX_SSE_BUFFER_BYTES && Drain(k, Norm(once + [])) == Open(["1"], [])
    ensures Run(k, once, [[]], []) == Outcome(["1"], EndedEarly)
  {
    RunStep(k, once, [[]], [], Open([], []));
    assert Run(k, [], [], []) == Outcome([], EndedEarly);
  }

  lemma {:induction false} LineFirst(p: string, r: string)
    requires '\n' !in p && '\r' !in p && |r| >= 2
    ensures Norm(p + r) == p + Norm(r)
    ensures Boundary(p + r) == if Boundary(r) < 0 then -1 else |p| + Boundary(r)
    ensures p != [] && !Space(p[0]) ==> !Blank(p + r)
  {
    if p == [] {
      assert p + r == r && p + Norm(r) == Norm(r);
    } else {
      var s := p + r;
      assert s[1..] == p[1..] + r && s[0] == p[0] && s[0] in s && p == [p[0]] + p[1..];
      LineFirst(p[1..], r);
      assert Norm(s) == [p[0]] + (p[1..] + Norm(r));
    }
  }

  lemma FrameOfLine(k: Checks)
    requires k.isJson("1") && !k.isProtected("1")
    ensures Drain(k, Line + "\n\n") == Open(["1"], [])
  {
    OneFrame(k, "1", []);
    assert DataLine("1") == Line && Line + "\n\n" + [] == Line + "\n\n";
    assert TrimStart("1") == "1" && Drain(k, []) == Open([], []);
  }

  lemma {:induction false} SplitOfLine(t: string)
    requires '\n' !in t
    ensures Split(t) == [t]
  {
    if t != [] {
      SplitOfLine(t[1..]);
      assert t == [t[0]] + t[1..];
      assert Split(t[1..])[1..] == [];
    }
  }

  // -- a family of texts whose cut shows

  function DataLine(v: string): string { "data:" + v }

  lemma {:induction false} TrimKeepsCr(v: string)
    requires !Blank(v)
    ensures TrimStart(v + ['\r']) == TrimStart(v) + ['\r'] && TrimStart(v) != []
    decreases |v|
  {
    var t := v + ['\r'];
    assert t[0] == v[0] && t[1..] == v[1..] + ['\r'];
    var c :| c in v && !Space(c);
    if Space(v[0]) {
      assert c in v[1..];
      TrimKeepsCr(v[1..]);
    }
  }

  lemma DataOfOne(v: string)
    requires '\n' !in v
    ensures Data(DataLine(v)) == TrimStart(v)
  {
    var line := DataLine(v);
    SplitOfLine(line);
    assert line[5..] == v && "data:" <= line;
    assert DataLines([line]) == [TrimStart(v)];
  }

  /** A line of data, closed by a frame boundary that stands at `r`. */
  lemma OneFrame(k: Checks, v: string, r: string)
    requires '\n' !in v
    ensures Drain(k, DataLine(v) + "\n\n" + r) == Take(k, TrimStart(v), Drain(k, r))
  {
    var p := DataLine(v);
    var t := p + "\n\n" + r;
    BoundaryAfter(p, "\n\n" + r);
    assert t == p + ("\n\n" + r) && t[..|p|] == p && t[|p| + 2..] == r;
    DataOfOne(v);
    DrainTakes(k, t, |p|, TrimStart(v), Drain(k, r));
  }

  lemma {:induction false} BoundaryAfter(p: string, r: string)
    requires '\n' !in p && Boundary(r) == 0
    ensures Boundary(p + r) == |p|
  {
    if p == [] {
      assert p + r == r;
    } else {
      assert (p + r)[1..] == p[1..] + r && (p + r)[0] == p[0];
      BoundaryAfter(p[1..], r);
    }
  }

  lemma {:induction false} NoBoundary(p: string)
    requires forall j :: 0 <= j < |p| - 1 ==> p[j] != '\n'
    ensures Boundary(p) < 0
  {
    if |p| >= 2 { NoBoundary(p[1..]); }
  }

  /** The whole text at once, and cut before its frame boundary. */
  function AtOnce(v: string, rest: string): seq<string> { [DataLine(v) + ("\r\r\n\n" + rest)] }

  function CutThere(v: string, rest: string): seq<string> { [DataLine(v) + "\r\r\n", "\n" + rest] }

  predicate PlainValue(v: string) { '\n' !in v && '\r' !in v && !Blank(v) }

  lemma OneChunk(k: Checks, b: string, chunk: string, text: string, d: Drained, tail: string)
    requires k.bytes(b + chunk) <= MAX_SSE_BUFFER_BYTES && Norm(b + chunk) == text && Drain(k, text) == d
    ensures Run(k, b, [chunk], tail) == Finish(d, tail)
  {
    RunStep(k, b, [chunk], tail, Open([], []));
  }

  lemma NormTail(rest: string)
    ensures Norm("\r\n\n" + rest) == "\n\n" + Norm(rest)
  {
    var b := "\r\n\n" + rest;
    NormStep(rest, '\n');
    assert b[2..] == ['\n'] + rest;
    assert Norm(b) == ['\n'] + (['\n'] + Norm(rest)) == "\n\n" + Norm(rest);
  }

  lemma NormHead(rest: string)
    ensures Norm("\r\r\n\n" + rest) == "\r\n\n" + Norm(rest)
  {
    NormTail(rest);
    var b := "\r\n\n" + rest;
    assert "\r\r\n\n" + rest == ['\r'] + b;
    NormStep(b, '\r');
    assert ['\r'] + ("\n\n" + Norm(rest)) == "\r\n\n" + Norm(rest);
  }

  lemma NormCrCrLf()
    ensures Norm("\r\r\n") == "\r\n"
  {
    assert Norm("\r\n") == "\n";
    assert "\r\r\n"[1..] == "\r\n";
  }

  lemma LineIsPlain(v: string)
    requires PlainValue(v)
    ensures '\n' !in DataLine(v) && '\r' !in DataLine(v) && DataLine(v + ['\r']) == DataLine(v) + ['\r'] && '\n' !in v + ['\r']
  {
  }

  lemma NormOnce(p: string, rest: string)
    requires '\n' !in p && '\r' !in p
    ensures Norm(p + ("\r\r\n\n" + rest)) == p + ['\r'] + "\n\n" + Norm(rest)
  {
    LineFirst(p, "\r\r\n\n" + rest);
    NormHead(rest);
    assert p + ("\r\n\n" + Norm(rest)) == p + ['\r'] + "\n\n" + Norm(rest);
  }

  lemma NormCut(p: string, rest: string)
    requires '\n' !in p && '\r' !in p
    ensures Norm((p + "\r\n") + ("\n" + rest)) == p + "\n\n" + Norm(rest)
  {
    LineFirst(p, "\r\n\n" + rest);
    NormTail(rest);
    assert (p + "\r\n") + ("\n" + rest) == p + ("\r\n\n" + rest);
    assert p + ("\n\n" + Norm(rest)) == p + "\n\n" + Norm(rest);
  }

  lemma OnceRuns(k: Checks, v: string, rest: string, tail: string)
    requires PlainValue(v) && k.bytes(DataLine(v) + ("\r\r\n\n" + rest)) <= MAX_SSE_BUFFER_BYTES
    ensures Run(k, [], AtOnce(v, rest), tail) == Finish(Take(k, TrimStart(v + ['\r']), Drain(k, Norm(rest))), tail)
  {
    var chunk := DataLine(v) + ("\r\r\n\n" + rest);
    LineIsPlain(v);
    NormOnce(DataLine(v), rest);
    OneFrame(k, v + ['\r'], Norm(rest));
    assert [] + chunk == chunk;
    OneChunk(k, [], chunk, DataLine(v + ['\r']) + "\n\n" + Norm(rest), Take(k, TrimStart(v + ['\r']), Drain(k, Norm(rest))), tail);
  }

  lemma SecondRuns(k: Checks, v: string, rest: string, tail: string)
    requires PlainValue(v) && k.bytes((DataLine(v) + "\r\n") + ("\n" + rest)) <= MAX_SSE_BUFFER_BYTES
    ensures Run(k, DataLine(v) + "\r\n", ["\n" + rest], tail) == Finish(Take(k, TrimStart(v), Drain(k, Norm(rest))), tail)
  {
    LineIsPlain(v);
    NormCut(DataLine(v), rest);
    OneFrame(k, v, Norm(rest));
    OneChunk(k, DataLine(v) + "\r\n", "\n" + rest, DataLine(v) + "\n\n" + Norm(rest), Take(k, TrimStart(v), Drain(k, Norm(rest))), tail);
  }

  /** The first chunk leaves its line in the buffer. */
  lemma FirstRuns(k: Checks, v: string, rest: string, tail: string)
    requires PlainValue(v) && k.bytes(DataLine(v) + "\r\r\n") <= MAX_SSE_BUFFER_BYTES
    ensures Run(k, [], CutThere(v, rest), tail) == Run(k, DataLine(v) + "\r\n", ["\n" + rest], tail)
  {
    var p, chunks := DataLine(v), CutThere(v, rest);
    LineIsPlain(v);
    LineFirst(p, "\r\r\n");
    NormCrCrLf();
    assert [] + chunks[0] == p + "\r\r\n" && chunks[1..] == ["\n" + rest];
    NoBoundary(p + "\r\n");
    RunStep(k, [], chunks, tail, Open([], []));
  }

  lemma CutBytes(k: Checks, p: string, rest: string)
    requires Additive(k) && k.bytes(p + ("\r\r\n\n" + rest)) <= MAX_SSE_BUFFER_BYTES
    ensures k.bytes(p + "\r\r\n") <= MAX_SSE_BUFFER_BYTES && k.bytes((p + "\r\n") + ("\n" + rest)) <= MAX_SSE_BUFFER_BYTES
  {
    assert p + ("\r\r\n\n" + rest) == (p + "\r\r\n") + ("\n" + rest);
    NormFewerBytes(k, "\r\r\n");
    NormCrCrLf();
    assert k.bytes(p + "\r\n") == k.bytes(p) + k.bytes("\r\n") <= k.bytes(p) + k.bytes("\r\r\n") == k.bytes(p + "\r\r\n");
  }

  /** Where CR CR LF ends a line of data directly before the frame boundary, its value keeps the CR when
      the text comes at once and loses it when the text is cut there.  The cut does not show exactly when
      the value is refused for one reason with its CR and without it. */
  lemma KeptCrShowsIff(k: Checks, v: string, rest: string, tail: string)
    requires PlainValue(v) && Additive(k) && k.bytes(DataLine(v) + ("\r\r\n\n" + rest)) <= MAX_SSE_BUFFER_BYTES
    ensures Concat(AtOnce(v, rest)) == Concat(CutThere(v, rest))
    ensures var w := TrimStart(v);
      Run(k, [], AtOnce(v, rest), tail) == Run(k, [], CutThere(v, rest), tail) <==>
        Judge(k, w).Stop? && Judge(k, w) == Judge(k, w + ['\r'])
  {
    SameText(v, rest);
    OnceRuns(k, v, rest, tail);
    CutBytes(k, DataLine(v), rest);
    FirstRuns(k, v, rest, tail);
    SecondRuns(k, v, rest, tail);
    TrimKeepsCr(v);
    TakesDiffer(k, TrimStart(v), Drain(k, Norm(rest)), tail);
  }

  lemma SameText(v: string, rest: string)
    ensures Concat(AtOnce(v, rest)) == Concat(CutThere(v, rest))
  {
    var p, cut := DataLine(v), CutThere(v, rest);
    assert cut[1..] == ["\n" + rest] && cut[1..][1..] == [] && AtOnce(v, rest)[1..] == [];
    assert (p + "\r\r\n") + (("\n" + rest) + []) == (p + ("\r\r\n\n" + rest)) + [];
  }

  lemma TakesDiffer(k: Checks, w: string, rest: Drained, tail: string)
    requires w != []
    ensures Finish(Take(k, w + ['\r'], rest), tail) == Finish(Take(k, w, rest), tail) <==>
      Judge(k, w).Stop? && Judge(k, w) == Judge(k, w + ['\r'])
  {
    var x := w + ['\r'];
    assert x != [] && x != w && x != "[DONE]" by { assert x[|x| - 1] == '\r'; }
    assert ([x] + rest.frames)[0] == x && ([w] + rest.frames)[0] == w;
  }
}
