/** The canonical JSON printer: UTF-16 text in, one text per value out, with object keys in code
    unit order (section 3.2.3 of RFC 8785) and strings escaped as section 7 of RFC 8259 allows. */
module CanonicalJson {
  import opened Outcomes

  type CodeUnit = x: int | 0 <= x < 0x10000
  type Text = seq<CodeUnit>

  const QUOTE: CodeUnit := 34
  const COMMA: CodeUnit := 44
  const COLON: CodeUnit := 58
  const MINUS: CodeUnit := 45
  const DOT: CodeUnit := 46
  const LETTER_E: CodeUnit := 101
  const OPEN_ARRAY: CodeUnit := 91
  const BACKSLASH: CodeUnit := 92
  const CLOSE_ARRAY: CodeUnit := 93
  const OPEN_OBJECT: CodeUnit := 123
  const CLOSE_OBJECT: CodeUnit := 125
  const NULL_TEXT: Text := [110, 117, 108, 108]
  const TRUE_TEXT: Text := [116, 114, 117, 101]
  const FALSE_TEXT: Text := [102, 97, 108, 115, 101]
  const MAX_SAFE_INTEGER := 0x1F_FFFF_FFFF_FFFF

  /** A JavaScript number.  A non-integral double is known by the numeral ECMAScript prints for
      it, which names that double and no other. */
  datatype Number = Integer(n: int) | Fraction(numeral: Numeral) | NegativeZero | NonFinite

  predicate NumeralUnit(c: CodeUnit) {
    48 <= c <= 57 || c == MINUS || c == 43 || c == DOT || c == LETTER_E
  }

  /** The numerals of non-integral doubles: they start with a digit or a sign, and have a point or
      an exponent. */
  predicate IsFraction(t: Text) {
    && (forall c <- t :: NumeralUnit(c))
    && (DOT in t || LETTER_E in t)
    && (48 <= t[0] <= 57 || t[0] == MINUS)
  }

  type Numeral = t: Text | IsFraction(t) witness [48, 46, 53]

  /** An object is the list of its own properties in insertion order. */
  datatype Value =
    | Null
    | Bool(b: bool)
    | Num(number: Number)
    | Str(text: Text)
    | Arr(elements: seq<Value>)
    | Obj(fields: seq<Entry<Value>>)

  datatype Entry<+T> = Entry(key: Text, item: T)

  datatype Problem = UnpairedHigh | UnpairedLow | NotFinite | MinusZero | UnsafeInteger

  type Checked<+T> = Result<T, Problem>

  // ---------------------------------------------------------------- well-formed strings

  predicate High(c: CodeUnit) { 0xD800 <= c <= 0xDBFF }
  predicate Low(c: CodeUnit) { 0xDC00 <= c <= 0xDFFF }

  /** What the scan of `assertWellFormedString` finds first. */
  function Scan(s: Text): Checked<()> {
    if s == [] then Ok(())
    else if High(s[0]) then
      if |s| > 1 && Low(s[1]) then Scan(s[2..]) else Err(UnpairedHigh)
    else if Low(s[0]) then Err(UnpairedLow)
    else Scan(s[1..])
  }

  method AssertWellFormedString(value: Text) returns (r: Checked<()>)
    ensures r == Scan(value)
    ensures r.Ok? <==> exists points :: Scalars(points) && Utf16(points) == value
  {
    ScanAcceptsExactlyUtf16(value);
    var index := 0;
    while index < |value|
      invariant index <= |value|
      invariant Scan(value[index..]) == Scan(value)
    {
      var code := value[index];
      assert value[index..][1..] == value[index + 1..];
      if 0xD800 <= code <= 0xDBFF {
        if index + 1 >= |value| || !(0xDC00 <= value[index + 1] <= 0xDFFF) {
          return Err(UnpairedHigh);
        }
        assert value[index..][2..] == value[index + 2..];
        index := index + 1;
      } else if 0xDC00 <= code <= 0xDFFF {
        return Err(UnpairedLow);
      }
      index := index + 1;
    }
    return Ok(());
  }

  /** Unicode scalar values and their UTF-16 encoding, independently of the scan. */
  predicate Scalar(p: int) { 0 <= p < 0xD800 || 0xE000 <= p < 0x11_0000 }

  ghost predicate Scalars(points: seq<int>) { forall p <- points :: Scalar(p) }

  function EncodePoint(p: int): (t: Text)
    requires Scalar(p)
  {
    if p < 0x1_0000 then [p] else [0xD800 + (p - 0x1_0000) / 0x400, 0xDC00 + (p - 0x1_0000) % 0x400]
  }

  ghost function Utf16(points: seq<int>): Text
    requires Scalars(points)
  {
    if points == [] then [] else EncodePoint(points[0]) + Utf16(points[1..])
  }

  lemma {:induction false} Utf16Scans(points: seq<int>)
    requires Scalars(points)
    ensures Scan(Utf16(points)).Ok?
  {
    if points != [] {
      Utf16Scans(points[1..]);
      var first, rest := EncodePoint(points[0]), Utf16(points[1..]);
      assert (first + rest)[|first|..] == rest;
    }
  }

  lemma {:induction false} ScanDecodes(s: Text) returns (points: seq<int>)
    requires Scan(s).Ok?
    ensures Scalars(points) && Utf16(points) == s
  {
    if s == [] {
      points := [];
    } else if High(s[0]) {
      var rest := ScanDecodes(s[2..]);
      var high: int, low: int := s[0], s[1];
      var p := 0x1_0000 + (high - 0xD800) * 0x400 + (low - 0xDC00);
      points := [p] + rest;
      assert EncodePoint(p) == [s[0], s[1]];
      assert s == [s[0], s[1]] + s[2..];
    } else {
      var rest := ScanDecodes(s[1..]);
      points := [s[0]] + rest;
      assert s == [s[0]] + s[1..];
    }
  }

  /** The scan accepts exactly the UTF-16 encodings of sequences of Unicode scalar values. */
  lemma {:induction false} ScanAcceptsExactlyUtf16(s: Text)
    ensures Scan(s).Ok? <==> exists points :: Scalars(points) && Utf16(points) == s
  {
    if Scan(s).Ok? {
      var points := ScanDecodes(s);
    } else {
      forall points | Scalars(points) ensures Utf16(points) != s { Utf16Scans(points); }
    }
  }

  // ---------------------------------------------------------------- printing

  function HexDigit(d: int): CodeUnit
    requires 0 <= d < 16
  {
    if d < 10 then 48 + d else 87 + d
  }

  function Escape(c: CodeUnit): Text {
    if c == QUOTE || c == BACKSLASH then [BACKSLASH, c]
    else if c == 8 then [BACKSLASH, 98]
    else if c == 9 then [BACKSLASH, 116]
    else if c == 10 then [BACKSLASH, 110]
    else if c == 12 then [BACKSLASH, 102]
    else if c == 13 then [BACKSLASH, 114]
    else if c < 32 then [BACKSLASH, 117, 48, 48, HexDigit(c / 16), HexDigit(c % 16)]
    else [c]
  }

  function EscapeAll(s: Text): Text {
    if s == [] then [] else Escape(s[0]) + EscapeAll(s[1..])
  }

  function Quote(s: Text): Text {
    [QUOTE] + EscapeAll(s) + [QUOTE]
  }

  function Digits(n: nat): (t: Text)
    ensures |t| > 0 && forall c <- t :: 48 <= c <= 57
  {
    if n < 10 then [48 + n] else Digits(n / 10) + [48 + n % 10]
  }

  function Decimal(n: int): Text {
    if n < 0 then [MINUS] + Digits(-n) else Digits(n)
  }

  function EncodeNumber(x: Number): Checked<Text> {
    match x
    case NonFinite => Err(NotFinite)
    case NegativeZero => Err(MinusZero)
    case Integer(n) => if -MAX_SAFE_INTEGER <= n <= MAX_SAFE_INTEGER then Ok(Decimal(n)) else Err(UnsafeInteger)
    case Fraction(numeral) => Ok(numeral)
  }

  function EncodeString(s: Text): Checked<Text> {
    var _ :- Scan(s);
    Ok(Quote(s))
  }

  /** Code unit order, as `Array.prototype.sort` compares strings. */
  predicate Before(a: Text, b: Text) {
    if b == [] then false
    else if a == [] then true
    else a[0] < b[0] || (a[0] == b[0] && Before(a[1..], b[1..]))
  }

  function Insert<T(!new)>(e: Entry<T>, entries: seq<Entry<T>>): (r: seq<Entry<T>>)
    ensures |r| == |entries| + 1
    ensures forall g :: g in r <==> g == e || g in entries
  {
    if entries == [] then [e]
    else if Before(entries[0].key, e.key) then
      assert entries == [entries[0]] + entries[1..];
      [entries[0]] + Insert(e, entries[1..])
    else [e] + entries
  }

  function Sort<T(!new)>(entries: seq<Entry<T>>): (r: seq<Entry<T>>)
    ensures |r| == |entries|
    ensures forall g :: g in r <==> g in entries
  {
    if entries == [] then [] else
      assert entries == [entries[0]] + entries[1..];
      Insert(entries[0], Sort(entries[1..]))
  }

  function Join(parts: seq<Text>): Text {
    if parts == [] then []
    else if |parts| == 1 then parts[0]
    else parts[0] + [COMMA] + Join(parts[1..])
  }

  /** The first problem of a list of parts, or all the parts. */
  function Collect(parts: seq<Checked<Text>>): (r: Checked<seq<Text>>)
    ensures r.Ok? ==> |r.value| == |parts|
  {
    if parts == [] then Ok([])
    else
      var first :- parts[0];
      var rest :- Collect(parts[1..]);
      Ok([first] + rest)
  }

  function Items<T>(entries: seq<Entry<T>>): (r: seq<T>)
    ensures |r| == |entries|
  {
    seq(|entries|, i requires 0 <= i < |entries| => entries[i].item)
  }

  /** Printing has no effects, so the properties are printed where they stand and the printed
      properties are put in key order; the problem reported is the first in that order. */
  function Encode(v: Value): Checked<Text>
    decreases v, 1
  {
    match v
    case Null => Ok(NULL_TEXT)
    case Bool(b) => Ok(if b then TRUE_TEXT else FALSE_TEXT)
    case Num(x) => EncodeNumber(x)
    case Str(s) => EncodeString(s)
    case Arr(elements) =>
      var parts :- Collect(EncodeElements(elements));
      Ok([OPEN_ARRAY] + Join(parts) + [CLOSE_ARRAY])
    case Obj(fields) =>
      var parts :- Collect(Items(Sort(EncodeFields(fields))));
      Ok([OPEN_OBJECT] + Join(parts) + [CLOSE_OBJECT])
  }

  function EncodeElements(elements: seq<Value>): (r: seq<Checked<Text>>)
    ensures |r| == |elements|
    decreases elements, 0
  {
    if elements == [] then [] else [Encode(elements[0])] + EncodeElements(elements[1..])
  }

  function EncodeFields(fields: seq<Entry<Value>>): (r: seq<Entry<Checked<Text>>>)
    ensures |r| == |fields|
    decreases fields, 0
  {
    if fields == [] then [] else [Entry(fields[0].key, EncodeField(fields[0]))] + EncodeFields(fields[1..])
  }

  function EncodeField(field: Entry<Value>): Checked<Text>
    decreases field, 0
  {
    var key :- EncodeString(field.key);
    var value :- Encode(field.item);
    Ok(key + [COLON] + value)
  }

  // ---------------------------------------------------------------- parsing

  datatype Parsed<+T> = Parsed(value: T, rest: Text) | Unparsed

  function FromHex(c: CodeUnit): int {
    if 48 <= c <= 57 then c - 48 else if 97 <= c <= 102 then c - 87 else -1
  }

  /** One character of a string, after its opening quote. */
  function ParseUnit(t: Text): (r: Parsed<CodeUnit>)
    ensures r.Parsed? ==> |r.rest| < |t|
  {
    if t == [] || t[0] == QUOTE then Unparsed
    else if t[0] != BACKSLASH then Parsed(t[0], t[1..])
    else if |t| < 2 then Unparsed
    else if t[1] == 117 then
      if |t| >= 6 && t[2] == 48 && t[3] == 48 && FromHex(t[4]) >= 0 && FromHex(t[5]) >= 0
      then Parsed(16 * FromHex(t[4]) + FromHex(t[5]), t[6..])
      else Unparsed
    else
      var c := t[1];
      var unit := if c == 98 then 8 else if c == 116 then 9 else if c == 110 then 10
                  else if c == 102 then 12 else if c == 114 then 13 else c;
      Parsed(unit, t[2..])
  }

  function ParseUnits(t: Text): (r: Parsed<Text>)
    ensures r.Parsed? ==> |r.rest| < |t|
  {
    if t == [] then Unparsed
    else if t[0] == QUOTE then Parsed([], t[1..])
    else
      var first := ParseUnit(t);
      if first.Unparsed? then Unparsed
      else
        var others := ParseUnits(first.rest);
        if others.Unparsed? then Unparsed else Parsed([first.value] + others.value, others.rest)
  }

  function ParseString(t: Text): (r: Parsed<Text>)
    ensures r.Parsed? ==> |r.rest| < |t|
  {
    if t == [] || t[0] != QUOTE then Unparsed else ParseUnits(t[1..])
  }

  /** How many numeral characters t starts with. */
  function NumeralLength(t: Text): (n: nat)
    ensures n <= |t|
    ensures forall i :: 0 <= i < n ==> NumeralUnit(t[i])
  {
    if t == [] || !NumeralUnit(t[0]) then 0 else 1 + NumeralLength(t[1..])
  }

  function ReadDigits(t: Text): int {
    if t == [] then 0 else 10 * ReadDigits(t[..|t| - 1]) + (t[|t| - 1] as int - 48)
  }

  function ReadNumber(t: Text): Number
    requires t != [] && forall c <- t :: NumeralUnit(c)
  {
    if (DOT in t || LETTER_E in t) && (48 <= t[0] <= 57 || t[0] == MINUS) then Fraction(t)
    else if t[0] == MINUS then Integer(-ReadDigits(t[1..]))
    else Integer(ReadDigits(t))
  }

  function ParseValue(t: Text): (r: Parsed<Value>)
    ensures r.Parsed? ==> |r.rest| < |t|
    decreases |t|, 1
  {
    if t == [] then Unparsed
    else if t[0] == QUOTE then
      var s := ParseString(t);
      if s.Unparsed? then Unparsed else Parsed(Str(s.value), s.rest)
    else if NULL_TEXT <= t then Parsed(Null, t[4..])
    else if TRUE_TEXT <= t then Parsed(Bool(true), t[4..])
    else if FALSE_TEXT <= t then Parsed(Bool(false), t[5..])
    else if t[0] == OPEN_ARRAY then
      if |t| > 1 && t[1] == CLOSE_ARRAY then Parsed(Arr([]), t[2..])
      else
        var elements := ParseElements(t[1..]);
        if elements.Unparsed? then Unparsed else Parsed(Arr(elements.value), elements.rest)
    else if t[0] == OPEN_OBJECT then
      if |t| > 1 && t[1] == CLOSE_OBJECT then Parsed(Obj([]), t[2..])
      else
        var fields := ParseFields(t[1..]);
        if fields.Unparsed? then Unparsed else Parsed(Obj(fields.value), fields.rest)
    else
      var n := NumeralLength(t);
      if n == 0 then Unparsed else Parsed(Num(ReadNumber(t[..n])), t[n..])
  }

  /** One or more elements and the closing bracket. */
  function ParseElements(t: Text): (r: Parsed<seq<Value>>)
    ensures r.Parsed? ==> |r.rest| < |t|
    decreases |t|, 2
  {
    var first := ParseValue(t);
    if first.Unparsed? || first.rest == [] then Unparsed
    else if first.rest[0] == CLOSE_ARRAY then Parsed([first.value], first.rest[1..])
    else if first.rest[0] != COMMA then Unparsed
    else
      var others := ParseElements(first.rest[1..]);
      if others.Unparsed? then Unparsed else Parsed([first.value] + others.value, others.rest)
  }

  /** One or more properties and the closing brace. */
  function ParseFields(t: Text): (r: Parsed<seq<Entry<Value>>>)
    ensures r.Parsed? ==> |r.rest| < |t|
    decreases |t|, 2
  {
    var key := ParseString(t);
    if key.Unparsed? || key.rest == [] || key.rest[0] != COLON then Unparsed
    else
      var item := ParseValue(key.rest[1..]);
      if item.Unparsed? || item.rest == [] then Unparsed
      else if item.rest[0] == CLOSE_OBJECT then Parsed([Entry(key.value, item.value)], item.rest[1..])
      else if item.rest[0] != COMMA then Unparsed
      else
        var others := ParseFields(item.rest[1..]);
        if others.Unparsed? then Unparsed
        else Parsed([Entry(key.value, item.value)] + others.value, others.rest)
  }

  // ---------------------------------------------------------------- meaning

  /** What JavaScript itself guarantees of an object: no key twice. */
  ghost predicate WellKeyed(v: Value)
    decreases v
  {
    match v
    case Arr(elements) => forall x <- elements :: WellKeyed(x)
    case Obj(fields) => Distinct(fields) && forall f <- fields :: WellKeyed(f.item)
    case _ => true
  }

  ghost predicate Distinct<T>(entries: seq<Entry<T>>) {
    forall i, j :: 0 <= i < j < |entries| ==> entries[i].key != entries[j].key
  }

  /** The same value up to the order of object keys, said property by property. */
  ghost predicate SameValue(v: Value, w: Value)
    decreases v
  {
    match v
    case Arr(elements) =>
      w.Arr? && |w.elements| == |elements|
      && forall i :: 0 <= i < |elements| ==> SameValue(elements[i], w.elements[i])
    case Obj(fields) =>
      w.Obj?
      && (forall i :: 0 <= i < |fields| ==> HasField(fields[i], w.fields))
      && (forall j :: 0 <= j < |w.fields| ==> HasKey(w.fields[j].key, fields))
    case _ => w == v
  }

  ghost predicate HasField(field: Entry<Value>, fields: seq<Entry<Value>>)
    decreases field
  {
    exists j :: 0 <= j < |fields| && fields[j].key == field.key && SameValue(field.item, fields[j].item)
  }

  ghost predicate HasKey(key: Text, fields: seq<Entry<Value>>) {
    exists i :: 0 <= i < |fields| && fields[i].key == key
  }

  /** The value with every object's keys in code unit order. */
  function Normal(v: Value): Value
    decreases v, 1
  {
    match v
    case Arr(elements) => Arr(NormalElements(elements))
    case Obj(fields) => Obj(Sort(NormalFields(fields)))
    case _ => v
  }

  function NormalElements(elements: seq<Value>): (r: seq<Value>)
    ensures |r| == |elements|
    decreases elements, 0
  {
    if elements == [] then [] else [Normal(elements[0])] + NormalElements(elements[1..])
  }

  function NormalFields(fields: seq<Entry<Value>>): (r: seq<Entry<Value>>)
    ensures |r| == |fields|
    ensures forall i :: 0 <= i < |fields| ==> r[i].key == fields[i].key
    decreases fields, 0
  {
    if fields == [] then []
    else [Entry(fields[0].key, Normal(fields[0].item))] + NormalFields(fields[1..])
  }

  // ---------------------------------------------------------------- order

  lemma {:induction false} BeforeTotal(a: Text, b: Text)
    ensures a == b || Before(a, b) || Before(b, a)
    ensures !(Before(a, b) && Before(b, a))
    ensures !Before(a, a)
  {
    if a != [] && b != [] {
      BeforeTotal(a[1..], b[1..]);
      assert a == [a[0]] + a[1..] && b == [b[0]] + b[1..];
    }
    if a != [] { BeforeTotal(a[1..], a[1..]); }
  }

  lemma {:induction false} BeforeTransitive(a: Text, b: Text, c: Text)
    requires Before(a, b) && Before(b, c)
    ensures Before(a, c)
  {
    if a != [] && a[0] == b[0] && b[0] == c[0] { BeforeTransitive(a[1..], b[1..], c[1..]); }
  }

  /** Keys strictly increase in code unit order. */
  ghost predicate Ordered<T>(entries: seq<Entry<T>>) {
    forall i, j :: 0 <= i < j < |entries| ==> Before(entries[i].key, entries[j].key)
  }

  lemma {:induction false} InsertOrdered<T(!new)>(e: Entry<T>, entries: seq<Entry<T>>)
    requires Ordered(entries) && forall g <- entries :: g.key != e.key
    ensures Ordered(Insert(e, entries))
  {
    if entries != [] {
      BeforeTotal(e.key, entries[0].key);
      if Before(entries[0].key, e.key) {
        InsertOrdered(e, entries[1..]);
        var r := Insert(e, entries[1..]);
        forall j | 0 <= j < |r| ensures Before(entries[0].key, r[j].key) {
          assert r[j] in r;
          if r[j] != e {
            var k :| 0 <= k < |entries[1..]| && entries[1..][k] == r[j];
          }
        }
      } else {
        forall j | 0 <= j < |entries| ensures Before(e.key, entries[j].key) {
          if j > 0 { BeforeTransitive(e.key, entries[0].key, entries[j].key); }
        }
      }
    }
  }

  lemma {:induction false} SortOrdered<T(!new)>(entries: seq<Entry<T>>)
    requires Distinct(entries)
    ensures Ordered(Sort(entries))
  {
    if entries != [] {
      SortOrdered(entries[1..]);
      forall g | g in Sort(entries[1..]) ensures g.key != entries[0].key {
        var k :| 0 <= k < |entries[1..]| && entries[1..][k] == g;
      }
      InsertOrdered(entries[0], Sort(entries[1..]));
    }
  }

  lemma {:induction false} SortOfOrdered<T(!new)>(entries: seq<Entry<T>>)
    requires Ordered(entries)
    ensures Sort(entries) == entries
  {
    if entries != [] {
      SortOfOrdered(entries[1..]);
      if |entries| > 1 { BeforeTotal(entries[0].key, entries[1].key); }
      assert entries == [entries[0]] + entries[1..];
    }
  }

  // ---------------------------------------------------------------- printing depends on the normal form only

  function PrintedField(f: Entry<Value>): Entry<Checked<Text>> {
    Entry(f.key, EncodeField(f))
  }

  lemma {:induction false} SortPrintsInOrder(fields: seq<Entry<Value>>)
    ensures Sort(EncodeFields(fields)) == EncodeFields(Sort(fields))
  {
    if fields != [] {
      SortPrintsInOrder(fields[1..]);
      InsertPrintsInOrder(fields[0], Sort(fields[1..]));
    }
  }

  lemma {:induction false} InsertPrintsInOrder(f: Entry<Value>, fields: seq<Entry<Value>>)
    ensures Insert(PrintedField(f), EncodeFields(fields)) == EncodeFields(Insert(f, fields))
  {
    if fields != [] { InsertPrintsInOrder(f, fields[1..]); }
  }

  lemma {:induction false} SortNormalises(fields: seq<Entry<Value>>)
    ensures Sort(NormalFields(fields)) == NormalFields(Sort(fields))
  {
    if fields != [] {
      SortNormalises(fields[1..]);
      InsertNormalises(fields[0], Sort(fields[1..]));
    }
  }

  lemma {:induction false} InsertNormalises(f: Entry<Value>, fields: seq<Entry<Value>>)
    ensures Insert(Entry(f.key, Normal(f.item)), NormalFields(fields)) == NormalFields(Insert(f, fields))
  {
    if fields != [] { InsertNormalises(f, fields[1..]); }
  }

  /** Printing sees only the normal form: insertion order changes neither the text nor which
      problem is reported. */
  lemma {:induction false} EncodeNormal(v: Value)
    requires WellKeyed(v)
    ensures Encode(Normal(v)) == Encode(v)
    decreases v, 1
  {
    match v
    case Arr(elements) => EncodeNormalElements(elements);
    case Obj(fields) =>
      EncodeNormalFields(fields);
      var normal := NormalFields(fields);
      SortOrdered(normal);
      SortOfOrdered(Sort(normal));
      SortPrintsInOrder(normal);
      SortPrintsInOrder(Sort(normal));
    case _ =>
  }

  lemma {:induction false} EncodeNormalElements(elements: seq<Value>)
    requires forall x <- elements :: WellKeyed(x)
    ensures EncodeElements(NormalElements(elements)) == EncodeElements(elements)
    decreases elements, 0
  {
    if elements != [] {
      assert elements[0] in elements;
      EncodeNormal(elements[0]);
      EncodeNormalElements(elements[1..]);
    }
  }

  lemma {:induction false} EncodeNormalFields(fields: seq<Entry<Value>>)
    requires forall f <- fields :: WellKeyed(f.item)
    ensures EncodeFields(NormalFields(fields)) == EncodeFields(fields)
    decreases fields, 0
  {
    if fields != [] {
      assert fields[0] in fields;
      EncodeNormal(fields[0].item);
      EncodeNormalFields(fields[1..]);
    }
  }

  // ---------------------------------------------------------------- the parser undoes the printer

  lemma {:induction false} UnescapeOne(c: CodeUnit, rest: Text)
    ensures ParseUnit(Escape(c) + rest) == Parsed(c, rest)
  {
    var t := Escape(c) + rest;
    if |Escape(c)| == 6 {
      assert c == 16 * (c / 16) + c % 16 && c / 16 < 16;
      assert t[6..] == rest && FromHex(t[4]) == c / 16 && FromHex(t[5]) == c % 16;
    } else if |Escape(c)| == 2 {
      assert t[2..] == rest;
    } else {
      assert t[1..] == rest;
    }
  }

  lemma {:induction false} UnescapeAll(s: Text, rest: Text)
    ensures ParseUnits(EscapeAll(s) + [QUOTE] + rest) == Parsed(s, rest)
  {
    if s == [] {
      assert EscapeAll(s) + [QUOTE] + rest == [QUOTE] + rest;
    } else {
      var t := EscapeAll(s) + [QUOTE] + rest;
      var u := EscapeAll(s[1..]) + [QUOTE] + rest;
      assert t == Escape(s[0]) + u;
      UnescapeOne(s[0], u);
      UnescapeAll(s[1..], rest);
      assert s == [s[0]] + s[1..];
    }
  }

  lemma {:induction false} Unquote(s: Text, rest: Text)
    ensures ParseString(Quote(s) + rest) == Parsed(s, rest)
  {
    UnescapeAll(s, rest);
    assert (Quote(s) + rest)[1..] == EscapeAll(s) + [QUOTE] + rest;
  }

  lemma {:induction false} ReadsDigits(n: nat)
    ensures ReadDigits(Digits(n)) == n
  {
    if n >= 10 {
      ReadsDigits(n / 10);
      assert Digits(n)[..|Digits(n)| - 1] == Digits(n / 10);
    }
  }

  /** What may follow a value: nothing, or a character no numeral contains. */
  predicate Delimited(rest: Text) {
    rest == [] || !NumeralUnit(rest[0])
  }

  lemma {:induction false} NumeralEnds(t: Text, rest: Text)
    requires (forall c <- t :: NumeralUnit(c)) && Delimited(rest)
    ensures NumeralLength(t + rest) == |t|
  {
    if t == [] {
      assert t + rest == rest;
    } else {
      assert t[0] in t;
      assert (t + rest)[1..] == t[1..] + rest;
      NumeralEnds(t[1..], rest);
    }
  }

  lemma {:induction false} ReadsNumber(x: Number)
    requires EncodeNumber(x).Ok?
    ensures var t := EncodeNumber(x).value;
      t != [] && (forall c <- t :: NumeralUnit(c)) && ReadNumber(t) == x && (48 <= t[0] <= 57 || t[0] == MINUS)
  {
    if x.Integer? {
      var n := x.n;
      var t := Decimal(n);
      var digits := if n < 0 then Digits(-n) else Digits(n);
      ReadsDigits(if n < 0 then -n else n);
      assert n < 0 ==> t[1..] == digits;
      assert digits[0] in digits;
      forall c | c in t ensures NumeralUnit(c) && c != DOT && c != LETTER_E {
        assert c == MINUS || c in digits;
      }
    }
  }

  lemma {:induction false} ParsesNumber(x: Number, rest: Text)
    requires EncodeNumber(x).Ok? && Delimited(rest)
    ensures ParseValue(EncodeNumber(x).value + rest) == Parsed(Num(x), rest)
  {
    ReadsNumber(x);
    var t := EncodeNumber(x).value;
    NumeralEnds(t, rest);
    assert (t + rest)[0] == t[0];
    assert (t + rest)[..|t|] == t && (t + rest)[|t|..] == rest;
  }

  lemma {:induction false} ParsesLiteral(v: Value, rest: Text)
    requires v.Null? || v.Bool?
    ensures ParseValue(Encode(v).value + rest) == Parsed(v, rest)
  {
    var t := Encode(v).value;
    assert (t + rest)[|t|..] == rest && t <= t + rest;
  }

  lemma {:induction false} ParsesText(s: Text, rest: Text)
    ensures ParseValue(Quote(s) + rest) == Parsed(Str(s), rest)
  {
    Unquote(s, rest);
  }

  lemma {:induction false} ParsesArray(inner: Text, elements: seq<Value>, rest: Text)
    requires inner != [] && inner[0] != CLOSE_ARRAY && ParseElements(inner) == Parsed(elements, rest)
    ensures ParseValue([OPEN_ARRAY] + inner) == Parsed(Arr(elements), rest)
  {
    assert ([OPEN_ARRAY] + inner)[1..] == inner;
  }

  lemma {:induction false} ParsesObject(inner: Text, fields: seq<Entry<Value>>, rest: Text)
    requires inner != [] && inner[0] != CLOSE_OBJECT && ParseFields(inner) == Parsed(fields, rest)
    ensures ParseValue([OPEN_OBJECT] + inner) == Parsed(Obj(fields), rest)
  {
    assert ([OPEN_OBJECT] + inner)[1..] == inner;
  }

  lemma {:induction false} ParsesEmpty(rest: Text)
    ensures ParseValue([OPEN_ARRAY] + ([CLOSE_ARRAY] + rest)) == Parsed(Arr([]), rest)
    ensures ParseValue([OPEN_OBJECT] + ([CLOSE_OBJECT] + rest)) == Parsed(Obj([]), rest)
  {
    assert ([OPEN_ARRAY] + ([CLOSE_ARRAY] + rest))[2..] == rest;
    assert ([OPEN_OBJECT] + ([CLOSE_OBJECT] + rest))[2..] == rest;
  }

  lemma {:induction false} Regroup<T>(a: seq<T>, b: seq<T>, c: seq<T>, d: seq<T>)
    ensures a + b + c + d == a + (b + (c + d))
  {}

  lemma {:induction false} FieldsAfterKey(t: Text, key: Text, value: Text)
    requires ParseString(t) == Parsed(key, [COLON] + value)
    ensures var item := ParseValue(value);
      item.Parsed? && item.rest != [] ==>
        && (item.rest[0] == CLOSE_OBJECT ==> ParseFields(t) == Parsed([Entry(key, item.value)], item.rest[1..]))
        && (item.rest[0] == COMMA && ParseFields(item.rest[1..]).Parsed? ==>
              var others := ParseFields(item.rest[1..]);
              ParseFields(t) == Parsed([Entry(key, item.value)] + others.value, others.rest))
  {
    assert ([COLON] + value)[1..] == value;
  }

  /** One property, and whatever follows it. */
  lemma {:induction false} ParsesField(t: Text, key: Text, text: Text, item: Value, more: Text)
    requires t == Quote(key) + [COLON] + text + more
    requires more != [] && ParseValue(text + more) == Parsed(item, more)
    ensures more[0] == CLOSE_OBJECT ==> ParseFields(t) == Parsed([Entry(key, item)], more[1..])
    ensures more[0] == COMMA && ParseFields(more[1..]).Parsed? ==>
      var others := ParseFields(more[1..]);
      ParseFields(t) == Parsed([Entry(key, item)] + others.value, others.rest)
  {
    var value := text + more;
    var colon := [COLON] + value;
    Regroup(Quote(key), [COLON], text, more);
    Unquote(key, colon);
    assert colon[1..] == value;
    FieldsAfterKey(t, key, value);
  }

  /** The parser undoes the printer on any printed value followed by anything that cannot extend a
      numeral, up to key order. */
  lemma {:induction false} RoundTrip(v: Value, rest: Text)
    requires Encode(v).Ok? && Delimited(rest)
    ensures ParseValue(Encode(v).value + rest) == Parsed(Normal(v), rest)
    decreases v, 1
  {
    var t := Encode(v).value;
    match v
    case Null => ParsesLiteral(v, rest);
    case Bool(b) => ParsesLiteral(v, rest);
    case Num(x) => ParsesNumber(x, rest);
    case Str(s) => ParsesText(s, rest);
    case Arr(elements) =>
      var parts := Collect(EncodeElements(elements)).value;
      var inner := Join(parts) + [CLOSE_ARRAY] + rest;
      assert t + rest == [OPEN_ARRAY] + inner;
      if elements == [] {
        assert inner == [CLOSE_ARRAY] + rest;
        ParsesEmpty(rest);
      } else {
        RoundTripElements(elements, rest);
        JoinStarts(elements);
        ParsesArray(inner, NormalElements(elements), rest);
      }
    case Obj(fields) => RoundTripObject(v, rest);
  }

  lemma {:induction false} RoundTripObject(v: Value, rest: Text)
    requires v.Obj? && Encode(v).Ok?
    ensures ParseValue(Encode(v).value + rest) == Parsed(Normal(v), rest)
    decreases v, 0
  {
    var sorted := Sort(v.fields);
    SortPrintsInOrder(v.fields);
    SortNormalises(v.fields);
    var parts := Collect(Items(EncodeFields(sorted))).value;
    var inner := Join(parts) + [CLOSE_OBJECT] + rest;
    assert Encode(v).value + rest == [OPEN_OBJECT] + inner;
    if v.fields == [] {
      assert inner == [CLOSE_OBJECT] + rest;
      ParsesEmpty(rest);
    } else {
      forall f | f in sorted ensures f.item < v { assert f in v.fields; }
      RoundTripFields(v, sorted, rest);
      ParsesObject(inner, NormalFields(sorted), rest);
    }
  }

  /** No value prints as a text that starts with a closing bracket. */
  lemma {:induction false} JoinStarts(elements: seq<Value>)
    requires elements != [] && Collect(EncodeElements(elements)).Ok?
    ensures var t := Join(Collect(EncodeElements(elements)).value); t != [] && t[0] != CLOSE_ARRAY
  {
    assert EncodeElements(elements)[0] == Encode(elements[0]);
    if elements[0].Num? { ReadsNumber(elements[0].number); }
  }

  lemma {:induction false} RoundTripElements(elements: seq<Value>, rest: Text)
    requires elements != [] && Collect(EncodeElements(elements)).Ok?
    ensures ParseElements(Join(Collect(EncodeElements(elements)).value) + [CLOSE_ARRAY] + rest)
         == Parsed(NormalElements(elements), rest)
    decreases elements, 0
  {
    var parts := Collect(EncodeElements(elements)).value;
    var t := Join(parts) + [CLOSE_ARRAY] + rest;
    if |elements| == 1 {
      assert t == parts[0] + ([CLOSE_ARRAY] + rest);
      RoundTrip(elements[0], [CLOSE_ARRAY] + rest);
      assert NormalElements(elements) == [Normal(elements[0])];
    } else {
      assert Collect(EncodeElements(elements[1..])).value == parts[1..];
      var more := Join(parts[1..]) + [CLOSE_ARRAY] + rest;
      assert t == parts[0] + ([COMMA] + more);
      RoundTrip(elements[0], [COMMA] + more);
      RoundTripElements(elements[1..], rest);
    }
  }

  lemma {:induction false} RoundTripFields(whole: Value, fields: seq<Entry<Value>>, rest: Text)
    requires fields != [] && Collect(Items(EncodeFields(fields))).Ok?
    requires forall f <- fields :: f.item < whole
    ensures var t := Join(Collect(Items(EncodeFields(fields))).value);
      && ParseFields(t + [CLOSE_OBJECT] + rest) == Parsed(NormalFields(fields), rest)
      && t != [] && t[0] == QUOTE
    decreases whole, 0, |fields|
  {
    FirstPart(fields);
    assert fields[0] in fields;
    var first, others := Quote(fields[0].key) + [COLON] + Encode(fields[0].item).value, Collect(Items(EncodeFields(fields[1..]))).value;
    if |fields| == 1 {
      LastField(fields[0], rest, whole);
      assert others == [] && NormalFields(fields) == [Entry(fields[0].key, Normal(fields[0].item))];
      assert Join([first]) == first;
      assert first + [CLOSE_OBJECT] + rest == first + ([CLOSE_OBJECT] + rest);
    } else {
      RoundTripFields(whole, fields[1..], rest);
      MoreFields(fields[0], Join(others) + [CLOSE_OBJECT] + rest, whole);
      JoinMore(first, others, rest);
    }
  }

  lemma {:induction false} JoinMore(first: Text, others: seq<Text>, rest: Text)
    requires others != []
    ensures Join([first] + others) + [CLOSE_OBJECT] + rest
         == first + ([COMMA] + (Join(others) + [CLOSE_OBJECT] + rest))
  {
    assert ([first] + others)[1..] == others;
    assert Join([first] + others) == first + [COMMA] + Join(others);
    Regroup(first, [COMMA], Join(others), [CLOSE_OBJECT] + rest);
    assert first + [COMMA] + Join(others) + [CLOSE_OBJECT] + rest
        == first + [COMMA] + Join(others) + ([CLOSE_OBJECT] + rest);
    assert Join(others) + [CLOSE_OBJECT] + rest == Join(others) + ([CLOSE_OBJECT] + rest);
  }

  lemma {:induction false} LastField(f: Entry<Value>, rest: Text, whole: Value)
    requires EncodeString(f.key).Ok? && Encode(f.item).Ok? && f.item < whole
    ensures ParseFields(Quote(f.key) + [COLON] + Encode(f.item).value + ([CLOSE_OBJECT] + rest))
         == Parsed([Entry(f.key, Normal(f.item))], rest)
    decreases whole, 0, 0
  {
    var more := [CLOSE_OBJECT] + rest;
    RoundTrip(f.item, more);
    assert more[1..] == rest;
    ParsesField(Quote(f.key) + [COLON] + Encode(f.item).value + more, f.key, Encode(f.item).value, Normal(f.item), more);
  }

  lemma {:induction false} MoreFields(f: Entry<Value>, others: Text, whole: Value)
    requires EncodeString(f.key).Ok? && Encode(f.item).Ok? && f.item < whole && ParseFields(others).Parsed?
    ensures ParseFields(Quote(f.key) + [COLON] + Encode(f.item).value + ([COMMA] + others))
         == Parsed([Entry(f.key, Normal(f.item))] + ParseFields(others).value, ParseFields(others).rest)
    decreases whole, 0, 0
  {
    var more := [COMMA] + others;
    RoundTrip(f.item, more);
    assert more[1..] == others;
    ParsesField(Quote(f.key) + [COLON] + Encode(f.item).value + more, f.key, Encode(f.item).value, Normal(f.item), more);
  }

  lemma {:induction false} FirstPart(fields: seq<Entry<Value>>)
    requires fields != [] && Collect(Items(EncodeFields(fields))).Ok?
    ensures EncodeString(fields[0].key) == Ok(Quote(fields[0].key)) && Encode(fields[0].item).Ok?
    ensures Collect(Items(EncodeFields(fields[1..]))).Ok?
    ensures Collect(Items(EncodeFields(fields))).value ==
      [Quote(fields[0].key) + [COLON] + Encode(fields[0].item).value] + Collect(Items(EncodeFields(fields[1..]))).value
  {
    var all := EncodeFields(fields);
    assert Items(all)[0] == EncodeField(fields[0]);
    assert Items(all)[1..] == Items(EncodeFields(fields[1..]));
  }

  // ---------------------------------------------------------------- what the text says

  /** Same value, same normal form. */
  lemma {:induction false} SameNormal(v: Value, w: Value)
    requires WellKeyed(v) && WellKeyed(w) && SameValue(v, w)
    ensures Normal(v) == Normal(w)
    decreases v, 1
  {
    match v
    case Arr(elements) => SameNormalElements(elements, w.elements);
    case Obj(fields) =>
      var a, b := NormalFields(fields), NormalFields(w.fields);
      forall i | 0 <= i < |fields| ensures a[i] in b {
        var j := SameField(v, fields, i, w.fields);
        NormalFieldAt(fields, i);
        NormalFieldAt(w.fields, j);
      }
      forall j | 0 <= j < |b| ensures b[j] in a {
        assert w.fields[j].key == b[j].key && HasKey(w.fields[j].key, fields);
        var i :| 0 <= i < |fields| && fields[i].key == w.fields[j].key;
        var k := SameField(v, fields, i, w.fields);
        NormalFieldAt(fields, i);
        NormalFieldAt(w.fields, j);
        assert k == j;
      }
      SortOrdered(a);
      SortOrdered(b);
      OrderedUnique(Sort(a), Sort(b));
    case _ =>
  }

  lemma {:induction false} SameField(v: Value, fields: seq<Entry<Value>>, i: nat, others: seq<Entry<Value>>) returns (j: nat)
    requires i < |fields| && HasField(fields[i], others) && fields[i].item < v
    requires WellKeyed(fields[i].item) && forall g <- others :: WellKeyed(g.item)
    ensures j < |others| && others[j].key == fields[i].key && Normal(others[j].item) == Normal(fields[i].item)
    decreases v, 0
  {
    j :| 0 <= j < |others| && others[j].key == fields[i].key && SameValue(fields[i].item, others[j].item);
    assert others[j] in others;
    SameNormal(fields[i].item, others[j].item);
  }

  lemma {:induction false} NormalFieldAt(fields: seq<Entry<Value>>, i: nat)
    requires i < |fields|
    ensures NormalFields(fields)[i] == Entry(fields[i].key, Normal(fields[i].item))
  {
    if i > 0 { NormalFieldAt(fields[1..], i - 1); }
  }

  lemma {:induction false} NormalElementAt(elements: seq<Value>, i: nat)
    requires i < |elements|
    ensures NormalElements(elements)[i] == Normal(elements[i])
  {
    if i > 0 { NormalElementAt(elements[1..], i - 1); }
  }

  lemma {:induction false} SameNormalElements(elements: seq<Value>, others: seq<Value>)
    requires |others| == |elements|
    requires forall i :: 0 <= i < |elements| ==> SameValue(elements[i], others[i])
    requires (forall x <- elements :: WellKeyed(x)) && (forall x <- others :: WellKeyed(x))
    ensures NormalElements(elements) == NormalElements(others)
    decreases elements, 0
  {
    if elements != [] {
      assert elements[0] in elements && others[0] in others;
      SameNormal(elements[0], others[0]);
      SameNormalElements(elements[1..], others[1..]);
    }
  }

  /** Two ordered lists with the same members are the same list. */
  lemma {:induction false} OrderedUnique<T(!new)>(a: seq<Entry<T>>, b: seq<Entry<T>>)
    requires Ordered(a) && Ordered(b) && forall e :: e in a <==> e in b
    ensures a == b
  {
    assert a != [] ==> a[0] in b;
    assert b != [] ==> b[0] in a;
    if a != [] && b != [] {
      OrderedHead(a, b);
      OrderedTail(a, b);
      OrderedTail(b, a);
      OrderedUnique(a[1..], b[1..]);
      assert a == [a[0]] + a[1..] && b == [b[0]] + b[1..];
    }
  }

  lemma {:induction false} OrderedHead<T(!new)>(a: seq<Entry<T>>, b: seq<Entry<T>>)
    requires Ordered(a) && Ordered(b) && a != [] && b != [] && forall e :: e in a <==> e in b
    ensures a[0] == b[0]
  {
    assert a[0] in b && b[0] in a;
    var i :| 0 <= i < |a| && a[i] == b[0];
    var j :| 0 <= j < |b| && b[j] == a[0];
    BeforeTotal(a[0].key, b[0].key);
  }

  lemma {:induction false} OrderedTail<T(!new)>(a: seq<Entry<T>>, b: seq<Entry<T>>)
    requires Ordered(a) && a != [] && b != [] && a[0] == b[0] && forall e :: e in a ==> e in b
    ensures forall e :: e in a[1..] ==> e in b[1..]
  {
    forall e | e in a[1..] ensures e in b[1..] {
      var i :| 0 <= i < |a[1..]| && a[1..][i] == e;
      BeforeTotal(a[0].key, a[i + 1].key);
      assert a[i + 1] in b;
      var j :| 0 <= j < |b| && b[j] == e;
      assert b[1..][j - 1] == e;
    }
  }

  lemma {:induction false} NormalSame(v: Value, w: Value)
    requires WellKeyed(v) && WellKeyed(w) && Normal(v) == Normal(w)
    ensures SameValue(v, w)
    decreases v
  {
    match v
    case Arr(elements) =>
      forall i | 0 <= i < |elements| ensures SameValue(elements[i], w.elements[i]) {
        NormalElementAt(elements, i);
        NormalElementAt(w.elements, i);
        assert elements[i] in elements && w.elements[i] in w.elements;
        NormalSame(elements[i], w.elements[i]);
      }
    case Obj(fields) =>
      forall i | 0 <= i < |fields| ensures HasField(fields[i], w.fields) {
        var j := NormalMember(fields, i, w.fields);
        assert fields[i] in fields && w.fields[j] in w.fields;
        NormalSame(fields[i].item, w.fields[j].item);
      }
      forall j | 0 <= j < |w.fields| ensures HasKey(w.fields[j].key, fields) {
        var i := NormalMember(w.fields, j, fields);
      }
    case _ =>
  }

  lemma {:induction false} NormalMember(fields: seq<Entry<Value>>, i: nat, others: seq<Entry<Value>>) returns (j: nat)
    requires i < |fields| && Sort(NormalFields(fields)) == Sort(NormalFields(others))
    ensures j < |others| && others[j].key == fields[i].key && Normal(others[j].item) == Normal(fields[i].item)
  {
    var a, b := NormalFields(fields), NormalFields(others);
    assert a[i] in a;
    assert a[i] in Sort(a);
    j :| 0 <= j < |b| && b[j] == a[i];
    NormalFieldAt(fields, i);
    NormalFieldAt(others, j);
  }

  /** Equal up to key order, and only then, do two values print alike.  The order in which keys
      were inserted never shows, not even in the problem reported. */
  lemma {:induction false} PrintsAlike(v: Value, w: Value)
    requires WellKeyed(v) && WellKeyed(w)
    ensures SameValue(v, w) ==> Encode(v) == Encode(w)
    ensures Encode(v).Ok? && Encode(v) == Encode(w) ==> SameValue(v, w)
  {
    if SameValue(v, w) {
      SameNormal(v, w);
      EncodeNormal(v);
      EncodeNormal(w);
    }
    if Encode(v).Ok? && Encode(v) == Encode(w) {
      RoundTrip(v, []);
      RoundTrip(w, []);
      NormalSame(v, w);
    }
  }

  /** What can be printed: well-formed strings and keys, and finite numbers other than minus zero
      that are integral only within the lossless range. */
  ghost predicate Printable(v: Value)
    decreases v
  {
    match v
    case Num(x) => x.Fraction? || (x.Integer? && -MAX_SAFE_INTEGER <= x.n <= MAX_SAFE_INTEGER)
    case Str(s) => exists points :: Scalars(points) && Utf16(points) == s
    case Arr(elements) => forall x <- elements :: Printable(x)
    case Obj(fields) => forall f <- fields ::
      Printable(f.item) && exists points :: Scalars(points) && Utf16(points) == f.key
    case _ => true
  }

  lemma {:induction false} CollectOk(parts: seq<Checked<Text>>)
    ensures Collect(parts).Ok? <==> forall p <- parts :: p.Ok?
  {
    if parts != [] {
      CollectOk(parts[1..]);
      assert parts == [parts[0]] + parts[1..];
    }
  }

  /** Printing succeeds on exactly the printable values. */
  lemma {:induction false} PrintsExactly(v: Value)
    ensures Encode(v).Ok? <==> Printable(v)
    decreases v
  {
    match v
    case Str(s) => ScanAcceptsExactlyUtf16(s);
    case Arr(elements) =>
      var parts := EncodeElements(elements);
      CollectOk(parts);
      forall i | 0 <= i < |elements| ensures parts[i] == Encode(elements[i]) { EncodedElementAt(elements, i); }
      forall x | x in elements ensures Encode(x).Ok? <==> Printable(x) { PrintsExactly(x); }
      if Encode(v).Ok? {
        forall x | x in elements ensures Encode(x).Ok? {
          var i :| 0 <= i < |elements| && elements[i] == x;
          assert parts[i] in parts;
        }
      } else {
        var p :| p in parts && !p.Ok?;
        var i :| 0 <= i < |parts| && parts[i] == p;
        assert elements[i] in elements;
      }
    case Obj(fields) => PrintsExactlyObject(v, fields);
    case _ =>
  }

  lemma {:induction false} PrintsExactlyObject(v: Value, fields: seq<Entry<Value>>)
    requires v == Obj(fields)
    ensures Encode(v).Ok? <==> Printable(v)
    decreases v, 0
  {
    var each := EncodeFields(fields);
    var sorted := Sort(each);
    CollectOk(Items(sorted));
    forall f | f in fields ensures EncodeField(f).Ok? <==>
        Printable(f.item) && exists points :: Scalars(points) && Utf16(points) == f.key {
      ScanAcceptsExactlyUtf16(f.key);
      PrintsExactly(f.item);
    }
    if Encode(v).Ok? {
      forall f | f in fields ensures EncodeField(f).Ok? {
        var i :| 0 <= i < |fields| && fields[i] == f;
        EncodedFieldAt(fields, i);
        assert each[i] in each;
        assert each[i] in sorted;
        var k :| 0 <= k < |sorted| && sorted[k] == each[i];
        assert Items(sorted)[k] in Items(sorted);
      }
    } else {
      var p :| p in Items(sorted) && !p.Ok?;
      var k :| 0 <= k < |sorted| && Items(sorted)[k] == p;
      assert sorted[k] in sorted;
      assert sorted[k] in each;
      var i :| 0 <= i < |each| && each[i] == sorted[k];
      EncodedFieldAt(fields, i);
      assert fields[i] in fields;
    }
  }

  lemma {:induction false} EncodedElementAt(elements: seq<Value>, i: nat)
    requires i < |elements|
    ensures EncodeElements(elements)[i] == Encode(elements[i])
  {
    if i > 0 { EncodedElementAt(elements[1..], i - 1); }
  }

  lemma {:induction false} EncodedFieldAt(fields: seq<Entry<Value>>, i: nat)
    requires i < |fields|
    ensures EncodeFields(fields)[i] == PrintedField(fields[i])
  {
    if i > 0 { EncodedFieldAt(fields[1..], i - 1); }
  }
}
