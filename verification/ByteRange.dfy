/**
 * Byte ranges of the source audio (app/services/jdr/batch/router.py) against section 14.1.2 of
 * RFC 9110: reading the Range header, and streaming what it selects.
 */
module ByteRange {
  import opened Wrappers
  import opened PyText

  // ----- Python's int() of a text -------------------------------------------------------

  /** Longer numbers are refused by the interpreter's default limit. */
  const MAX_STR_DIGITS: nat := 4300

  predicate IsDigit(c: char) {
    '0' <= c <= '9'
  }

  /** Digits with single underscores between them. */
  predicate IsNumeral(s: string) {
    && s != "" && IsDigit(s[0]) && IsDigit(s[|s| - 1])
    && (forall i | 0 <= i < |s| :: IsDigit(s[i]) || s[i] == '_')
    && (forall i, k | 0 <= i < |s| && 0 <= k < |s| && k == i + 1 :: IsDigit(s[i]) || IsDigit(s[k]))
  }

  function DigitCount(s: string): nat {
    if s == "" then 0 else (if s[0] == '_' then 0 else 1) + DigitCount(s[1..])
  }

  /** The number read so far is `before`. */
  function Number(s: string, before: nat): nat {
    if s == "" then before
    else Number(s[1..], if IsDigit(s[0]) then before * 10 + (s[0] as nat - '0' as nat) else before)
  }

  predicate IsSigned(t: string) {
    t != "" && (t[0] == '+' || t[0] == '-')
  }

  function Unsigned(body: string): Option<nat> {
    if !IsNumeral(body) || DigitCount(body) > MAX_STR_DIGITS then None else Some(Number(body, 0))
  }

  function Int(s: string): Option<int> {
    var t := Strip(s);
    var value := Unsigned(if IsSigned(t) then t[1..] else t);
    if value.None? then None else Some(if IsSigned(t) && t[0] == '-' then 0 - value.value else value.value)
  }

  // ----- The header ---------------------------------------------------------------------

  const UNIT := "bytes="

  /** The first position of `c`, or the length of the text. */
  function Find(s: string, c: char): (i: nat)
    ensures i <= |s| && (i < |s| ==> s[i] == c) && (forall k | 0 <= k < i :: s[k] != c)
  {
    if s == "" || s[0] == c then 0 else 1 + Find(s[1..], c)
  }

  /** The bounds a range asks for, before they are compared with the size; None when malformed. */
  function LastBytes(suffix: Option<int>, size: int): Option<(int, int)> {
    if suffix.None? || suffix.value <= 0 then None
    else Some((if size - suffix.value > 0 then size - suffix.value else 0, size - 1))
  }

  function Between(start: Option<int>, end: Option<int>): Option<(int, int)> {
    if start.None? || end.None? then None else Some((start.value, end.value))
  }

  function Asked(startRaw: string, endRaw: string, size: int): Option<(int, int)> {
    if startRaw == "" then LastBytes(Int(endRaw), size)
    else Between(Int(startRaw), if endRaw == "" then Some(size - 1) else Int(endRaw))
  }

  type Answer = Result<Option<(int, int)>, string>

  const INVALID := "Invalid byte range."

  function Bounded(asked: Option<(int, int)>, size: int): (r: Answer)
    ensures r.Success? ==> r.value.Some? && 0 <= r.value.value.0 <= r.value.value.1 < size
  {
    if asked.None? then Failure(INVALID)
    else
      var (start, end) := asked.value;
      if start < 0 || start >= size || end < start then Failure(INVALID)
      else Success(Some((start, if end < size - 1 then end else size - 1)))
  }

  /** What stands after the unit. */
  function ParseSpec(spec: string, size: int): Answer {
    var dash := Find(spec, '-');
    if ',' in spec || dash == |spec| then Failure(INVALID)
    else Bounded(Asked(spec[..dash], spec[dash + 1..], size), size)
  }

  /** An error is answered with status 416; no header, or a blank one, selects the whole file. */
  function ParseRangeHeader(header: Option<string>, size: int): (r: Answer)
    ensures r.Success? && r.value.Some? ==> 0 <= r.value.value.0 <= r.value.value.1 < size
    ensures r.Success? && r.value.None? <==> header.None? || Blank(header.value)
  {
    if header.None? then Success(None)
    else
      var value := Strip(header.value);
      if value == "" then Success(None)
      else if size <= 0 || !(UNIT <= value) then Failure(INVALID)
      else ParseSpec(Strip(value[|UNIT|..]), size)
  }

  // ----- The standard -------------------------------------------------------------------

  /** One range of RFC 9110, section 14.1.2. */
  datatype RangeSpec = FromTo(first: nat, last: nat) | From(first: nat) | Suffix(length: nat)

  function Digits(n: nat): (s: string)
    ensures s != "" && forall i | 0 <= i < |s| :: IsDigit(s[i])
  {
    var d := ('0' as int + n % 10) as char;
    if n < 10 then [d] else Digits(n / 10) + [d]
  }

  /** What stands before and after the dash. */
  function Parts(spec: RangeSpec): (string, string) {
    match spec
    case FromTo(a, b) => (Digits(a), Digits(b))
    case From(a) => (Digits(a), "")
    case Suffix(n) => ("", Digits(n))
  }

  function Printed(spec: RangeSpec): string {
    Parts(spec).0 + ['-'] + Parts(spec).1
  }

  /** The positions a range selects from a representation; None when invalid or unsatisfiable. */
  function Selected(spec: RangeSpec, size: nat): Option<(int, int)> {
    match spec
    case FromTo(a, b) =>
      if b < a || a >= size then None else Some((a, if b < size then b else size - 1))
    case From(a) => if a >= size then None else Some((a, size - 1))
    case Suffix(n) =>
      if n == 0 || size == 0 then None else Some((if n < size then size - n else 0, size - 1))
  }

  /** Every number of the range is short enough for the interpreter to read. */
  predicate Readable(spec: RangeSpec) {
    match spec
    case FromTo(a, b) => |Digits(a)| <= MAX_STR_DIGITS && |Digits(b)| <= MAX_STR_DIGITS
    case From(a) => |Digits(a)| <= MAX_STR_DIGITS
    case Suffix(n) => |Digits(n)| <= MAX_STR_DIGITS
  }

  // ----- Printed numbers are read back --------------------------------------------------

  lemma {:induction false} NumberSnoc(s: string, c: char, before: nat)
    requires IsDigit(c)
    ensures Number(s + [c], before) == Number(s, before) * 10 + (c as nat - '0' as nat)
    decreases s
  {
    if s == "" {
      assert (s + [c])[1..] == "";
    } else {
      assert (s + [c])[1..] == s[1..] + [c];
      NumberSnoc(s[1..], c, if IsDigit(s[0]) then before * 10 + (s[0] as nat - '0' as nat) else before);
    }
  }

  lemma {:induction false} NumberOfDigits(n: nat)
    ensures Number(Digits(n), 0) == n
  {
    var d := ('0' as int + n % 10) as char;
    if n < 10 {
      assert [d][1..] == "";
    } else {
      NumberOfDigits(n / 10);
      NumberSnoc(Digits(n / 10), d, 0);
    }
  }

  lemma {:induction false} AllDigitsCount(s: string)
    requires forall i | 0 <= i < |s| :: IsDigit(s[i])
    ensures DigitCount(s) == |s|
  {
    if s != "" { AllDigitsCount(s[1..]); }
  }

  lemma UnsignedDigits(s: string)
    requires s != "" && forall i | 0 <= i < |s| :: IsDigit(s[i])
    ensures Unsigned(s) == if |s| <= MAX_STR_DIGITS then Some(Number(s, 0)) else None
  {
    AllDigitsCount(s);
  }

  lemma IntOfNumeral(s: string)
    requires s != "" && forall i | 0 <= i < |s| :: IsDigit(s[i])
    ensures Int(s) == if |s| <= MAX_STR_DIGITS then Some(Number(s, 0)) else None
  {
    assert !IsSpace(s[0]) && !IsSpace(s[|s| - 1]) && !IsSigned(s);
    StripOfStripped(s);
    UnsignedDigits(s);
  }

  lemma {:induction false} IntOfDigits(n: nat)
    ensures Int(Digits(n)) == if |Digits(n)| <= MAX_STR_DIGITS then Some(n) else None
  {
    IntOfNumeral(Digits(n));
    NumberOfDigits(n);
  }

  // ----- What else counts as a number ---------------------------------------------------

  lemma {:induction false} NumberAppend(a: string, b: string, before: nat)
    ensures Number(a + b, before) == Number(b, Number(a, before))
    ensures DigitCount(a + b) == DigitCount(a) + DigitCount(b)
    decreases a
  {
    if a == "" {
      assert a + b == b;
    } else {
      assert (a + b)[1..] == a[1..] + b;
      NumberAppend(a[1..], b, if IsDigit(a[0]) then before * 10 + (a[0] as nat - '0' as nat) else before);
    }
  }

  /** A text of digits after a sign. */
  lemma SignedNumeral(sign: char, s: string)
    requires sign in ['+', '-'] && s != "" && AllDigits(s)
    ensures Int([sign] + s) == if Unsigned(s).None? then None
                               else if sign == '-' then Some(0 - Unsigned(s).value) else Some(Unsigned(s).value)
  {
    var t := [sign] + s;
    assert !IsSpace(t[0]) && t[|t| - 1] == s[|s| - 1] && !IsSpace(t[|t| - 1]);
    StripOfStripped(t);
    assert t[1..] == s;
  }

  /** A sign in front of a number is read as Python's `int` does. */
  lemma SignsAreRead(n: nat)
    requires |Digits(n)| <= MAX_STR_DIGITS
    ensures Int(['+'] + Digits(n)) == Some(n)
    ensures Int(['-'] + Digits(n)) == Some(0 - n)
  {
    var s := Digits(n);
    assert Unsigned(s) == Some(n) by {
      NumberOfDigits(n);
      UnsignedDigits(s);
    }
    SignedNumeral('+', s);
    SignedNumeral('-', s);
  }

  lemma UnderscoredAt(a: string, b: string, i: nat)
    requires AllDigits(a) && AllDigits(b) && i <= |a| + |b|
    ensures var s := a + ['_'] + b; if i == |a| then s[i] == '_' else IsDigit(s[i])
  {}

  lemma UnderscoredIsNumeral(a: string, b: string)
    requires a != "" && b != "" && AllDigits(a) && AllDigits(b)
    ensures IsNumeral(a + ['_'] + b)
  {
    var s := a + ['_'] + b;
    forall i | 0 <= i < |s| ensures if i == |a| then s[i] == '_' else IsDigit(s[i]) { UnderscoredAt(a, b, i); }
  }

  lemma NumeralIsStripped(s: string)
    requires IsNumeral(s)
    ensures Strip(s) == s && !IsSigned(s)
  {
    StripOfStripped(s);
  }

  lemma UnderscoredNumber(a: string, b: string)
    ensures Number(a + ['_'] + b, 0) == Number(a + b, 0) && DigitCount(a + ['_'] + b) == DigitCount(a + b)
  {
    NumberAppend(a + ['_'], b, 0);
    NumberAppend(a, ['_'], 0);
    NumberAppend(a, b, 0);
    assert ['_'][1..] == "";
  }

  /** And an underscore between digits does not count. */
  lemma UnderscoresAreRead(a: string, b: string)
    requires a != "" && b != "" && AllDigits(a) && AllDigits(b)
    ensures Int(a + ['_'] + b) == Int(a + b)
  {
    UnderscoredIsNumeral(a, b);
    NumeralIsStripped(a + ['_'] + b);
    UnderscoredNumber(a, b);
    IntOfNumeral(a + b);
    AllDigitsCount(a + b);
  }

  lemma {:induction false} FindAfter(a: string, b: string, c: char)
    requires c !in a
    ensures Find(a + [c] + b, c) == |a|
  {
    if a == "" {
      assert a + [c] + b == [c] + b;
    } else {
      assert (a + [c] + b)[1..] == a[1..] + [c] + b;
      FindAfter(a[1..], b, c);
    }
  }

  predicate AllDigits(s: string) {
    forall i | 0 <= i < |s| :: IsDigit(s[i])
  }

  lemma {:induction false} SpecSplits(a: string, b: string, size: int)
    requires AllDigits(a) && AllDigits(b)
    ensures ParseSpec(a + ['-'] + b, size) == Bounded(Asked(a, b, size), size)
  {
    var spec := a + ['-'] + b;
    FindAfter(a, b, '-');
    assert spec[..|a|] == a && spec[|a| + 1..] == b;
    assert ',' !in spec;
  }

  lemma {:induction false} UnitComesOff(spec: string, size: int)
    requires spec != "" && !IsSpace(spec[0]) && !IsSpace(spec[|spec| - 1])
    ensures ParseRangeHeader(Some(UNIT + spec), size) == if size <= 0 then Failure(INVALID) else ParseSpec(spec, size)
  {
    var value := UNIT + spec;
    assert value[0] == 'b' && value[|value| - 1] == spec[|spec| - 1];
    StripOfStripped(value);
    assert value[|UNIT|..] == spec;
    StripOfStripped(spec);
  }

  /** The header of a range splits back into its two numbers. */
  lemma {:induction false} HeaderSplits(a: string, b: string, size: int)
    requires AllDigits(a) && AllDigits(b)
    ensures ParseRangeHeader(Some(UNIT + (a + ['-'] + b)), size)
         == if size <= 0 then Failure(INVALID) else Bounded(Asked(a, b, size), size)
  {
    var spec := a + ['-'] + b;
    assert spec[0] == if a == "" then '-' else a[0];
    assert spec[|spec| - 1] == if b == "" then '-' else b[|b| - 1];
    UnitComesOff(spec, size);
    SpecSplits(a, b, size);
  }

  /** The answer the standard asks for, where the interpreter can read the numbers. */
  function Expected(spec: RangeSpec, size: nat): Answer {
    if Readable(spec) && Selected(spec, size).Some? then Success(Selected(spec, size)) else Failure(INVALID)
  }

  /** The number an `n` in a header is read as. */
  function ReadBack(n: nat): Option<int> {
    if |Digits(n)| <= MAX_STR_DIGITS then Some(n) else None
  }

  lemma NumbersFollow(a: nat, b: nat, size: nat)
    requires size > 0
    ensures Bounded(Between(ReadBack(a), ReadBack(b)), size) == Expected(FromTo(a, b), size)
    ensures Bounded(Between(ReadBack(a), Some(size - 1)), size) == Expected(From(a), size)
    ensures Bounded(LastBytes(ReadBack(a), size), size) == Expected(Suffix(a), size)
  {}

  lemma AskedInDigits(a: string, b: string, va: Option<int>, vb: Option<int>, size: int)
    requires a != "" && b != "" && Int(a) == va && Int(b) == vb
    ensures Asked(a, b, size) == Between(va, vb)
    ensures Asked(a, "", size) == Between(va, Some(size - 1))
    ensures Asked("", a, size) == LastBytes(va, size)
  {}

  lemma NoSize(spec: RangeSpec)
    ensures Expected(spec, 0) == Failure(INVALID)
  {}

  /** What the two parts are read as. */
  lemma PartsAsk(spec: RangeSpec, size: nat)
    requires size > 0
    ensures Bounded(Asked(Parts(spec).0, Parts(spec).1, size), size) == Expected(spec, size)
  {
    match spec
    case FromTo(a, b) =>
      IntOfDigits(a);
      IntOfDigits(b);
      AskedInDigits(Digits(a), Digits(b), ReadBack(a), ReadBack(b), size);
      NumbersFollow(a, b, size);
    case From(a) =>
      IntOfDigits(a);
      AskedInDigits(Digits(a), Digits(a), ReadBack(a), ReadBack(a), size);
      NumbersFollow(a, a, size);
    case Suffix(n) =>
      IntOfDigits(n);
      AskedInDigits(Digits(n), Digits(n), ReadBack(n), ReadBack(n), size);
      NumbersFollow(n, n, size);
  }

  lemma PartsAreDigits(spec: RangeSpec)
    ensures AllDigits(Parts(spec).0) && AllDigits(Parts(spec).1)
  {}

  /**
   * Main theorem: a range of the standard, printed after the unit, is answered as section
   * 14.1.2 selects, for every size; only numbers too long to be read are refused.
   */
  lemma RangesFollowTheStandard(spec: RangeSpec, size: nat)
    ensures ParseRangeHeader(Some(UNIT + Printed(spec)), size) == Expected(spec, size)
  {
    PartsAreDigits(spec);
    HeaderSplits(Parts(spec).0, Parts(spec).1, size);
    if size > 0 { PartsAsk(spec, size); } else { NoSize(spec); }
  }

  /** The bounds printed for a download come back, the last one cut to the file. */
  lemma {:induction false} PrintedBoundsComeBack(a: nat, b: nat, size: nat)
    requires a < size && a <= b
    ensures Readable(FromTo(a, b)) <==>
            ParseRangeHeader(Some(UNIT + Printed(FromTo(a, b))), size) == Success(Some((a, if b < size - 1 then b else size - 1)))
  {
    RangesFollowTheStandard(FromTo(a, b), size);
  }

  // ----- Range units --------------------------------------------------------------------

  /**
   * What sections 14.1 and 14.2 of RFC 9110 prescribe for one range of a unit, which is named
   * in any case: a range of bytes is answered, and a field with another unit is ignored.
   */
  function Prescribed(unit: string, spec: RangeSpec, size: nat): Answer {
    if Lower(unit) != "bytes" then Success(None)
    else if Selected(spec, size).Some? then Success(Selected(spec, size))
    else Failure(INVALID)
  }

  lemma OtherUnit(unit: string, rest: string)
    requires |unit| == 5 && unit != "bytes"
    ensures !(UNIT <= unit + "=" + rest)
  {
    var header := unit + "=" + rest;
    assert header[..5] == unit;
  }

  lemma HeaderIsStripped(unit: string, spec: RangeSpec)
    requires unit != "" && !IsSpace(unit[0])
    ensures Strip(unit + "=" + Printed(spec)) == unit + "=" + Printed(spec)
  {
    var header := unit + "=" + Printed(spec);
    PrintedEnds(spec);
    assert header[0] == unit[0] && header[|header| - 1] == Printed(spec)[|Printed(spec)| - 1];
    StripOfStripped(header);
  }

  /** The unit in capitals, or some of it, is refused. */
  lemma CapitalsAreRefused(unit: string, spec: RangeSpec, size: int)
    requires Lower(unit) == "bytes" && unit != "bytes"
    ensures ParseRangeHeader(Some(unit + "=" + Printed(spec)), size) == Failure(INVALID)
  {
    LowerStarts(unit);
    HeaderIsStripped(unit, spec);
    OtherUnit(unit, Printed(spec));
  }

  lemma PrintedEnds(spec: RangeSpec)
    ensures var p := Printed(spec); p != "" && !IsSpace(p[|p| - 1])
  {
    PartsAreDigits(spec);
    var a, b := Parts(spec).0, Parts(spec).1;
    assert Printed(spec)[|Printed(spec)| - 1] == if b == "" then '-' else b[|b| - 1];
  }

  lemma LowerStarts(unit: string)
    requires Lower(unit) == "bytes"
    ensures |unit| == 5 && !IsSpace(unit[0])
  {
    assert LowerChar(unit[0]) == "bytes"[0] == 'b';
  }

  lemma UnitIsBytes(unit: string, rest: string)
    requires unit == "bytes"
    ensures unit + "=" + rest == UNIT + rest && Lower(unit) == unit
  {
    LowerOfUnit();
  }

  /** With the unit as the service writes it. */
  lemma LowerCaseFollowsIff(spec: RangeSpec, size: nat)
    ensures ParseRangeHeader(Some(UNIT + Printed(spec)), size)
         == (if Selected(spec, size).Some? then Success(Selected(spec, size)) else Failure(INVALID))
       <==> Selected(spec, size).None? || Readable(spec)
  {
    RangesFollowTheStandard(spec, size);
  }

  /** No field with a unit is ignored. */
  lemma NeverIgnored(unit: string, spec: RangeSpec, size: nat)
    ensures ParseRangeHeader(Some(unit + "=" + Printed(spec)), size) != Success(None)
  {
    var header := unit + "=" + Printed(spec);
    assert header[|unit|] == '=' && !IsSpace('=');
  }

  /**
   * A range is answered as prescribed exactly for the unit in lower case and numbers that can
   * be read, or for that unit in any case when the range selects nothing.
   */
  lemma UnitFollowsTheStandardIff(unit: string, spec: RangeSpec, size: nat)
    ensures ParseRangeHeader(Some(unit + "=" + Printed(spec)), size) == Prescribed(unit, spec, size)
       <==> Lower(unit) == "bytes" && (Selected(spec, size).None? || (unit == "bytes" && Readable(spec)))
  {
    if unit == "bytes" {
      UnitIsBytes(unit, Printed(spec));
      LowerCaseFollowsIff(spec, size);
    } else if Lower(unit) == "bytes" {
      CapitalsAreRefused(unit, spec, size);
    } else {
      NeverIgnored(unit, spec, size);
    }
  }

  lemma LowerOfUnit()
    ensures Lower("bytes") == "bytes"
  {}

  // ----- Streaming ----------------------------------------------------------------------

  type Byte = bv8

  const STREAM_CHUNK_SIZE: nat := 65536

  function Flat(chunks: seq<seq<Byte>>): seq<Byte> {
    if chunks == [] then [] else chunks[0] + Flat(chunks[1..])
  }

  lemma {:induction false} FlatSnoc(chunks: seq<seq<Byte>>, last: seq<Byte>)
    ensures Flat(chunks + [last]) == Flat(chunks) + last
  {
    if chunks == [] {
      assert (chunks + [last])[1..] == [];
    } else {
      assert (chunks + [last])[1..] == chunks[1..] + [last];
      FlatSnoc(chunks[1..], last);
    }
  }

  /** `read(n)` at a position: empty only at the end of the file, but possibly shorter than asked. */
  function Read(file: seq<Byte>, position: nat, n: nat, willing: nat): (r: seq<Byte>)
    ensures |r| <= n && (r == [] <==> n == 0 || position >= |file|)
    ensures position <= |file| ==> position + |r| <= |file| && r == file[position..position + |r|]
  {
    if n == 0 || position >= |file| then []
    else
      var most := if |file| - position < n then |file| - position else n;
      var got := if willing < 1 then 1 else if willing < most then willing else most;
      file[position..position + got]
  }

  predicate Sized(chunks: seq<seq<Byte>>) {
    forall i | 0 <= i < |chunks| :: 1 <= |chunks[i]| <= STREAM_CHUNK_SIZE
  }

  /** The chunks so far are the bytes from `start` to `position`; none if the range starts past the end. */
  ghost predicate Streamed(chunks: seq<seq<Byte>>, file: seq<Byte>, start: nat, position: nat) {
    if start > |file| then chunks == [] && position == start
    else start <= position <= |file| && Flat(chunks) == file[start..position]
  }

  lemma StreamGrows(chunks: seq<seq<Byte>>, file: seq<Byte>, start: nat, position: nat, chunk: seq<Byte>)
    requires Streamed(chunks, file, start, position) && Sized(chunks)
    requires position + |chunk| <= |file| && chunk == file[position..position + |chunk|] && 1 <= |chunk| <= STREAM_CHUNK_SIZE
    ensures Streamed(chunks + [chunk], file, start, position + |chunk|) && Sized(chunks + [chunk])
  {
    FlatSnoc(chunks, chunk);
    assert file[start..position] + chunk == file[start..position + |chunk|];
  }

  /**
   * The stream of a range: `willing(k)` is how much the `k`th read is willing to return. The
   * chunks put together are exactly the bytes of the range, as far as the file has them.
   */
  method IterFileRange(file: seq<Byte>, start: nat, length: nat, willing: nat -> nat) returns (chunks: seq<seq<Byte>>)
    ensures start + length <= |file| ==> Flat(chunks) == file[start..start + length]
    ensures start <= |file| < start + length ==> Flat(chunks) == file[start..]
    ensures |file| < start ==> chunks == []
    ensures Sized(chunks)
  {
    chunks := [];
    var remaining := length;
    var position := start;
    while remaining > 0
      invariant 0 <= remaining <= length && position == start + (length - remaining)
      invariant Streamed(chunks, file, start, position) && Sized(chunks)
      decreases remaining
    {
      var chunk := Read(file, position, if STREAM_CHUNK_SIZE < remaining then STREAM_CHUNK_SIZE else remaining, willing(|chunks|));
      if chunk == [] {
        break;
      }
      StreamGrows(chunks, file, start, position, chunk);
      remaining := remaining - |chunk|;
      position := position + |chunk|;
      chunks := chunks + [chunk];
    }
  }

  /** A request that is accepted is answered with the bytes it asks for, and as many as announced. */
  method ServeRange(file: seq<Byte>, header: string, willing: nat -> nat) returns (r: Option<(int, seq<Byte>)>)
    ensures var parsed := ParseRangeHeader(Some(header), |file|);
            if parsed.Failure? || parsed.value.None? then r.None?
            else var (start, end) := parsed.value.value;
                 r.Some? && r.value.1 == file[start..end + 1] && r.value.0 == |r.value.1| == end - start + 1
  {
    var parsed := ParseRangeHeader(Some(header), |file|);
    if parsed.Failure? || parsed.value.None? { return None; }
    var (start, end) := parsed.value.value;
    var contentLength := end - start + 1;
    var chunks := IterFileRange(file, start, contentLength, willing);
    r := Some((contentLength, Flat(chunks)));
  }
}
