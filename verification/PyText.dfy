/** The parts of Python's `str` the service relies on: whitespace, strip, split into words. */
module PyText {

  /** `str.isspace` for one character; `str.strip` and the regex class `\s` use the same set. */
  predicate IsSpace(c: char) {
    || '\t' <= c <= '\r'
    || '\U{1C}' <= c <= ' '
    || c == '\U{85}' || c == '\U{A0}' || c == '\U{1680}'
    || '\U{2000}' <= c <= '\U{200A}'
    || c == '\U{2028}' || c == '\U{2029}' || c == '\U{202F}' || c == '\U{205F}' || c == '\U{3000}'
  }

  predicate Blank(s: string) {
    forall i | 0 <= i < |s| :: IsSpace(s[i])
  }

  /** No whitespace at either end. */
  predicate Stripped(s: string) {
    s == "" || (!IsSpace(s[0]) && !IsSpace(s[|s| - 1]))
  }

  /** The first position from `i` on that holds no whitespace. */
  function SkipFrom(s: string, i: nat): (n: nat)
    requires i <= |s|
    ensures i <= n <= |s| && (forall k | i <= k < n :: IsSpace(s[k]))
    ensures n == |s| || !IsSpace(s[n])
    decreases |s| - i
  {
    if i == |s| || !IsSpace(s[i]) then i else SkipFrom(s, i + 1)
  }

  /** The end of what is left of `s[..j]` without the whitespace at its end. */
  function SkipBack(s: string, j: nat): (n: nat)
    requires j <= |s|
    ensures n <= j && (forall k | n <= k < j :: IsSpace(s[k]))
    ensures n == 0 || !IsSpace(s[n - 1])
  {
    if j == 0 || !IsSpace(s[j - 1]) then j else SkipBack(s, j - 1)
  }

  /** How many whitespace characters a text starts with. */
  function Leading(s: string): (n: nat)
    ensures n <= |s|
  {
    SkipFrom(s, 0)
  }

  /** Where the whitespace at the end of a text starts. */
  function Trailing(s: string): (n: nat)
    ensures n <= |s|
  {
    SkipBack(s, |s|)
  }

  function LStrip(s: string): string {
    s[Leading(s)..]
  }

  function RStrip(s: string): string {
    s[..Trailing(s)]
  }

  function Strip(s: string): (r: string)
    ensures Stripped(r) && |r| <= |s|
    ensures r == "" <==> Blank(s)
  {
    var l := LStrip(s);
    assert l != "" ==> l[0] == s[Leading(s)];
    RStrip(l)
  }

  /** Stripping leaves a stripped text alone. */
  lemma StripOfStripped(s: string)
    requires Stripped(s)
    ensures LStrip(s) == s && RStrip(s) == s && Strip(s) == s
  {}

  /** Stripping takes off the whitespace around a stripped text. */
  lemma StripOfPadded(x: string, m: string, y: string)
    requires Blank(x) && Stripped(m) && Blank(y)
    ensures Strip(x + m + y) == m
  {
    var s := x + m + y;
    if m == "" {
      assert Blank(s);
    } else {
      assert s[|x|] == m[0] && forall k | 0 <= k < |x| :: s[k] == x[k];
      assert Leading(s) == |x| && LStrip(s) == m + y;
      assert (m + y)[|m| - 1] == m[|m| - 1] && forall k | |m| <= k < |m + y| :: (m + y)[k] == y[k - |m|];
      assert Trailing(m + y) == |m|;
    }
  }

  /** Where the stripped form of a text is not blank, the two halves of stripping find it from either side. */
  lemma HalfStrips(x: string, m: string, y: string)
    requires Blank(x) && Stripped(m) && m != "" && Blank(y)
    ensures LStrip(x + m + y) == m + y && RStrip(x + m + y) == x + m
  {
    var s := x + m + y;
    assert s[|x|] == m[0] && forall k | 0 <= k < |x| :: s[k] == x[k];
    assert s[|x + m| - 1] == m[|m| - 1] && forall k | |x + m| <= k < |s| :: s[k] == y[k - |x + m|];
    assert Leading(s) == |x| && Trailing(s) == |x + m|;
  }

  /** A text is its stripped form with whitespace around it. */
  lemma Padding(s: string) returns (x: string, y: string)
    ensures Blank(x) && Blank(y) && s == x + Strip(s) + y
  {
    var l := LStrip(s);
    x, y := s[..Leading(s)], l[Trailing(l)..];
    assert s == x + l && l == Strip(s) + y;
  }

  lemma BlankStrips(s: string)
    requires Blank(s)
    ensures LStrip(s) == "" && RStrip(s) == "" && Strip(s) == ""
  {}

  /** Two texts with one space at the seam: a blank one leaves no trace. */
  lemma StripOfSeam(a: string, b: string)
    ensures Strip(RStrip(a) + " " + LStrip(b))
         == if Blank(a) then Strip(b) else if Blank(b) then Strip(a) else Strip(a) + " " + Strip(b)
  {
    var xa, ya := Padding(a);
    var xb, yb := Padding(b);
    if Blank(a) { BlankStrips(a); } else { HalfStrips(xa, Strip(a), ya); }
    if Blank(b) { BlankStrips(b); } else { HalfStrips(xb, Strip(b), yb); }
    Seam(if Blank(a) then "" else xa, Strip(a), Strip(b), if Blank(b) then "" else yb);
  }

  lemma Seam(x: string, a: string, b: string, y: string)
    requires Blank(x) && Stripped(a) && Stripped(b) && Blank(y) && (a == "" ==> x == "") && (b == "" ==> y == "")
    ensures Strip(x + a + " " + (b + y)) == if a == "" then b else if b == "" then a else a + " " + b
  {
    if a == "" {
      assert x + a + " " + (b + y) == " " + b + y;
      StripOfPadded(" ", b, y);
    } else if b == "" {
      assert x + a + " " + (b + y) == x + a + " ";
      StripOfPadded(x, a, " ");
    } else {
      var m := a + " " + b;
      assert m[0] == a[0] && m[|m| - 1] == b[|b| - 1];
      assert x + a + " " + (b + y) == x + m + y;
      StripOfPadded(x, m, y);
    }
  }

  /** `str.lower` in the ASCII range. */
  function LowerChar(c: char): char {
    if 'A' <= c <= 'Z' then ((c as int) + 32) as char else c
  }

  function Lower(s: string): (r: string)
    ensures |r| == |s| && forall i | 0 <= i < |s| :: r[i] == LowerChar(s[i])
  {
    if s == "" then "" else [LowerChar(s[0])] + Lower(s[1..])
  }

  /** `s.split()`: the maximal runs of non-whitespace characters, in order. */
  function Words(s: string): (ws: seq<string>)
    ensures s != "" && !IsSpace(s[0]) ==> ws != []
  {
    if s == "" then []
    else if IsSpace(s[0]) then Words(s[1..])
    else if |s| == 1 || IsSpace(s[1]) then [s[..1]] + Words(s[1..])
    else
      var rest := Words(s[1..]);
      [s[..1] + rest[0]] + rest[1..]
  }

  /** Words never straddle a seam that has whitespace on one side. */
  lemma {:induction false} WordsAppend(a: string, b: string)
    requires a == "" || b == "" || IsSpace(a[|a| - 1]) || IsSpace(b[0])
    ensures Words(a + b) == Words(a) + Words(b)
  {
    if a == "" {
      assert a + b == b;
    } else if b == "" {
      assert a + b == a;
    } else {
      assert (a + b)[1..] == a[1..] + b && (a + b)[..1] == a[..1];
      WordsAppend(a[1..], b);
    }
  }

  lemma {:induction false} WordsOfBlank(s: string)
    requires Blank(s)
    ensures Words(s) == []
    decreases |s|
  {
    if s != "" { WordsOfBlank(s[1..]); }
  }

  lemma WordsOfLStrip(s: string)
    ensures Words(LStrip(s)) == Words(s)
  {
    var n := Leading(s);
    assert s == s[..n] + s[n..];
    WordsAppend(s[..n], s[n..]);
    WordsOfBlank(s[..n]);
  }

  lemma WordsOfRStrip(s: string)
    ensures Words(RStrip(s)) == Words(s)
  {
    var n := Trailing(s);
    assert s == s[..n] + s[n..];
    WordsAppend(s[..n], s[n..]);
    WordsOfBlank(s[n..]);
  }

  lemma WordsOfStrip(s: string)
    ensures Words(Strip(s)) == Words(s)
  {
    WordsOfLStrip(s);
    WordsOfRStrip(LStrip(s));
  }

  /** Without whitespace at the seam, the last word of one text and the first of the other become one. */
  lemma {:induction false} WordsJoin(a: string, b: string)
    requires a != "" && b != "" && !IsSpace(a[|a| - 1]) && !IsSpace(b[0])
    ensures |Words(a + b)| == |Words(a)| + |Words(b)| - 1
  {
    assert (a + b)[1..] == a[1..] + b && (a + b)[..1] == a[..1];
    if |a| == 1 {
      assert a[1..] == "" && a[1..] + b == b;
    } else {
      WordsJoin(a[1..], b);
    }
  }

  /** A run of non-whitespace characters lies inside one word. */
  lemma {:induction false} RunInWord(s: string, a: nat, b: nat)
    requires a < b <= |s| && forall i | a <= i < b :: !IsSpace(s[i])
    ensures exists w | w in Words(s) :: |w| >= b - a
    ensures a == 0 ==> Words(s) != [] && |Words(s)[0]| >= b
    decreases |s|
  {
    var t := s[1..];
    if a > 0 {
      RunInWord(t, a - 1, b - 1);
      var w :| w in Words(t) && |w| >= b - a;
      if !IsSpace(s[0]) && |s| > 1 && !IsSpace(s[1]) {
        if w != Words(t)[0] { assert w in Words(t)[1..]; } else { assert Words(s)[0] == s[..1] + w; }
      }
    } else if b > 1 {
      RunInWord(t, 0, b - 1);
      assert Words(s)[0] == s[..1] + Words(t)[0];
    }
  }

  /** No word is longer than its text. */
  lemma {:induction false} WordsFit(s: string)
    ensures forall w | w in Words(s) :: |w| <= |s|
    decreases |s|
  {
    if s != "" { WordsFit(s[1..]); }
  }
}
