/** The JavaScript string built-ins the components rely on, over an explicit character set:
    the regular-expression class `\s` (WhiteSpace and LineTerminator of ECMAScript),
    `String.prototype.trim`, `replace(/\s+/g, '_')` and `Number.prototype.toString`
    for non-negative integers. */
module Text {

  /** ECMAScript WhiteSpace and LineTerminator code points: what `\s` matches and what `trim` strips. */
  const Whitespace: set<char> := {
    '\t', '\n', '\U{000B}', '\U{000C}', '\r', ' ', '\U{00A0}', '\U{1680}',
    '\U{2000}', '\U{2001}', '\U{2002}', '\U{2003}', '\U{2004}', '\U{2005}', '\U{2006}',
    '\U{2007}', '\U{2008}', '\U{2009}', '\U{200A}',
    '\U{2028}', '\U{2029}', '\U{202F}', '\U{205F}', '\U{3000}', '\U{FEFF}'
  }

  predicate IsWhitespace(c: char) {
    c in Whitespace
  }

  predicate NoWhitespace(s: string) {
    forall i :: 0 <= i < |s| ==> !IsWhitespace(s[i])
  }

  lemma NoWhitespaceConcat(a: string, b: string)
    requires NoWhitespace(a) && NoWhitespace(b)
    ensures NoWhitespace(a + b)
  {
    forall i | 0 <= i < |a + b| ensures !IsWhitespace((a + b)[i]) {
      if i >= |a| {
        assert (a + b)[i] == b[i - |a|];
      }
    }
  }

  predicate AllWhitespace(s: string) {
    forall i :: 0 <= i < |s| ==> IsWhitespace(s[i])
  }

  /** `s` without its leading whitespace run. */
  function TrimStart(s: string): (r: string)
    ensures |r| <= |s| && r == s[|s| - |r|..]
    ensures r == [] || !IsWhitespace(r[0])
    ensures AllWhitespace(s[..|s| - |r|])
  {
    if s == [] || !IsWhitespace(s[0]) then s
    else
      var r := TrimStart(s[1..]);
      assert s[1..][..|s| - 1 - |r|] == s[1..|s| - |r|];
      r
  }

  /** `s` without its trailing whitespace run. */
  function TrimEnd(s: string): (r: string)
    ensures |r| <= |s| && r == s[..|r|]
    ensures r == [] || !IsWhitespace(r[|r| - 1])
    ensures AllWhitespace(s[|r|..])
  {
    if s == [] || !IsWhitespace(s[|s| - 1]) then s
    else
      var r := TrimEnd(s[..|s| - 1]);
      assert s[..|s| - 1][..|r|] == s[..|r|];
      assert s[|r|..] == s[..|s| - 1][|r|..] + [s[|s| - 1]];
      r
  }

  /** `s.trim()`: a contiguous slice of `s` that neither starts nor ends with whitespace,
      and everything cut off on either side is whitespace. */
  function Trim(s: string): (r: string)
    ensures |r| <= |s|
    ensures exists k ::
              0 <= k <= |s| - |r| && s[k..][..|r|] == r &&
              AllWhitespace(s[..k]) && AllWhitespace(s[k + |r|..])
    ensures r == [] || (!IsWhitespace(r[0]) && !IsWhitespace(r[|r| - 1]))
  {
    var t := TrimStart(s);
    var r := TrimEnd(t);
    var k := |s| - |t|;
    assert s[k..][..|r|] == r;
    assert s[k + |r|..] == t[|r|..];
    r
  }

  lemma {:induction false} TrimStartOfBlank(s: string)
    requires AllWhitespace(s)
    ensures TrimStart(s) == []
  {
    if s != [] {
      TrimStartOfBlank(s[1..]);
    }
  }

  /** `!s.trim()` holds exactly when `s` is made of whitespace only (the empty string included). */
  lemma TrimEmptyIffBlank(s: string)
    ensures Trim(s) == "" <==> AllWhitespace(s)
  {
    var t := TrimStart(s);
    var r := TrimEnd(t);
    if r == "" {
      assert s == s[..|s| - |t|] + t;
      assert t[|r|..] == t;
    }
    if AllWhitespace(s) {
      TrimStartOfBlank(s);
    }
  }

  /** The leading whitespace run of `s` removed (the part one `\s+` match consumes). */
  function SkipWhitespace(s: string): (r: string)
    ensures |r| <= |s|
    ensures s != [] && IsWhitespace(s[0]) ==> |r| < |s|
    ensures r == [] || !IsWhitespace(r[0])
  {
    if s == [] || !IsWhitespace(s[0]) then s else SkipWhitespace(s[1..])
  }

  /** `s.replace(/\s+/g, '_')`: every maximal run of whitespace becomes one underscore. */
  function CollapseWhitespace(s: string): (r: string)
    ensures |r| <= |s|
    ensures s != [] ==> r != []
    decreases |s|
  {
    if s == [] then []
    else if IsWhitespace(s[0]) then "_" + CollapseWhitespace(SkipWhitespace(s))
    else [s[0]] + CollapseWhitespace(s[1..])
  }

  /** No whitespace survives the replacement. */
  lemma {:induction false} CollapseRemovesWhitespace(s: string)
    ensures NoWhitespace(CollapseWhitespace(s))
    decreases |s|
  {
    if s == [] {
    } else if IsWhitespace(s[0]) {
      CollapseRemovesWhitespace(SkipWhitespace(s));
      assert !IsWhitespace('_');
    } else {
      CollapseRemovesWhitespace(s[1..]);
    }
  }

  /** A string with no whitespace is left as it is. */
  lemma {:induction false} CollapseKeepsWordOnly(s: string)
    requires NoWhitespace(s)
    ensures CollapseWhitespace(s) == s
  {
    if s != [] {
      CollapseKeepsWordOnly(s[1..]);
    }
  }

  /** Replacing a second time changes nothing. */
  lemma CollapseIdempotent(s: string)
    ensures CollapseWhitespace(CollapseWhitespace(s)) == CollapseWhitespace(s)
  {
    CollapseRemovesWhitespace(s);
    CollapseKeepsWordOnly(CollapseWhitespace(s));
  }

  /** Skipping the leading run of `a + t` when `a` ends in a non-whitespace character
      stays inside `a`. */
  lemma {:induction false} SkipWhitespaceAppend(a: string, t: string)
    requires a != [] && !IsWhitespace(a[|a| - 1])
    ensures SkipWhitespace(a + t) == SkipWhitespace(a) + t
  {
    if IsWhitespace(a[0]) {
      assert (a + t)[1..] == a[1..] + t;
      SkipWhitespaceAppend(a[1..], t);
    }
  }

  /** A whitespace run followed by a non-whitespace start is skipped entirely. */
  lemma {:induction false} SkipWhitespaceRun(w: string, b: string)
    requires AllWhitespace(w)
    requires b == [] || !IsWhitespace(b[0])
    ensures SkipWhitespace(w + b) == b
  {
    if w == [] {
      assert w + b == b;
    } else {
      assert (w + b)[1..] == w[1..] + b;
      SkipWhitespaceRun(w[1..], b);
    }
  }

  /** One whitespace run between two words is replaced by exactly one underscore,
      whatever its length: `a + w + b` becomes `a' + "_" + b'`. */
  lemma {:induction false} CollapseRun(a: string, w: string, b: string)
    requires a == [] || !IsWhitespace(a[|a| - 1])
    requires w != [] && AllWhitespace(w)
    requires b == [] || !IsWhitespace(b[0])
    ensures CollapseWhitespace(a + w + b) == CollapseWhitespace(a) + "_" + CollapseWhitespace(b)
    decreases |a|
  {
    if a == [] {
      CollapseLeadingRun(a, w, b);
    } else if IsWhitespace(a[0]) {
      var a' := SkipWhitespace(a);
      SkipKeepsLast(a);
      CollapseRun(a', w, b);
      CollapseRunAfterSpace(a, w, b);
    } else {
      CollapseRun(a[1..], w, b);
      CollapseRunAfterWord(a, w, b);
    }
  }

  lemma {:induction false} SkipKeepsLast(a: string)
    requires a != [] && !IsWhitespace(a[|a| - 1])
    ensures SkipWhitespace(a) != [] && SkipWhitespace(a)[|SkipWhitespace(a)| - 1] == a[|a| - 1]
  {
    if IsWhitespace(a[0]) {
      SkipKeepsLast(a[1..]);
    }
  }

  lemma CollapseRunAfterSpace(a: string, w: string, b: string)
    requires a != [] && IsWhitespace(a[0]) && !IsWhitespace(a[|a| - 1])
    requires CollapseWhitespace(SkipWhitespace(a) + w + b)
          == CollapseWhitespace(SkipWhitespace(a)) + "_" + CollapseWhitespace(b)
    ensures CollapseWhitespace(a + w + b) == CollapseWhitespace(a) + "_" + CollapseWhitespace(b)
  {
    var s, a' := a + w + b, SkipWhitespace(a);
    SkipWhitespaceAppend(a, w + b);
    Regroup(a, w, b);
    Regroup(a', w, b);
    CollapseLeading(s);
    CollapseLeading(a);
    calc {
      CollapseWhitespace(s);
      "_" + CollapseWhitespace(a' + w + b);
      "_" + (CollapseWhitespace(a') + "_" + CollapseWhitespace(b));
      { Associate("_", CollapseWhitespace(a'), "_", CollapseWhitespace(b)); }
      ("_" + CollapseWhitespace(a')) + "_" + CollapseWhitespace(b);
    }
  }

  lemma CollapseRunAfterWord(a: string, w: string, b: string)
    requires a != [] && !IsWhitespace(a[0])
    requires CollapseWhitespace(a[1..] + w + b) == CollapseWhitespace(a[1..]) + "_" + CollapseWhitespace(b)
    ensures CollapseWhitespace(a + w + b) == CollapseWhitespace(a) + "_" + CollapseWhitespace(b)
  {
    var s := a + w + b;
    TailOfConcat(a, w, b);
    CollapseWord(s);
    CollapseWord(a);
    calc {
      CollapseWhitespace(s);
      [a[0]] + CollapseWhitespace(a[1..] + w + b);
      [a[0]] + (CollapseWhitespace(a[1..]) + "_" + CollapseWhitespace(b));
      { Associate([a[0]], CollapseWhitespace(a[1..]), "_", CollapseWhitespace(b)); }
      ([a[0]] + CollapseWhitespace(a[1..])) + "_" + CollapseWhitespace(b);
    }
  }

  lemma Regroup(a: string, w: string, b: string)
    ensures a + w + b == a + (w + b)
  {
  }

  lemma TailOfConcat(a: string, w: string, b: string)
    requires a != []
    ensures (a + w + b)[1..] == a[1..] + w + b
  {
  }

  lemma Associate(p: string, x: string, q: string, y: string)
    ensures p + (x + q + y) == (p + x) + q + y
  {
  }

  /** Unfolding on a leading whitespace run. */
  lemma CollapseLeading(s: string)
    requires s != [] && IsWhitespace(s[0])
    ensures CollapseWhitespace(s) == "_" + CollapseWhitespace(SkipWhitespace(s))
  {
  }

  /** Unfolding on a leading non-whitespace character. */
  lemma CollapseWord(s: string)
    requires s != [] && !IsWhitespace(s[0])
    ensures CollapseWhitespace(s) == [s[0]] + CollapseWhitespace(s[1..])
  {
  }

  lemma CollapseLeadingRun(a: string, w: string, b: string)
    requires a == []
    requires w != [] && AllWhitespace(w)
    requires b == [] || !IsWhitespace(b[0])
    ensures CollapseWhitespace(a + w + b) == CollapseWhitespace(a) + "_" + CollapseWhitespace(b)
  {
    SkipWhitespaceRun(w, b);
    assert a + w + b == w + b;
    assert (w + b)[0] == w[0];
    CollapseLeading(w + b);
  }

  /** The character of a decimal digit 0..9. */
  function DigitChar(d: nat): (c: char)
    requires d < 10
    ensures '0' <= c <= '9'
  {
    ['0', '1', '2', '3', '4', '5', '6', '7', '8', '9'][d]
  }

  predicate IsDigit(c: char) {
    '0' <= c <= '9'
  }

  /** `n.toString()` for a non-negative integer: its decimal digits, without leading zeros. */
  function NatToString(n: nat): (r: string)
    ensures r != [] && forall i :: 0 <= i < |r| ==> IsDigit(r[i])
    ensures |r| > 1 ==> r[0] != '0'
  {
    if n < 10 then [DigitChar(n)] else NatToString(n / 10) + [DigitChar(n % 10)]
  }

  function DigitValue(c: char): (d: nat)
    requires IsDigit(c)
    ensures d < 10
  {
    var d := (c as int) - ('0' as int);
    assert 0 <= d;
    d
  }

  /** The number a string of decimal digits denotes. */
  function DecimalValue(s: string): nat
    requires forall i :: 0 <= i < |s| ==> IsDigit(s[i])
  {
    if s == [] then 0
    else DecimalValue(s[..|s| - 1]) * 10 + DigitValue(s[|s| - 1])
  }

  /** Reading the decimal string back gives the number: `toString` loses nothing. */
  lemma {:induction false} NatToStringRoundTrip(n: nat)
    ensures DecimalValue(NatToString(n)) == n
  {
    var r := NatToString(n);
    if n < 10 {
      assert r[..0] == [];
    } else {
      NatToStringRoundTrip(n / 10);
      assert r[..|r| - 1] == NatToString(n / 10);
    }
  }
}
