/**
 * Python semantics shared by every model in this project: exceptions as
 * values, and the handful of `str`, `int` and `Decimal` operations the
 * scripts rely on, restricted to ASCII text.
 */
module Py {

  datatype Option<+T> = None | Some(value: T)

  /** The exceptions the modelled scripts can raise. */
  datatype Exc =
    | IndexError
    | KeyError
    | ValueError
    | TypeError
    | RuntimeError
    | AssertionError
    | AttributeError
    | InvalidOperation   // decimal.InvalidOperation from Decimal(<str>)

  /** A Python computation: it returns a value or raises. A raise propagates
      through `:-` as it propagates through the Python call stack. */
  datatype Outcome<+T> = Ok(value: T) | Raise(exc: Exc)
  {
    predicate IsFailure() { Raise? }

    function PropagateFailure<U>(): Outcome<U>
      requires Raise?
    {
      Raise(exc)
    }

    function Extract(): T
      requires Ok?
    {
      value
    }
  }

  // ---------------------------------------------------------------------------
  // Characters and digits

  predicate IsDigit(c: char) { '0' <= c <= '9' }

  predicate IsUpper(c: char) { 'A' <= c <= 'Z' }

  predicate IsLowerLetter(c: char) { 'a' <= c <= 'z' }

  /** Python str.isspace(): the ASCII controls tab to carriage return and
      file to unit separator, space, and the Unicode space separators and
      line and paragraph separators. */
  predicate IsSpace(c: char)
  {
    c == ' ' || '\t' <= c <= '\r' || '\U{1c}' <= c <= '\U{1f}' || c == '\U{85}' || c == '\U{a0}' || c == '\U{1680}'
    || '\U{2000}' <= c <= '\U{200a}' || c == '\U{2028}' || c == '\U{2029}' || c == '\U{202f}' || c == '\U{205f}' || c == '\U{3000}'
  }

  /** Python str.isdigit() for ASCII text: non-empty and all digits. */
  predicate IsDigits(s: string) { |s| > 0 && forall i :: 0 <= i < |s| ==> IsDigit(s[i]) }

  /** Every character is a digit (the empty string included). */
  predicate AllDigits(s: string) { forall i :: 0 <= i < |s| ==> IsDigit(s[i]) }

  function DigitChar(d: nat): (c: char)
    requires d < 10
    ensures IsDigit(c)
  {
    ((('0' as int) + d) as char)
  }

  function DigitValue(c: char): (d: nat)
    requires IsDigit(c)
    ensures d < 10 && DigitChar(d) == c
  {
    (c as int) - ('0' as int)
  }

  /** str(n) for a natural number: decimal digits, no leading zeros. */
  function NatText(n: nat): (s: string)
    ensures IsDigits(s)
    ensures s[0] == '0' ==> n == 0
    decreases n
  {
    if n < 10 then [DigitChar(n)] else NatText(n / 10) + [DigitChar(n % 10)]
  }

  /** str(i) for a Python int. */
  function IntText(i: int): string
  {
    if i < 0 then "-" + NatText(-i) else NatText(i)
  }

  /** The value of a string of decimal digits (int() of such a string). */
  function DigitsValue(s: string): nat
    requires AllDigits(s)
  {
    if |s| == 0 then 0 else DigitsValue(s[..|s| - 1]) * 10 + DigitValue(s[|s| - 1])
  }

  lemma {:induction false} NatTextValue(n: nat)
    ensures DigitsValue(NatText(n)) == n
    decreases n
  {
    if n >= 10 {
      var s := NatText(n);
      assert s[..|s| - 1] == NatText(n / 10);
      NatTextValue(n / 10);
    }
  }

  /** int(s) for the strings the scripts pass: an optional '-' then digits.
      Anything else raises ValueError, as int() does on such text. */
  function ParseInt(s: string): (r: Outcome<int>)
    ensures r.Ok? <==> (IsDigits(s) || (|s| > 1 && s[0] == '-' && IsDigits(s[1..])))
  {
    if IsDigits(s) then Ok(DigitsValue(s))
    else if |s| > 1 && s[0] == '-' && IsDigits(s[1..]) then Ok(-(DigitsValue(s[1..]) as int))
    else Raise(ValueError)
  }

  lemma ParseIntText(i: int)
    ensures ParseInt(IntText(i)) == Ok(i)
  {
    if i < 0 {
      NatTextValue(-i);
      assert IntText(i)[1..] == NatText(-i);
    } else {
      NatTextValue(i);
    }
  }

  // ---------------------------------------------------------------------------
  // Lists built by appending f(0), f(1), ..

  /** f(0), .., f(c - 1). */
  function Table<T>(f: nat -> T, c: nat): seq<T>
  {
    seq(c, i requires 0 <= i < c => f(i))
  }

  lemma TableIndex<T>(f: nat -> T, c: nat, i: nat)
    requires i < c
    ensures |Table(f, c)| == c && Table(f, c)[i] == f(i)
  {
  }

  lemma TableStep<T>(f: nat -> T, c: nat)
    ensures Table(f, c + 1) == Table(f, c) + [f(c)]
  {
    var a, b := Table(f, c + 1), Table(f, c) + [f(c)];
    forall i | 0 <= i < c + 1
      ensures a[i] == b[i]
    {
      if i < c {
        assert b[i] == Table(f, c)[i];
      }
    }
    assert a == b;
  }

  // ---------------------------------------------------------------------------
  // Products, quotients and strides, for the layouts

  lemma {:induction false} MulNat(a: nat, b: nat)
    ensures a * b >= 0
    decreases a
  {
    if a > 0 {
      MulNat(a - 1, b);
      assert a * b == (a - 1) * b + b;
    }
  }

  lemma MulLe(a: int, b: int, s: nat)
    requires a <= b
    ensures a * s <= b * s
  {
    MulNat(b - a, s);
    assert (b - a) * s == b * s - a * s;
  }

  /** k strides of s, added up one at a time as the loops do. */
  function Strides(k: nat, s: nat): nat
  {
    if k == 0 then 0 else Strides(k - 1, s) + s
  }

  lemma {:induction false} StridesProduct(k: nat, s: nat)
    ensures Strides(k, s) == k * s
    decreases k
  {
    if k > 0 {
      StridesProduct(k - 1, s);
      assert k * s == (k - 1) * s + s;
    }
  }

  lemma {:induction false} StridesMono(a: nat, b: nat, s: nat)
    requires a <= b
    ensures Strides(a, s) <= Strides(b, s)
    decreases b
  {
    if a < b {
      StridesMono(a, b - 1, s);
    }
  }

  /** q and r are the quotient and remainder of a by d. */
  lemma DivDecompose(a: int, d: nat, q: int, r: nat)
    requires d > 0 && r < d && a == q * d + r
    ensures a / d == q && a % d == r
  {
    var q0, r0 := a / d, a % d;
    assert a == q0 * d + r0;
    if q > q0 {
      MulLe(1, q - q0, d);
    } else if q < q0 {
      MulLe(1, q0 - q, d);
    }
  }

  /** Chunks f(0), .., f(k - 1) laid end to end. */
  function Appended<T>(f: nat -> seq<T>, k: nat): seq<T>
  {
    if k == 0 then [] else Appended(f, k - 1) + f(k - 1)
  }

  lemma {:induction false} AppendedLength<T>(f: nat -> seq<T>, w: nat, k: nat)
    requires forall q :: |f(q)| == w
    ensures |Appended(f, k)| == Strides(k, w)
  {
    if k > 0 {
      AppendedLength(f, w, k - 1);
    }
  }

  /** With chunks of width w, place Strides(p, w) + j holds chunk p's j-th. */
  lemma {:induction false} AppendedIndex<T>(f: nat -> seq<T>, w: nat, k: nat, p: nat, j: nat)
    requires forall q :: |f(q)| == w
    requires p < k && j < w
    ensures Strides(p, w) + j < |Appended(f, k)| && Appended(f, k)[Strides(p, w) + j] == f(p)[j]
    decreases k
  {
    AppendedLength(f, w, k - 1);
    var before := Appended(f, k - 1);
    if p < k - 1 {
      StridesMono(p + 1, k - 1, w);
      AppendedIndex(f, w, k - 1, p, j);
      assert (before + f(k - 1))[Strides(p, w) + j] == before[Strides(p, w) + j];
    } else {
      assert (before + f(k - 1))[Strides(p, w) + j] == f(k - 1)[j];
    }
  }

  // ---------------------------------------------------------------------------
  // Strings

  predicate StartsWith(s: string, p: string) { |p| <= |s| && s[..|p|] == p }

  predicate EndsWith(s: string, p: string) { |p| <= |s| && s[|s| - |p|..] == p }

  /** `sub in s` for strings. */
  predicate Contains(s: string, sub: string)
  {
    exists i :: 0 <= i <= |s| - |sub| && OccursAt(s, sub, i)
  }

  predicate OccursAt(s: string, sub: string, i: int)
  {
    0 <= i <= |s| - |sub| && s[i..i + |sub|] == sub
  }

  function LowerChar(c: char): char { if IsUpper(c) then ((c as int) + 32) as char else c }

  /** str.lower() restricted to ASCII letters. */
  function Lower(s: string): (r: string)
    ensures |r| == |s|
    ensures forall i :: 0 <= i < |s| ==> r[i] == LowerChar(s[i])
  {
    seq(|s|, i requires 0 <= i < |s| => LowerChar(s[i]))
  }

  /** The index of the first occurrence of c in s, or |s| if there is none. */
  function IndexOf(s: string, c: char): (k: nat)
    ensures k <= |s|
    ensures k < |s| ==> s[k] == c
    ensures forall i :: 0 <= i < k ==> s[i] != c
  {
    if |s| == 0 then 0 else if s[0] == c then 0 else 1 + IndexOf(s[1..], c)
  }

  /** The index of the last occurrence of c in s, or -1 if there is none. */
  function LastIndexOf(s: string, c: char): (k: int)
    ensures -1 <= k < |s|
    ensures k >= 0 ==> s[k] == c
    ensures forall i :: k < i < |s| ==> s[i] != c
  {
    if |s| == 0 then -1 else if s[|s| - 1] == c then |s| - 1 else LastIndexOf(s[..|s| - 1], c)
  }

  /** s.split(c)[0]: the text before the first c. */
  function Before(s: string, c: char): (r: string)
    ensures StartsWith(s, r) && c !in r
  {
    s[..IndexOf(s, c)]
  }

  /** s.split(sep)[-1] for a one-character separator: the text after the last sep. */
  function AfterLast(s: string, c: char): (r: string)
    ensures EndsWith(s, r) && c !in r
  {
    s[LastIndexOf(s, c) + 1..]
  }

  /** str.split() with no argument: the maximal runs of non-space characters. */
  function SplitWs(s: string): (r: seq<string>)
    ensures forall k :: 0 <= k < |r| ==> |r[k]| > 0 && forall i :: 0 <= i < |r[k]| ==> !IsSpace(r[k][i])
    decreases |s|
  {
    if |s| == 0 then []
    else if IsSpace(s[0]) then SplitWs(s[1..])
    else
      var w := WordAt(s);
      [w] + SplitWs(s[|w|..])
  }

  /** The longest prefix of s without a space character. */
  function WordAt(s: string): (w: string)
    ensures |w| <= |s| && s[..|w|] == w
    ensures forall i :: 0 <= i < |w| ==> !IsSpace(w[i])
    ensures |w| < |s| ==> IsSpace(s[|w|])
    ensures |s| > 0 && !IsSpace(s[0]) ==> |w| > 0
  {
    if |s| == 0 || IsSpace(s[0]) then [] else [s[0]] + WordAt(s[1..])
  }

  /** str.split(sep) for a one-character separator: the pieces between the
      separators, empty pieces kept. */
  function SplitOn(s: string, sep: char): (r: seq<string>)
    ensures |r| > 0
    ensures forall k :: 0 <= k < |r| ==> sep !in r[k]
    decreases |s|
  {
    var k := IndexOf(s, sep);
    if k == |s| then [s] else [s[..k]] + SplitOn(s[k + 1..], sep)
  }

  /** sep.join(pieces). */
  function JoinOn(pieces: seq<string>, sep: char): string
  {
    if |pieces| == 0 then "" else if |pieces| == 1 then pieces[0] else pieces[0] + [sep] + JoinOn(pieces[1..], sep)
  }

  /** Splitting loses nothing: joining the pieces gives the text back. */
  lemma {:induction false} SplitJoin(s: string, sep: char)
    ensures JoinOn(SplitOn(s, sep), sep) == s
    decreases |s|
  {
    var k := IndexOf(s, sep);
    if k < |s| {
      SplitJoin(s[k + 1..], sep);
      assert s == s[..k] + [sep] + s[k + 1..];
    }
  }

  /** The converse: pieces free of the separator come back from their join. */
  lemma {:induction false} JoinSplit(pieces: seq<string>, sep: char)
    requires |pieces| > 0
    requires forall k :: 0 <= k < |pieces| ==> sep !in pieces[k]
    ensures SplitOn(JoinOn(pieces, sep), sep) == pieces
    decreases |pieces|
  {
    if |pieces| == 1 {
      IndexOfAbsent(pieces[0], sep);
    } else {
      var rest := JoinOn(pieces[1..], sep);
      var s := pieces[0] + [sep] + rest;
      IndexOfFirst(s, sep, |pieces[0]|);
      assert s[..|pieces[0]|] == pieces[0];
      assert s[|pieces[0]| + 1..] == rest;
      JoinSplit(pieces[1..], sep);
    }
  }

  /** The first piece of a join is its first element when that is free of
      the separator, whatever the later elements hold. */
  lemma JoinSplitHead(pieces: seq<string>, sep: char)
    requires |pieces| > 0 && sep !in pieces[0]
    ensures SplitOn(JoinOn(pieces, sep), sep)[0] == pieces[0]
  {
    if |pieces| == 1 {
      IndexOfAbsent(pieces[0], sep);
    } else {
      var s := pieces[0] + [sep] + JoinOn(pieces[1..], sep);
      IndexOfFirst(s, sep, |pieces[0]|);
      assert s[..|pieces[0]|] == pieces[0];
    }
  }

  /** Joining two non-empty runs of pieces puts one separator between them. */
  lemma {:induction false} JoinConcat(a: seq<string>, b: seq<string>, sep: char)
    requires |a| > 0 && |b| > 0
    ensures JoinOn(a + b, sep) == JoinOn(a, sep) + [sep] + JoinOn(b, sep)
    decreases |a|
  {
    if |a| > 1 {
      assert (a + b)[1..] == a[1..] + b;
      JoinConcat(a[1..], b, sep);
    } else {
      assert (a + b)[1..] == b;
    }
  }

  /** Joining a piece that is itself joined with the separator is joining
      its parts in its place. */
  lemma JoinNested(a: seq<string>, inner: seq<string>, b: seq<string>, sep: char)
    requires |inner| > 0
    ensures JoinOn(a + [JoinOn(inner, sep)] + b, sep) == JoinOn(a + inner + b, sep)
  {
    var j := JoinOn(inner, sep);
    var x, y := [j] + b, inner + b;
    assert a + [j] + b == a + x;
    assert a + inner + b == a + y;
    JoinNestedFront(inner, b, sep);
    if |a| > 0 {
      JoinAfter(a, x, y, sep);
    } else {
      assert a + x == x && a + y == y;
    }
  }

  /** Pieces that join alike still join alike behind a common prefix. */
  lemma JoinAfter(a: seq<string>, x: seq<string>, y: seq<string>, sep: char)
    requires |a| > 0 && |x| > 0 && |y| > 0 && JoinOn(x, sep) == JoinOn(y, sep)
    ensures JoinOn(a + x, sep) == JoinOn(a + y, sep)
  {
    JoinConcat(a, x, sep);
    JoinConcat(a, y, sep);
  }

  lemma JoinNestedFront(inner: seq<string>, b: seq<string>, sep: char)
    requires |inner| > 0
    ensures JoinOn([JoinOn(inner, sep)] + b, sep) == JoinOn(inner + b, sep)
  {
    if |b| > 0 {
      JoinConcat([JoinOn(inner, sep)], b, sep);
      JoinConcat(inner, b, sep);
    } else {
      assert [JoinOn(inner, sep)] + b == [JoinOn(inner, sep)];
      assert inner + b == inner;
    }
  }

  /** The joined text starts with the first piece. */
  lemma JoinStart(pieces: seq<string>, sep: char)
    requires |pieces| > 0
    ensures |JoinOn(pieces, sep)| >= |pieces[0]| && JoinOn(pieces, sep)[..|pieces[0]|] == pieces[0]
  {
  }

  /** A character other than the separator is in the joined text only if
      it is in one of the pieces. */
  lemma {:induction false} JoinFree(pieces: seq<string>, sep: char, c: char)
    requires c != sep
    requires forall k :: 0 <= k < |pieces| ==> c !in pieces[k]
    ensures c !in JoinOn(pieces, sep)
    decreases |pieces|
  {
    if |pieces| > 1 {
      JoinFree(pieces[1..], sep, c);
    }
  }

  /** str.strip(): drop leading and trailing space characters. */
  function Strip(s: string): (r: string)
    ensures |r| <= |s|
    ensures |r| > 0 ==> !IsSpace(r[0]) && !IsSpace(r[|r| - 1])
    decreases |s|
  {
    if |s| == 0 then s
    else if IsSpace(s[0]) then Strip(s[1..])
    else if IsSpace(s[|s| - 1]) then Strip(s[..|s| - 1])
    else s
  }

  /** str.lstrip(c) for one character c. */
  function LStrip(s: string, c: char): (r: string)
    ensures |r| <= |s| && s[|s| - |r|..] == r
    ensures |r| > 0 ==> r[0] != c
  {
    if |s| > 0 && s[0] == c then LStrip(s[1..], c) else s
  }

  /** The first n characters, as s[:n] does when n may exceed |s|. */
  function Take(s: string, n: nat): (r: string)
    ensures |r| == if n < |s| then n else |s|
    ensures StartsWith(s, r)
  {
    if n < |s| then s[..n] else s
  }

  // ---------------------------------------------------------------------------
  // Decimal(<str>) as an exact value

  function Pow10(n: nat): (p: nat)
    ensures p >= 1
  {
    if n == 0 then 1 else 10 * Pow10(n - 1)
  }

  /** value * 10^e for an integer exponent. */
  function Scale10(value: real, e: int): real
  {
    if e >= 0 then value * (Pow10(e) as real) else value / (Pow10(-e) as real)
  }

  /** Decimal(s) for a finite decimal literal: an optional sign, digits with an
      optional point (at least one digit), and an optional exponent `e[+-]digits`.
      None stands for the InvalidOperation Decimal raises on other text. */
  function DecimalOf(s: string): Option<real>
  {
    var neg := |s| > 0 && s[0] == '-';
    var body := if |s| > 0 && (s[0] == '-' || s[0] == '+') then s[1..] else s;
    var magnitude := UnsignedOf(body);
    if magnitude.None? then None else Some(if neg then -magnitude.value else magnitude.value)
  }

  /** The value of an unsigned literal: a mantissa and an optional exponent. */
  function UnsignedOf(body: string): Option<real>
  {
    var e := ExponentAt(body);
    var exp := if e < |body| then ExponentValue(body[e + 1..]) else Some(0);
    MantissaOf(body[..e], exp)
  }

  /** The value of digits with an optional point, scaled by the exponent. */
  function MantissaOf(mant: string, exp: Option<int>): Option<real>
  {
    var p := IndexOf(mant, '.');
    var whole := mant[..p];
    var frac := if p < |mant| then mant[p + 1..] else "";
    if !AllDigits(whole) || !AllDigits(frac) || |whole| + |frac| == 0 || exp.None? then None
    else Some(Scale10(DigitsValue(whole + frac) as real, exp.value - |frac|))
  }

  lemma IndexOfAbsent(s: string, c: char)
    requires forall k :: 0 <= k < |s| ==> s[k] != c
    ensures IndexOf(s, c) == |s|
  {
  }

  lemma IndexOfFirst(s: string, c: char, k: nat)
    requires k < |s| && s[k] == c && forall i :: 0 <= i < k ==> s[i] != c
    ensures IndexOf(s, c) == k
  {
  }

  /** Decimal of a digit string is its integer value. */
  lemma DecimalInteger(w: string)
    requires IsDigits(w)
    ensures DecimalOf(w) == Some(DigitsValue(w) as real)
  {
    assert IsDigit(w[0]);
    assert ExponentAt(w) == |w| by {
      IndexOfAbsent(w, 'e');
      IndexOfAbsent(w, 'E');
    }
    assert w[..|w|] == w;
    assert IndexOf(w, '.') == |w| by { IndexOfAbsent(w, '.'); }
    assert w[..|w|] + "" == w;
    assert AllDigits(w) && AllDigits("");
    Scale10Zero(DigitsValue(w) as real);
  }

  lemma Scale10Zero(v: real)
    ensures Scale10(v, 0) == v
  {
    assert Pow10(0) == 1;
  }

  /** Decimal of `w.f` for digit strings w and f is the digits of w and f read
      as an integer and divided by 10^|f|. */
  lemma DecimalPoint(w: string, f: string)
    requires IsDigits(w) && IsDigits(f)
    ensures DecimalOf(w + "." + f) == Some(DigitsValue(w + f) as real / Pow10(|f|) as real)
  {
    var s := w + "." + f;
    PointLayout(w, f);
    DecimalPlain(s);
    assert AllDigits(w + f);
    var v := DigitsValue(w + f) as real;
    assert Scale10(v, 0 - |f|) == v / (Pow10(|f|) as real);
  }

  /** Where DecimalOf finds the sign, exponent and point of `w.f`. */
  lemma PointLayout(w: string, f: string)
    requires IsDigits(w) && IsDigits(f)
    ensures var s := w + "." + f;
            s[0] != '-' && s[0] != '+' && ExponentAt(s) == |s| && IndexOf(s, '.') == |w|
            && s[..|w|] == w && s[|w| + 1..] == f
  {
    var s := w + "." + f;
    assert s[0] == w[0] && IsDigit(w[0]);
    assert forall k :: 0 <= k < |s| ==> s[k] == if k < |w| then w[k] else if k == |w| then '.' else f[k - |w| - 1];
    IndexOfAbsent(s, 'e');
    IndexOfAbsent(s, 'E');
    IndexOfFirst(s, '.', |w|);
    assert s[..|w|] == w && s[|w| + 1..] == f;
  }

  /** DecimalOf of unsigned text without an exponent. */
  lemma DecimalPlain(s: string)
    requires |s| > 0 && s[0] != '-' && s[0] != '+' && ExponentAt(s) == |s|
    ensures var p := IndexOf(s, '.');
            var frac := if p < |s| then s[p + 1..] else "";
            DecimalOf(s) == if !AllDigits(s[..p]) || !AllDigits(frac) || p + |frac| == 0 then None
                            else Some(Scale10(DigitsValue(s[..p] + frac) as real, 0 - |frac|))
  {
    assert UnsignedOf(s) == MantissaOf(s, Some(0)) by { assert s[..|s|] == s; }
  }

  /** k zero digits. */
  function Zeros(k: nat): (z: string)
    ensures |z| == k && forall i :: 0 <= i < k ==> z[i] == '0'
  {
    seq(k, i => '0')
  }

  lemma {:induction false} DigitsZeros(w: string, k: nat)
    requires AllDigits(w)
    ensures AllDigits(w + Zeros(k)) && DigitsValue(w + Zeros(k)) == DigitsValue(w) * Pow10(k)
    decreases k
  {
    if k == 0 {
      assert w + Zeros(0) == w;
    } else {
      DigitsZeros(w, k - 1);
      var s := w + Zeros(k);
      assert s[..|s| - 1] == w + Zeros(k - 1);
      assert s[|s| - 1] == '0';
      assert DigitsValue(s) == DigitsValue(w + Zeros(k - 1)) * 10;
      TimesTen(DigitsValue(w), Pow10(k - 1));
    }
  }

  lemma TimesTen(a: nat, b: nat)
    ensures a * b * 10 == a * (10 * b)
  {
  }

  /** Trailing zeros after the point do not change a Decimal's value. */
  lemma TrailingZeros(w: string, k: nat)
    requires IsDigits(w) && k > 0
    ensures DecimalOf(w + "." + Zeros(k)) == DecimalOf(w)
  {
    assert IsDigits(Zeros(k));
    DecimalPoint(w, Zeros(k));
    DigitsZeros(w, k);
    DecimalInteger(w);
    DivCancel(DigitsValue(w), Pow10(k));
  }

  lemma DivCancel(a: nat, b: nat)
    requires b > 0
    ensures ((a * b) as real) / (b as real) == a as real
  {
    assert (a * b) as real == (a as real) * (b as real);
  }

  /** Index of the first 'e' or 'E', or |s|. */
  function ExponentAt(s: string): (k: nat)
    ensures k <= |s|
  {
    var a := IndexOf(s, 'e');
    var b := IndexOf(s, 'E');
    if a < b then a else b
  }

  function ExponentValue(s: string): Option<int>
  {
    if IsDigits(s) then Some(DigitsValue(s))
    else if |s| > 1 && s[0] == '-' && IsDigits(s[1..]) then Some(-(DigitsValue(s[1..]) as int))
    else if |s| > 1 && s[0] == '+' && IsDigits(s[1..]) then Some(DigitsValue(s[1..]))
    else None
  }

  /** An exact value lies on the grid of a decimal step: `Decimal(x) % step == 0`. */
  predicate OnGrid(x: real, step: real)
    requires step > 0.0
  {
    (x / step).Floor as real == x / step
  }
}
