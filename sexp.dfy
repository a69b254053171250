/**
 * The S-expression core of scripts/sexp.py: the tree every generator builds,
 * the serialiser `sexp_generate` and the stack-machine parser `sexp_parse`.
 *
 * The parser's character step is written once, for both strains of the parser
 * in the repository: sexp.py turns an empty quoted string into the atom "~"
 * (Variant Placeholder), while moddraw.py and fpcheck.py drop it (Variant
 * Dropping). Everything else about the two is the same.
 */
module Sexp {
  import opened Py

  /** A node of the tree: a Python str, int, Decimal, float or list. */
  datatype Node =
    | Str(s: string)
    | Int(i: int)
    | Dec(coeff: int, scale: nat)   // a Decimal with value coeff / 10^scale, as written
    | Flt(r: real)                  // a float, by the exact value of the double
    | List(children: seq<Node>)     // a list or a tuple: the serialiser treats both alike

  // ===========================================================================
  // Serialiser (sexp.py:40-56)

  predicate IsWordChar(c: char)
  {
    'a' <= c <= 'z' || 'A' <= c <= 'Z' || IsDigit(c) || c == '_' || c == '*' || c == '.'
  }

  predicate AllWordChars(s: string) { forall i :: 0 <= i < |s| ==> IsWordChar(s[i]) }

  /** `-?[a-zA-Z0-9_*.]+` matches the whole of s. */
  predicate WordPlus(s: string)
  {
    if |s| > 0 && s[0] == '-' then |s| > 1 && AllWordChars(s[1..]) else |s| > 0 && AllWordChars(s)
  }

  /** `single_word.match(s)` for `^-?[a-zA-Z0-9_*.]+$`: Python's `$` also
      matches just before a final newline. */
  predicate BareWord(s: string)
  {
    WordPlus(s) || (|s| > 0 && s[|s| - 1] == '\n' && WordPlus(s[..|s| - 1]))
  }

  /** A str atom is emitted bare when it is a single word and otherwise between
      double quotes, unchanged: the two `replace` results are discarded. */
  function StrText(s: string): string
  {
    if BareWord(s) then s else "\"" + s + "\""
  }

  function Spaces(n: nat): (r: string)
    ensures |r| == n && forall i :: 0 <= i < n ==> r[i] == ' '
  {
    if n == 0 then "" else Spaces(n - 1) + " "
  }


  /** The characters a number can print as. */
  predicate NumberChars(s: string)
  {
    forall i :: 0 <= i < |s| ==> IsDigit(s[i]) || s[i] == '.' || s[i] == '-' || s[i] == 'E'
  }

  /** str(Decimal) for a Decimal with exponent -scale and coefficient |coeff|:
      positional notation, or scientific notation once the adjusted exponent
      drops below -6, as Python's Decimal.__str__ does. */
  function DecimalText(coeff: int, scale: nat): (t: string)
    ensures |t| > 0 && NumberChars(t)
  {
    (if coeff < 0 then "-" else "") + DecimalDigits(NatText(if coeff < 0 then -coeff else coeff), scale)
  }

  /** The unsigned part of str(Decimal) for the coefficient's digits d. */
  function DecimalDigits(d: string, scale: nat): (t: string)
    requires IsDigits(d)
    ensures |t| > 0 && NumberChars(t)
  {
    var adjusted := |d| - 1 - scale;
    if scale == 0 then d
    else if adjusted >= -6 then
      if |d| > scale then d[..|d| - scale] + "." + d[|d| - scale..]
      else "0." + Zeros(scale - |d|) + d
    else d[..1] + (if |d| > 1 then "." + d[1..] else "") + "E-" + NatText(-adjusted)
  }

  /** Decimals printed in positional notation, which are single words. */
  predicate Positional(coeff: int, scale: nat)
  {
    scale == 0 || |NatText(if coeff < 0 then -coeff else coeff)| - 1 - scale >= -6
  }

  /** Round half to even: the integer Python's formatting rounds x to. */
  function RoundHalfEven(x: real): (n: nat)
    requires x >= 0.0
  {
    var f := x.Floor;
    var rest := x - f as real;
    if rest > 0.5 then f + 1
    else if rest < 0.5 then f
    else if f % 2 == 0 then f else f + 1
  }

  /** A number below 10000 written with exactly four digits. */
  function Pad4(n: nat): (r: string)
    requires n < 10000
    ensures |r| == 4 && AllDigits(r)
  {
    [DigitChar(n / 1000), DigitChar(n / 100 % 10), DigitChar(n / 10 % 10), DigitChar(n % 10)]
  }

  /** "{:.4f}".format(x) for the exact value x of a double. */
  function Fixed4(x: real): (t: string)
    ensures |t| > 0 && NumberChars(t)
  {
    var m := if x < 0.0 then -x else x;
    var n := RoundHalfEven(m * 10000.0);
    var body := NatText(n / 10000) + "." + Pad4(n % 10000);
    if x < 0.0 then "-" + body else body
  }

  /** The text of an atom: str atoms go through the bare-word test, numbers do not. */
  function AtomText(n: Node): string
    requires !n.List?
  {
    match n
    case Str(s) => StrText(s)
    case Int(i) => IntText(i)
    case Dec(c, sc) => DecimalText(c, sc)
    case Flt(x) => Fixed4(x)
  }

  /** sexp_generate(cs, depth): a newline, 2*depth spaces, then the parts
      joined by single spaces inside one pair of parentheses. */
  function Generate(cs: seq<Node>, depth: nat): string
    decreases cs, 1
  {
    "\n" + Spaces(2 * depth) + "(" + Join(cs, depth) + ")"
  }

  /** " ".join(parts) over the rendered children. */
  function Join(cs: seq<Node>, depth: nat): string
    decreases cs, 0
  {
    if |cs| == 0 then ""
    else if |cs| == 1 then Part(cs[0], depth)
    else Part(cs[0], depth) + " " + Join(cs[1..], depth)
  }

  /** One child: lists and tuples recurse one level deeper. */
  function Part(n: Node, depth: nat): string
    decreases n
  {
    if n.List? then Generate(n.children, depth + 1) else AtomText(n)
  }

  // ===========================================================================
  // Parser (sexp.py:12-37; moddraw.py's and fpcheck.py's sexpparse)

  datatype Variant =
    | Placeholder   // sexp.py: an empty quoted string becomes "~"
    | Dropping      // moddraw.py, fpcheck.py: an empty token is never appended

  /** The parser's state: the stack `r` of open lists (the root container at the
      bottom), the pending token and the quote flag. An empty token stands for
      "no token": sexp.py's None, moddraw.py's ''. sexp.py's token is never ''. */
  datatype Scan = Scan(stack: seq<seq<Node>>, token: string, quote: bool)

  predicate Structural(c: char) { c == '(' || c == ')' || c == ' ' || c == '\n' }

  const Start := Scan([[]], "", false)

  /** Append the pending token, if any, to the innermost open list. */
  function Flush(stack: seq<seq<Node>>, token: string): (r: seq<seq<Node>>)
    requires |stack| >= 1
    ensures |r| == |stack|
  {
    if token == "" then stack else stack[..|stack| - 1] + [stack[|stack| - 1] + [Str(token)]]
  }

  /** Close the innermost list into its parent; IndexError when only the root is open. */
  function Close(stack: seq<seq<Node>>): (r: Outcome<seq<seq<Node>>>)
    requires |stack| >= 1
    ensures r.Ok? <==> |stack| >= 2
    ensures r.Ok? ==> |r.value| == |stack| - 1
  {
    if |stack| < 2 then Raise(IndexError)
    else Ok(stack[..|stack| - 2] + [stack[|stack| - 2] + [List(stack[|stack| - 1])]])
  }

  /** One iteration of the parser's loop. */
  function Step(v: Variant, st: Scan, c: char): (r: Outcome<Scan>)
    requires |st.stack| >= 1
    ensures r.Ok? ==> |r.value.stack| >= 1
  {
    if c == '(' && !st.quote then Ok(Scan(st.stack + [[]], st.token, false))
    else if (c == ')' || c == ' ' || c == '\n') && !st.quote then
      var stack := Flush(st.stack, st.token);
      if c != ')' then Ok(Scan(stack, "", false))
      else
        var closed := Close(stack);
        if closed.Raise? then Raise(closed.exc) else Ok(Scan(closed.value, "", false))
    else if c == '"' then
      var q := !st.quote;
      Ok(Scan(st.stack, if v.Placeholder? && st.token == "" && !q then "~" else st.token, q))
    else Ok(Scan(st.stack, st.token + [c], st.quote))
  }

  /** The loop over the characters of s, from state o; the first exception ends it. */
  function Run(v: Variant, o: Outcome<Scan>, s: string): (r: Outcome<Scan>)
    requires o.Ok? ==> |o.value.stack| >= 1
    ensures r.Ok? ==> |r.value.stack| >= 1
    decreases |s|
  {
    if |s| == 0 then o
    else
      var p := Run(v, o, s[..|s| - 1]);
      if p.Raise? then p else Step(v, p.value, s[|s| - 1])
  }

  /** The parser's result `r[0][0]`: the first node appended to the root
      container, or IndexError if there is none. */
  function ParseText(v: Variant, s: string): Outcome<Node>
  {
    var r := Run(v, Ok(Start), s);
    if r.Raise? then Raise(r.exc)
    else if |r.value.stack[0]| == 0 then Raise(IndexError)
    else Ok(r.value.stack[0][0])
  }

  function TokenText(token: Option<string>): string
  {
    if token.None? then "" else token.value
  }

  /** sexp_parse: the character loop over an explicit stack of open lists. */
  method Parse(sexp: string) returns (result: Outcome<Node>)
    ensures result == ParseText(Placeholder, sexp)
  {
    var r: seq<seq<Node>> := [[]];
    var token: Option<string> := None;
    var quote := false;
    var i := 0;
    while i < |sexp|
      invariant 0 <= i <= |sexp|
      invariant |r| >= 1
      invariant token.Some? ==> token.value != ""
      invariant Run(Placeholder, Ok(Start), sexp[..i]) == Ok(Scan(r, TokenText(token), quote))
    {
      assert sexp[..i + 1][..i] == sexp[..i];
      var raised;
      r, token, quote, raised := ParseChar(r, token, quote, sexp[i]);
      if raised {
        RaiseStays(Placeholder, Ok(Start), sexp, i + 1);
        return Raise(IndexError);
      }
      i := i + 1;
    }
    assert sexp[..i] == sexp;
    if |r[0]| == 0 {
      return Raise(IndexError);
    }
    return Ok(r[0][0]);
  }

  /** The loop body of sexp_parse for one character c: the new stack, token
      and quote flag, or raised when `r.pop()` leaves nothing to append to. */
  method ParseChar(r: seq<seq<Node>>, token: Option<string>, quote: bool, c: char)
    returns (r': seq<seq<Node>>, token': Option<string>, quote': bool, raised: bool)
    requires |r| >= 1 && (token.Some? ==> token.value != "")
    ensures var next := Step(Placeholder, Scan(r, TokenText(token), quote), c);
            if raised then next == Raise(IndexError)
            else |r'| >= 1 && (token'.Some? ==> token'.value != "") && next == Ok(Scan(r', TokenText(token'), quote'))
  {
    r', token', quote', raised := r, token, quote, false;
    if c == '(' && !quote {
      r' := r + [[]];
    } else if (c == ')' || c == ' ' || c == '\n') && !quote {
      if token.Some? {
        r' := r[..|r| - 1] + [r[|r| - 1] + [Str(token.value)]];
      }
      token' := None;
      if c == ')' {
        if |r'| < 2 {
          raised := true;
          return;
        }
        var t := r'[|r'| - 1];
        ghost var flushed := r';
        r' := r'[..|r'| - 1];
        assert r'[..|r'| - 1] == flushed[..|flushed| - 2] && r'[|r'| - 1] == flushed[|flushed| - 2];
        r' := r'[..|r'| - 1] + [r'[|r'| - 1] + [List(t)]];
      }
    } else if c == '"' {
      quote' := !quote;
      if token.None? && !quote' {
        token' := Some("~");
      }
    } else {
      token' := Some(TokenText(token) + [c]);
    }
  }

  /** Once the loop has raised, the rest of the input does not matter. */
  lemma {:induction false} RaiseStays(v: Variant, o: Outcome<Scan>, s: string, k: nat)
    requires o.Ok? ==> |o.value.stack| >= 1
    requires k <= |s|
    requires Run(v, o, s[..k]).Raise?
    ensures Run(v, o, s) == Run(v, o, s[..k])
    decreases |s|
  {
    if k < |s| {
      assert s[..|s| - 1][..k] == s[..k];
      RaiseStays(v, o, s[..|s| - 1], k);
    } else {
      assert s[..k] == s;
    }
  }

  /** Running over a + b is running over a, then over b. */
  lemma {:induction false} RunConcat(v: Variant, o: Outcome<Scan>, a: string, b: string)
    requires o.Ok? ==> |o.value.stack| >= 1
    ensures Run(v, o, a + b) == Run(v, Run(v, o, a), b)
    decreases |b|
  {
    if |b| == 0 {
      assert a + b == a;
    } else {
      assert (a + b)[..|a + b| - 1] == a + b[..|b| - 1];
      RunConcat(v, o, a, b[..|b| - 1]);
    }
  }

  // ===========================================================================
  // What the parser can produce

  /** A parsed atom: always a str, never empty, never holding '"'. */
  predicate ParsedTree(n: Node)
  {
    match n
    case Str(s) => s != "" && '"' !in s
    case List(cs) => forall k :: 0 <= k < |cs| ==> ParsedTree(cs[k])
    case _ => false
  }

  predicate ParsedSeq(cs: seq<Node>) { forall k :: 0 <= k < |cs| ==> ParsedTree(cs[k]) }

  predicate ParsedState(st: Scan)
  {
    '"' !in st.token && forall f :: 0 <= f < |st.stack| ==> ParsedSeq(st.stack[f])
  }

  lemma StepParsed(v: Variant, st: Scan, c: char)
    requires |st.stack| >= 1 && ParsedState(st)
    ensures var r := Step(v, st, c); r.Ok? ==> ParsedState(r.value)
  {
    var stack := Flush(st.stack, st.token);
    assert forall f :: 0 <= f < |stack| ==> ParsedSeq(stack[f]) by {
      if st.token != "" {
        assert ParsedSeq(st.stack[|st.stack| - 1] + [Str(st.token)]);
      }
    }
    if |stack| >= 2 {
      assert ParsedTree(List(stack[|stack| - 1]));
      assert ParsedSeq(stack[|stack| - 2] + [List(stack[|stack| - 1])]);
    }
  }

  lemma {:induction false} RunParsed(v: Variant, s: string)
    ensures var r := Run(v, Ok(Start), s); r.Ok? ==> ParsedState(r.value)
    decreases |s|
  {
    if |s| > 0 {
      RunParsed(v, s[..|s| - 1]);
      var p := Run(v, Ok(Start), s[..|s| - 1]);
      if p.Ok? {
        StepParsed(v, p.value, s[|s| - 1]);
      }
    }
  }

  /** Every atom the parser produces is a non-empty str without '"': quotes are
      never kept and no atom is turned into a number. */
  lemma ParseGivesStrAtoms(v: Variant, s: string)
    ensures ParseText(v, s).Ok? ==> ParsedTree(ParseText(v, s).value)
  {
    RunParsed(v, s);
  }

  /** One more character of the same input is one more step. */
  lemma RunPrefix(v: Variant, o: Outcome<Scan>, s: string, k: nat)
    requires o.Ok? ==> |o.value.stack| >= 1
    requires k < |s|
    ensures var p := Run(v, o, s[..k]);
            Run(v, o, s[..k + 1]) == if p.Raise? then p else Step(v, p.value, s[k])
  {
    assert s[..k + 1][..k] == s[..k];
  }

  lemma OpenDoesNotFlushStart(v: Variant)
    ensures Run(v, Ok(Start), "(x a(b))"[..2]) == Ok(Scan([[], []], "x", false))
  {
    var s := "(x a(b))";
    var o := Ok(Start);
    var e: seq<Node> := [];
    assert s[..0] == [];
    assert [[]] + [e] == [e, e];
    RunPrefix(v, o, s, 0);
    assert Run(v, o, s[..1]) == Ok(Scan([e, e], "", false));
    RunPrefix(v, o, s, 1);
    assert "" + ['x'] == "x";
  }

  lemma OpenDoesNotFlushSpace(v: Variant)
    ensures Run(v, Ok(Start), "(x a(b))"[..3]) == Ok(Scan([[], [Str("x")]], "", false))
  {
    var s := "(x a(b))";
    var o := Ok(Start);
    var x := Str("x");
    var e: seq<Node> := [];
    OpenDoesNotFlushStart(v);
    assert e + [x] == [x];
    assert [e] + [e + [x]] == [e, [x]];
    RunPrefix(v, o, s, 2);
  }

  lemma OpenDoesNotFlushPrefix(v: Variant)
    ensures Run(v, Ok(Start), "(x a(b))"[..4]) == Ok(Scan([[], [Str("x")]], "a", false))
  {
    var s := "(x a(b))";
    OpenDoesNotFlushSpace(v);
    RunPrefix(v, Ok(Start), s, 3);
    assert "" + ['a'] == "a";
  }

  lemma OpenDoesNotFlushOpen(v: Variant)
    ensures Run(v, Ok(Start), "(x a(b))"[..5]) == Ok(Scan([[], [Str("x")], []], "a", false))
  {
    var s := "(x a(b))";
    var x := Str("x");
    var e: seq<Node> := [];
    OpenDoesNotFlushPrefix(v);
    assert [e, [x]] + [e] == [e, [x], e];
    RunPrefix(v, Ok(Start), s, 4);
  }

  lemma OpenDoesNotFlushMiddle(v: Variant)
    ensures Run(v, Ok(Start), "(x a(b))"[..6]) == Ok(Scan([[], [Str("x")], []], "ab", false))
  {
    var s := "(x a(b))";
    OpenDoesNotFlushOpen(v);
    assert "a" + ['b'] == "ab";
    RunPrefix(v, Ok(Start), s, 5);
  }

  /** "(" does not flush a pending token: `(x a(b))` reads as ["x", ["ab"]]. */
  lemma OpenDoesNotFlush(v: Variant)
    ensures ParseText(v, "(x a(b))") == Ok(List([Str("x"), List([Str("ab")])]))
  {
    var s := "(x a(b))";
    var o := Ok(Start);
    var x, ab := Str("x"), Str("ab");
    var e: seq<Node> := [];
    OpenDoesNotFlushMiddle(v);
    assert e + [ab] == [ab];
    assert [e, [x], e][..2] == [e, [x]];
    assert [e, [x]] + [e + [ab]] == [e, [x], [ab]];
    assert [e, [x], [ab]][..1] == [e];
    assert [x] + [List([ab])] == [x, List([ab])];
    assert [e] + [[x] + [List([ab])]] == [e, [x, List([ab])]];
    RunPrefix(v, o, s, 6);
    assert Run(v, o, s[..7]) == Ok(Scan([e, [x, List([ab])]], "", false));
    assert e + [List([x, List([ab])])] == [List([x, List([ab])])];
    assert [e, [x, List([ab])]][..0] + [e + [List([x, List([ab])])]] == [[List([x, List([ab])])]];
    RunPrefix(v, o, s, 7);
    assert s[..8] == s;
  }

  /** An empty quoted string reads as "~" in sexp.py. */
  lemma EmptyQuotedIsTilde()
    ensures ParseText(Placeholder, "(a \"\")") == Ok(List([Str("a"), Str("~")]))
  {
    var s := "(a \"\")";
    var v := Placeholder;
    var o := Ok(Start);
    var e: seq<Node> := [];
    var a := Str("a");
    assert s[..0] == [];
    assert [[]] + [e] == [e, e];
    RunPrefix(v, o, s, 0);
    assert Run(v, o, s[..1]) == Ok(Scan([e, e], "", false));
    RunPrefix(v, o, s, 1);
    assert "" + ['a'] == "a";
    assert Run(v, o, s[..2]) == Ok(Scan([e, e], "a", false));
    assert e + [a] == [a];
    assert [e] + [e + [a]] == [e, [a]];
    RunPrefix(v, o, s, 2);
    assert Run(v, o, s[..3]) == Ok(Scan([e, [a]], "", false));
    RunPrefix(v, o, s, 3);
    assert Run(v, o, s[..4]) == Ok(Scan([e, [a]], "", true));
    RunPrefix(v, o, s, 4);
    assert Run(v, o, s[..5]) == Ok(Scan([e, [a]], "~", false));
    assert [a] + [Str("~")] == [a, Str("~")];
    assert [e] + [[a] + [Str("~")]] == [e, [a, Str("~")]];
    assert e + [List([a, Str("~")])] == [List([a, Str("~")])];
    assert [e, [a, Str("~")]][..0] + [e + [List([a, Str("~")])]] == [[List([a, Str("~")])]];
    RunPrefix(v, o, s, 5);
    assert s[..6] == s;
  }

  /** A ")" with only the root container open raises IndexError, and so does
      input in which nothing reaches the root. */
  lemma UnbalancedRaises(v: Variant)
    ensures ParseText(v, ")") == Raise(IndexError)
    ensures ParseText(v, "(a b") == Raise(IndexError)
  {
    assert ")"[..0] == "";
    var s := "(a b";
    var o := Ok(Start);
    var e: seq<Node> := [];
    var a := Str("a");
    assert s[..0] == [];
    assert [[]] + [e] == [e, e];
    RunPrefix(v, o, s, 0);
    assert Run(v, o, s[..1]) == Ok(Scan([e, e], "", false));
    RunPrefix(v, o, s, 1);
    assert "" + ['a'] == "a";
    assert Run(v, o, s[..2]) == Ok(Scan([e, e], "a", false));
    assert e + [a] == [a];
    assert [e] + [e + [a]] == [e, [a]];
    RunPrefix(v, o, s, 2);
    assert Run(v, o, s[..3]) == Ok(Scan([e, [a]], "", false));
    RunPrefix(v, o, s, 3);
    assert s[..4] == s;
  }

  /** The only exception the loop raises is the IndexError of closing the root. */
  lemma {:induction false} RunRaisesIndexError(v: Variant, o: Outcome<Scan>, s: string)
    requires o.Ok? ==> |o.value.stack| >= 1
    requires o.Raise? ==> o.exc == IndexError
    ensures Run(v, o, s).Raise? ==> Run(v, o, s).exc == IndexError
    decreases |s|
  {
    if |s| > 0 {
      RunRaisesIndexError(v, o, s[..|s| - 1]);
    }
  }

  /** A ")" read outside quotes while only the root container is open raises
      IndexError, whatever comes before and after it. */
  lemma StrayCloseRaises(v: Variant, s: string, t: string)
    requires Run(v, Ok(Start), s).Ok?
    requires |Run(v, Ok(Start), s).value.stack| == 1 && !Run(v, Ok(Start), s).value.quote
    ensures ParseText(v, s + ")" + t) == Raise(IndexError)
  {
    var u := s + ")" + t;
    var p := Run(v, Ok(Start), s);
    assert u[..|s| + 1] == s + ")";
    assert ")"[..0] == "";
    assert Run(v, p, ")") == Step(v, p.value, ')');
    assert Step(v, p.value, ')') == Raise(IndexError);
    RunConcat(v, Ok(Start), s, ")");
    RaiseStays(v, Ok(Start), u, |s| + 1);
  }

  /** The list opened by the first character is still open after every prefix
      of s that the loop reads without raising. */
  predicate FirstStaysOpen(v: Variant, s: string)
  {
    forall k :: 1 <= k <= |s| ==>
      Run(v, Ok(Start), s[..k]).Raise? || |Run(v, Ok(Start), s[..k]).value.stack| >= 2
  }

  /** While two lists or more stay open, a step leaves the root container alone. */
  lemma StepKeepsRoot(v: Variant, st: Scan, c: char)
    requires |st.stack| >= 2
    requires Step(v, st, c).Ok? && |Step(v, st, c).value.stack| >= 2
    ensures Step(v, st, c).value.stack[0] == st.stack[0]
  {
  }

  lemma {:induction false} RootEmptyWhileOpen(v: Variant, s: string, k: nat)
    requires |s| >= 1 && s[0] == '(' && FirstStaysOpen(v, s)
    requires 1 <= k <= |s|
    ensures Run(v, Ok(Start), s[..k]).Ok? ==> Run(v, Ok(Start), s[..k]).value.stack[0] == []
    decreases k
  {
    RunPrefix(v, Ok(Start), s, k - 1);
    if k == 1 {
      assert s[..0] == "";
    } else {
      RootEmptyWhileOpen(v, s, k - 1);
      var p := Run(v, Ok(Start), s[..k - 1]);
      if p.Ok? && Run(v, Ok(Start), s[..k]).Ok? {
        assert |p.value.stack| >= 2;
        StepKeepsRoot(v, p.value, s[k - 1]);
      }
    }
  }

  /** Input whose first list is never closed puts nothing in the root
      container, so `r[0][0]` raises IndexError if the loop has not already. */
  lemma UnclosedRaises(v: Variant, s: string)
    requires |s| >= 1 && s[0] == '(' && FirstStaysOpen(v, s)
    ensures ParseText(v, s) == Raise(IndexError)
  {
    RootEmptyWhileOpen(v, s, |s|);
    assert s[..|s|] == s;
    RunRaisesIndexError(v, Ok(Start), s);
  }

  /** A step never takes anything away from the root container. */
  lemma StepRootGrows(v: Variant, st: Scan, c: char)
    requires |st.stack| >= 1
    requires Step(v, st, c).Ok?
    ensures st.stack[0] <= Step(v, st, c).value.stack[0]
  {
  }

  lemma {:induction false} RunRootGrows(v: Variant, st: Scan, s: string)
    requires |st.stack| >= 1
    ensures Run(v, Ok(st), s).Ok? ==> st.stack[0] <= Run(v, Ok(st), s).value.stack[0]
    decreases |s|
  {
    if |s| > 0 {
      RunRootGrows(v, st, s[..|s| - 1]);
      var p := Run(v, Ok(st), s[..|s| - 1]);
      if p.Ok? && Step(v, p.value, s[|s| - 1]).Ok? {
        StepRootGrows(v, p.value, s[|s| - 1]);
      }
    }
  }

  /** Only the root's first element is returned: once input a has put a node
      there, more input that does not raise, such as a list left open, leaves
      the result alone. */
  lemma FirstNodeStays(v: Variant, a: string, b: string)
    requires ParseText(v, a).Ok? && Run(v, Ok(Start), a + b).Ok?
    ensures ParseText(v, a + b) == ParseText(v, a)
  {
    RunConcat(v, Ok(Start), a, b);
    RunRootGrows(v, Run(v, Ok(Start), a).value, b);
  }

  // ===========================================================================
  // Round trip: parsing what the serialiser wrote

  /** A str atom survives the round trip: non-empty, without '"' or newline. */
  predicate GoodText(s: string) { |s| > 0 && '"' !in s && '\n' !in s }

  predicate GoodTree(n: Node)
  {
    match n
    case Str(s) => GoodText(s)
    case List(cs) => forall k :: 0 <= k < |cs| ==> GoodTree(cs[k])
    case _ => true
  }

  predicate GoodSeq(cs: seq<Node>) { forall k :: 0 <= k < |cs| ==> GoodTree(cs[k]) }

  /** What the parser gives back for a node: every atom becomes the str of its text. */
  function Norm(n: Node): Node
    decreases n, 1
  {
    match n
    case Str(s) => Str(s)
    case Int(i) => Str(IntText(i))
    case Dec(c, sc) => Str(DecimalText(c, sc))
    case Flt(x) => Str(Fixed4(x))
    case List(cs) => List(NormSeq(cs))
  }

  function NormSeq(cs: seq<Node>): (r: seq<Node>)
    ensures |r| == |cs|
    decreases cs, 0
  {
    if |cs| == 0 then [] else [Norm(cs[0])] + NormSeq(cs[1..])
  }

  /** The text an atom parses back to. */
  function AtomValue(n: Node): string
    requires !n.List?
  {
    match n
    case Str(s) => s
    case Int(i) => IntText(i)
    case Dec(c, sc) => DecimalText(c, sc)
    case Flt(x) => Fixed4(x)
  }

  function AppendTop(stack: seq<seq<Node>>, n: Node): (r: seq<seq<Node>>)
    requires |stack| >= 1
    ensures |r| == |stack|
  {
    stack[..|stack| - 1] + [stack[|stack| - 1] + [n]]
  }

  /** Outside quotes, text with no structural character and no quote extends the token. */
  lemma {:induction false} PlainRun(v: Variant, stack: seq<seq<Node>>, token: string, t: string)
    requires |stack| >= 1
    requires forall i :: 0 <= i < |t| ==> !Structural(t[i]) && t[i] != '"'
    ensures Run(v, Ok(Scan(stack, token, false)), t) == Ok(Scan(stack, token + t, false))
    decreases |t|
  {
    if |t| > 0 {
      PlainRun(v, stack, token, t[..|t| - 1]);
      assert token + t[..|t| - 1] + [t[|t| - 1]] == token + t;
    } else {
      assert token + t == token;
    }
  }

  /** Inside quotes, every character except '"' extends the token. */
  lemma {:induction false} QuotedRun(v: Variant, stack: seq<seq<Node>>, token: string, t: string)
    requires |stack| >= 1
    requires '"' !in t
    ensures Run(v, Ok(Scan(stack, token, true)), t) == Ok(Scan(stack, token + t, true))
    decreases |t|
  {
    if |t| > 0 {
      assert t[..|t| - 1] + [t[|t| - 1]] == t;
      assert '"' !in t[..|t| - 1];
      QuotedRun(v, stack, token, t[..|t| - 1]);
      assert token + t[..|t| - 1] + [t[|t| - 1]] == token + t;
    } else {
      assert token + t == token;
    }
  }

  /** With no token pending, spaces and newlines outside quotes change nothing. */
  lemma {:induction false} BlankRun(v: Variant, stack: seq<seq<Node>>, t: string)
    requires |stack| >= 1
    requires forall i :: 0 <= i < |t| ==> t[i] == ' ' || t[i] == '\n'
    ensures Run(v, Ok(Scan(stack, "", false)), t) == Ok(Scan(stack, "", false))
    decreases |t|
  {
    if |t| > 0 {
      BlankRun(v, stack, t[..|t| - 1]);
    }
  }

  lemma WordCharsArePlain(s: string)
    requires WordPlus(s)
    ensures forall i :: 0 <= i < |s| ==> !Structural(s[i]) && s[i] != '"'
  {
    if s[0] == '-' {
      forall i | 1 <= i < |s| ensures IsWordChar(s[i]) {
        assert s[1..][i - 1] == s[i];
      }
    }
  }

  /** An atom's text, read with no token pending, leaves exactly its value pending. */
  lemma AtomRun(v: Variant, stack: seq<seq<Node>>, n: Node)
    requires |stack| >= 1
    requires !n.List? && GoodTree(n)
    ensures Run(v, Ok(Scan(stack, "", false)), AtomText(n)) == Ok(Scan(stack, AtomValue(n), false))
  {
    match n
    case Str(s) =>
      if BareWord(s) {
        assert WordPlus(s);
        WordCharsArePlain(s);
        PlainRun(v, stack, "", s);
        assert "" + s == s;
      } else {
        var q := Ok(Scan(stack, "", true));
        assert Run(v, Ok(Scan(stack, "", false)), "\"") == q by {
          assert "\""[..0] == "";
        }
        QuotedRun(v, stack, "", s);
        assert "" + s == s;
        RunConcat(v, Ok(Scan(stack, "", false)), "\"", s);
        RunConcat(v, Ok(Scan(stack, "", false)), "\"" + s, "\"");
        assert ("\"" + s + "\"")[..|"\"" + s + "\""| - 1] == "\"" + s;
      }
    case Int(i) =>
      PlainRun(v, stack, "", IntText(i));
      assert "" + IntText(i) == IntText(i);
    case Dec(c, sc) =>
      PlainRun(v, stack, "", DecimalText(c, sc));
      assert "" + DecimalText(c, sc) == DecimalText(c, sc);
    case Flt(x) =>
      PlainRun(v, stack, "", Fixed4(x));
      assert "" + Fixed4(x) == Fixed4(x);
  }

  /** Reading one character is one step. */
  lemma RunChar(v: Variant, o: Outcome<Scan>, c: char)
    requires o.Ok? ==> |o.value.stack| >= 1
    ensures Run(v, o, [c]) == if o.Raise? then o else Step(v, o.value, c)
  {
    assert [c][..0] == [];
  }

  /** The state after reading one part inside a list whose earlier parts are
      in top: a list part is already appended, an atom part is pending. */
  function AfterPart(stack: seq<seq<Node>>, top: seq<Node>, c: Node): Scan
  {
    if c.List? then Scan(stack + [top + [Norm(c)]], "", false) else Scan(stack + [top], AtomValue(c), false)
  }

  /** A rendered list, read with no token pending, appends its normal form to the
      innermost open list. Holds for both parser variants. */
  lemma {:induction false} ListRun(v: Variant, stack: seq<seq<Node>>, cs: seq<Node>, depth: nat)
    requires |stack| >= 1
    requires GoodSeq(cs)
    ensures Run(v, Ok(Scan(stack, "", false)), Generate(cs, depth))
         == Ok(Scan(AppendTop(stack, List(NormSeq(cs))), "", false))
    decreases cs, 1
  {
    var o := Ok(Scan(stack, "", false));
    var lead := "\n" + Spaces(2 * depth);
    BlankRun(v, stack, lead);
    RunChar(v, Run(v, o, lead), '(');
    RunConcat(v, o, lead, "(");
    ClosingRun(v, stack, [], cs, depth);
    RunConcat(v, o, lead + "(", Join(cs, depth) + ")");
    assert Generate(cs, depth) == lead + "(" + (Join(cs, depth) + ")");
    assert [] + NormSeq(cs) == NormSeq(cs);
  }

  /** One part of a list, read inside it with no token pending. */
  lemma {:induction false} PartRun(v: Variant, stack: seq<seq<Node>>, top: seq<Node>, c: Node, depth: nat)
    requires |stack| >= 1
    requires GoodTree(c)
    ensures Run(v, Ok(Scan(stack + [top], "", false)), Part(c, depth)) == Ok(AfterPart(stack, top, c))
    decreases c
  {
    if c.List? {
      ListRun(v, stack + [top], c.children, depth + 1);
      assert AppendTop(stack + [top], List(NormSeq(c.children))) == stack + [top + [Norm(c)]];
    } else {
      AtomRun(v, stack + [top], c);
    }
  }

  lemma AtomValueNonEmpty(c: Node)
    requires !c.List? && GoodTree(c)
    ensures AtomValue(c) != "" && Norm(c) == Str(AtomValue(c))
  {
  }

  /** A space after a part leaves it appended and no token pending. */
  lemma SpaceAfterPart(v: Variant, stack: seq<seq<Node>>, top: seq<Node>, c: Node)
    requires |stack| >= 1
    requires GoodTree(c)
    ensures Run(v, Ok(AfterPart(stack, top, c)), " ") == Ok(Scan(stack + [top + [Norm(c)]], "", false))
  {
    RunChar(v, Ok(AfterPart(stack, top, c)), ' ');
    if !c.List? {
      AtomValueNonEmpty(c);
    }
  }

  /** A closing parenthesis after a part closes the list into its parent. */
  lemma CloseAfterPart(v: Variant, stack: seq<seq<Node>>, top: seq<Node>, c: Node)
    requires |stack| >= 1
    requires GoodTree(c)
    ensures Run(v, Ok(AfterPart(stack, top, c)), ")") == Ok(Scan(AppendTop(stack, List(top + [Norm(c)])), "", false))
  {
    RunChar(v, Ok(AfterPart(stack, top, c)), ')');
    if !c.List? {
      AtomValueNonEmpty(c);
    }
    var full := stack + [top + [Norm(c)]];
    assert Flush(AfterPart(stack, top, c).stack, AfterPart(stack, top, c).token) == full;
    assert full[..|full| - 2] + [full[|full| - 2] + [List(full[|full| - 1])]] == AppendTop(stack, List(top + [Norm(c)]));
  }

  /** The parts of a list followed by its closing parenthesis, read inside that
      list (top holds what was read so far), close it into its parent. */
  lemma {:induction false} ClosingRun(v: Variant, stack: seq<seq<Node>>, top: seq<Node>, cs: seq<Node>, depth: nat)
    requires |stack| >= 1
    requires GoodSeq(cs)
    ensures Run(v, Ok(Scan(stack + [top], "", false)), Join(cs, depth) + ")")
         == Ok(Scan(AppendTop(stack, List(top + NormSeq(cs))), "", false))
    decreases cs, 0
  {
    if |cs| == 0 {
      ClosingRunEmpty(v, stack, top, cs, depth);
    } else {
      PartRun(v, stack, top, cs[0], depth);
      if |cs| == 1 {
        ClosingRunLast(v, stack, top, cs, depth);
      } else {
        assert GoodSeq(cs[1..]) by {
          forall k | 0 <= k < |cs[1..]| ensures GoodTree(cs[1..][k]) {
            assert cs[1..][k] == cs[k + 1];
          }
        }
        ClosingRun(v, stack, top + [Norm(cs[0])], cs[1..], depth);
        ClosingRunMore(v, stack, top, cs, depth);
      }
    }
  }

  /** The closing parenthesis of an empty list. */
  lemma ClosingRunEmpty(v: Variant, stack: seq<seq<Node>>, top: seq<Node>, cs: seq<Node>, depth: nat)
    requires |stack| >= 1 && |cs| == 0
    ensures Run(v, Ok(Scan(stack + [top], "", false)), Join(cs, depth) + ")")
         == Ok(Scan(AppendTop(stack, List(top + NormSeq(cs))), "", false))
  {
    assert Join(cs, depth) + ")" == ")";
    RunChar(v, Ok(Scan(stack + [top], "", false)), ')');
    CloseTop(stack, top);
    assert top + NormSeq(cs) == top;
  }

  /** Closing the innermost list appends it to its parent. */
  lemma CloseTop(stack: seq<seq<Node>>, top: seq<Node>)
    requires |stack| >= 1
    ensures Close(stack + [top]) == Ok(AppendTop(stack, List(top)))
  {
    var inner := stack + [top];
    assert inner[..|inner| - 2] == stack[..|stack| - 1];
    assert inner[|inner| - 2] == stack[|stack| - 1] && inner[|inner| - 1] == top;
  }

  /** The last part of a list and its closing parenthesis. */
  lemma ClosingRunLast(v: Variant, stack: seq<seq<Node>>, top: seq<Node>, cs: seq<Node>, depth: nat)
    requires |stack| >= 1 && |cs| == 1 && GoodTree(cs[0])
    requires Run(v, Ok(Scan(stack + [top], "", false)), Part(cs[0], depth)) == Ok(AfterPart(stack, top, cs[0]))
    ensures Run(v, Ok(Scan(stack + [top], "", false)), Join(cs, depth) + ")")
         == Ok(Scan(AppendTop(stack, List(top + NormSeq(cs))), "", false))
  {
    var c := cs[0];
    assert Join(cs, depth) + ")" == Part(c, depth) + ")";
    CloseAfterPart(v, stack, top, c);
    RunConcat(v, Ok(Scan(stack + [top], "", false)), Part(c, depth), ")");
    assert NormSeq(cs) == [Norm(c)];
  }

  /** A part, the space after it, and the rest of the list read recursively. */
  lemma ClosingRunMore(v: Variant, stack: seq<seq<Node>>, top: seq<Node>, cs: seq<Node>, depth: nat)
    requires |stack| >= 1 && |cs| >= 2 && GoodTree(cs[0])
    requires Run(v, Ok(Scan(stack + [top], "", false)), Part(cs[0], depth)) == Ok(AfterPart(stack, top, cs[0]))
    requires Run(v, Ok(Scan(stack + [top + [Norm(cs[0])]], "", false)), Join(cs[1..], depth) + ")")
          == Ok(Scan(AppendTop(stack, List(top + [Norm(cs[0])] + NormSeq(cs[1..]))), "", false))
    ensures Run(v, Ok(Scan(stack + [top], "", false)), Join(cs, depth) + ")")
         == Ok(Scan(AppendTop(stack, List(top + NormSeq(cs))), "", false))
  {
    var c := cs[0];
    var o := Ok(Scan(stack + [top], "", false));
    var rest := Join(cs[1..], depth) + ")";
    assert Run(v, o, Part(c, depth) + " ") == Ok(Scan(stack + [top + [Norm(c)]], "", false)) by {
      SpaceAfterPart(v, stack, top, c);
      RunConcat(v, o, Part(c, depth), " ");
    }
    assert Join(cs, depth) + ")" == Part(c, depth) + " " + rest;
    RunConcat(v, o, Part(c, depth) + " ", rest);
    assert top + [Norm(c)] + NormSeq(cs[1..]) == top + NormSeq(cs);
  }

  /** Round trip: sexp_parse(sexp_generate(cs)) is the list of cs with every atom
      turned into the str of its text (tuples read back as lists), whenever every
      str atom is non-empty and has no '"' or newline. It holds for the moddraw.py
      strain of the parser as well. */
  lemma RoundTrip(v: Variant, cs: seq<Node>, depth: nat)
    requires GoodSeq(cs)
    ensures ParseText(v, Generate(cs, depth)) == Ok(List(NormSeq(cs)))
  {
    ListRun(v, [[]], cs, depth);
  }

  // ===========================================================================
  // Determinism: serialise, parse, serialise again

  /** Every Decimal atom prints positionally (the serialiser's only atoms that
      can print with a '-' after the first character). */
  predicate PositionalTree(n: Node)
  {
    match n
    case Dec(c, sc) => Positional(c, sc)
    case List(cs) => forall k :: 0 <= k < |cs| ==> PositionalTree(cs[k])
    case _ => true
  }

  predicate PositionalSeq(cs: seq<Node>) { forall k :: 0 <= k < |cs| ==> PositionalTree(cs[k]) }

  lemma {:induction false} NatTextWord(n: nat)
    ensures AllWordChars(NatText(n))
  {}

  lemma IntTextIsWord(i: int)
    ensures BareWord(IntText(i))
  {
    if i < 0 {
      assert IntText(i)[1..] == NatText(-i);
    }
  }

  lemma Fixed4IsWord(x: real)
    ensures BareWord(Fixed4(x))
  {
    var m := if x < 0.0 then -x else x;
    var n := RoundHalfEven(m * 10000.0);
    FixedBodyWord(n);
    SignedWord(x < 0.0, NatText(n / 10000) + "." + Pad4(n % 10000));
  }

  /** The digits, point and four decimals of a fixed-point text. */
  lemma FixedBodyWord(n: nat)
    ensures AllWordChars(NatText(n / 10000) + "." + Pad4(n % 10000))
  {
    var w, f := NatText(n / 10000), Pad4(n % 10000);
    assert AllWordChars(w) && AllWordChars(".") && AllWordChars(f);
    WordConcat(w, ".");
    WordConcat(w + ".", f);
  }

  lemma WordConcat(a: string, b: string)
    requires AllWordChars(a) && AllWordChars(b)
    ensures AllWordChars(a + b)
  {
  }

  /** The unsigned part of a positional Decimal: digits with at most one point. */
  lemma PositionalDigitsAreWord(d: string, sc: nat)
    requires IsDigits(d) && (sc == 0 || |d| - 1 - sc >= -6)
    ensures AllWordChars(DecimalDigits(d, sc))
  {
    assert AllWordChars(d);
    assert AllWordChars(".");
    if sc > 0 && |d| > sc {
      WordConcat(d[..|d| - sc], ".");
      WordConcat(d[..|d| - sc] + ".", d[|d| - sc..]);
    }
    if sc > 0 && |d| <= sc {
      WordConcat("0.", Zeros(sc - |d|));
      WordConcat("0." + Zeros(sc - |d|), d);
    }
  }

  /** A non-empty run of word characters, with or without a leading '-', is a single word. */
  lemma SignedWord(neg: bool, digits: string)
    requires |digits| > 0 && AllWordChars(digits)
    ensures BareWord((if neg then "-" else "") + digits)
  {
    if neg {
      assert ("-" + digits)[1..] == digits;
    } else {
      assert "" + digits == digits;
    }
  }

  lemma DecimalTextIsWord(c: int, sc: nat)
    requires Positional(c, sc)
    ensures BareWord(DecimalText(c, sc))
  {
    var d := NatText(if c < 0 then -c else c);
    PositionalDigitsAreWord(d, sc);
    SignedWord(c < 0, DecimalDigits(d, sc));
  }

  lemma NumberTextIsWord(n: Node)
    requires n.Int? || n.Flt? || (n.Dec? && Positional(n.coeff, n.scale))
    ensures BareWord(AtomText(n))
  {
    match n
    case Int(i) => IntTextIsWord(i);
    case Flt(x) => Fixed4IsWord(x);
    case Dec(c, sc) => DecimalTextIsWord(c, sc);
  }

  /** Re-serialising the parsed tree gives the same bytes: for str atoms the
      quoting decision depends on the text alone, and numbers print as words. */
  lemma {:induction false} GenerateNorm(cs: seq<Node>, depth: nat)
    requires PositionalSeq(cs)
    ensures Generate(NormSeq(cs), depth) == Generate(cs, depth)
    decreases cs, 1
  {
    JoinNorm(cs, depth);
  }

  lemma {:induction false} JoinNorm(cs: seq<Node>, depth: nat)
    requires PositionalSeq(cs)
    ensures Join(NormSeq(cs), depth) == Join(cs, depth)
    decreases cs, 0
  {
    if |cs| > 0 {
      var c := cs[0];
      assert NormSeq(cs)[0] == Norm(c);
      if c.List? {
        assert c in cs;
        GenerateNorm(c.children, depth + 1);
      } else if !c.Str? {
        NumberTextIsWord(c);
      }
      assert Part(Norm(c), depth) == Part(c, depth);
      if |cs| > 1 {
        assert NormSeq(cs)[1..] == NormSeq(cs[1..]);
        JoinNorm(cs[1..], depth);
      }
    }
  }

  /** serialise ∘ parse ∘ serialise == serialise, on the trees that round-trip
      and whose Decimals print positionally. */
  lemma GenerateParseGenerate(cs: seq<Node>, depth: nat)
    requires GoodSeq(cs) && PositionalSeq(cs)
    ensures ParseText(Placeholder, Generate(cs, depth)).Ok?
    ensures var t := ParseText(Placeholder, Generate(cs, depth)).value;
            t.List? && Generate(t.children, depth) == Generate(cs, depth)
  {
    RoundTrip(Placeholder, cs, depth);
    GenerateNorm(cs, depth);
  }

  /** A Decimal printed in scientific notation is emitted bare by the number
      branch but quoted once it has been read back as a str. */
  lemma ScientificDecimalNotStable()
    ensures Generate([Dec(1, 7)], 0) == "\n(1E-7)"
    ensures Generate(NormSeq([Dec(1, 7)]), 0) == "\n(\"1E-7\")"
  {
    ScientificText();
    assert Join([Dec(1, 7)], 0) == "1E-7";
    ScientificNorm();
  }

  /** str(Decimal("1E-7")) is "1E-7", which is not a bare word. */
  lemma ScientificText()
    ensures DecimalText(1, 7) == "1E-7" && !BareWord("1E-7")
  {
    assert NatText(1) == "1";
    assert NatText(7) == "7";
    assert DecimalDigits("1", 7) == "1E-7";
    assert !AllWordChars("1E-7") by { assert !IsWordChar("1E-7"[2]); }
  }

  /** Read back, the atom is a str that is emitted quoted. */
  lemma ScientificNorm()
    requires DecimalText(1, 7) == "1E-7" && !BareWord("1E-7")
    ensures Join(NormSeq([Dec(1, 7)]), 0) == "\"1E-7\""
  {
    assert NormSeq([Dec(1, 7)]) == [Str("1E-7")];
  }
}
