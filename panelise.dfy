/**
 * scripts/panelise.py: replicate the items of a parsed board xr by yr times
 * at a pitch, offsetting their coordinates as exact Decimals. The board is a
 * tree as the parser returns it; Decimal values are coefficient and scale.
 */
module Panelise {
  import opened Py
  import opened Sexp

  // ===========================================================================
  // Decimal arithmetic

  /** A finite Decimal coeff * 10^-scale, its exponent -scale kept. */
  datatype Decimal = Decimal(coeff: int, scale: nat)

  function Value(d: Decimal): real
  {
    d.coeff as real / Pow10(d.scale) as real
  }

  function AsNode(d: Decimal): Node
  {
    Dec(d.coeff, d.scale)
  }

  /** Decimal addition: exact, at the smaller of the two exponents. */
  function Add(a: Decimal, b: Decimal): Decimal
  {
    var s := if a.scale >= b.scale then a.scale else b.scale;
    Decimal(a.coeff * Pow10(s - a.scale) + b.coeff * Pow10(s - b.scale), s)
  }

  /** int times Decimal keeps the Decimal's exponent. */
  function Times(i: int, d: Decimal): Decimal
  {
    Decimal(i * d.coeff, d.scale)
  }

  lemma {:induction false} Pow10Add(i: nat, j: nat)
    ensures Pow10(i + j) == Pow10(i) * Pow10(j)
    decreases i
  {
    if i > 0 {
      Pow10Add(i - 1, j);
    }
  }

  /** Scaling coefficient and denominator by the same factor. */
  lemma Cancel(c: int, f: nat, p: nat)
    requires f > 0 && p > 0
    ensures (c * f) as real / (f * p) as real == c as real / p as real
  {
    var cr, fr, pr := c as real, f as real, p as real;
    assert (c * f) as real == cr * fr;
    assert (f * p) as real == fr * pr;
    assert (cr * fr) / (fr * pr) == cr / pr;
  }

  /** Rescaling a Decimal to a finer exponent keeps its value. */
  lemma {:induction false} RescaleValue(c: int, sc: nat, s: nat)
    requires sc <= s
    ensures (c * Pow10(s - sc)) as real / Pow10(s) as real == c as real / Pow10(sc) as real
  {
    Pow10Add(s - sc, sc);
    Cancel(c, Pow10(s - sc), Pow10(sc));
  }

  lemma SumOver(a: int, b: int, p: nat)
    requires p > 0
    ensures (a + b) as real / p as real == a as real / p as real + b as real / p as real
  {
  }

  /** The sum's value is the sum of the values, at the finer scale. */
  lemma AddValue(a: Decimal, b: Decimal)
    ensures Value(Add(a, b)) == Value(a) + Value(b)
    ensures Add(a, b).scale == if a.scale >= b.scale then a.scale else b.scale
  {
    var s := Add(a, b).scale;
    var ca, cb := a.coeff * Pow10(s - a.scale), b.coeff * Pow10(s - b.scale);
    assert Add(a, b).coeff == ca + cb;
    RescaleValue(a.coeff, a.scale, s);
    RescaleValue(b.coeff, b.scale, s);
    SumOver(ca, cb, Pow10(s));
  }

  lemma TimesValue(i: int, d: Decimal)
    ensures Value(Times(i, d)) == i as real * Value(d) && Times(i, d).scale == d.scale
  {
    assert (i * d.coeff) as real == i as real * d.coeff as real;
  }

  /** The text after an optional sign. */
  function Unsigned(s: string): string
  {
    if |s| > 0 && (s[0] == '-' || s[0] == '+') then s[1..] else s
  }

  /** The digits before the point, or all of body when it has none. */
  function Whole(body: string): string
  {
    body[..IndexOf(body, '.')]
  }

  /** The digits after the point, empty when there is none. */
  function Fraction(body: string): string
  {
    var p := IndexOf(body, '.');
    if p < |body| then body[p + 1..] else ""
  }

  /** Decimal(s) of a literal: an optional sign, digits with an optional
      point (at least one digit), and an optional exponent marker with a
      signed whole exponent. The exponent is the marker's value minus the
      number of digits after the point; a positive one is held as exponent 0
      with the coefficient scaled, which leaves every sum with a pitch of
      exponent 0 or below unchanged. */
  function ParseDecimal(s: string): Option<Decimal>
  {
    var body := Unsigned(s);
    var e := ExponentAt(body);
    var mag := Magnitude(body[..e], if e < |body| then ExponentValue(body[e + 1..]) else Some(0));
    if mag.None? then None
    else Some(if |s| > 0 && s[0] == '-' then Decimal(-mag.value.coeff, mag.value.scale) else mag.value)
  }

  /** The unsigned Decimal of a mantissa and the exponent after it. */
  function Magnitude(mant: string, exp: Option<int>): Option<Decimal>
  {
    if !AllDigits(Whole(mant)) || !AllDigits(Fraction(mant)) || |Whole(mant)| + |Fraction(mant)| == 0 || exp.None? then None
    else
      var m: int := DigitsValue(Whole(mant) + Fraction(mant));
      var x := exp.value - |Fraction(mant)|;
      Some(if x >= 0 then Decimal(m * Pow10(x), 0) else Decimal(m, -x))
  }

  lemma NegOver(m: int, p: nat)
    requires p > 0
    ensures (-m) as real / p as real == -(m as real / p as real)
  {
  }

  /** The held magnitude has the value Scale10 gives digits and exponent. */
  lemma ScaledValue(m: nat, x: int)
    ensures x >= 0 ==> Value(Decimal(m * Pow10(x), 0)) == Scale10(m as real, x)
    ensures x < 0 ==> Value(Decimal(m, -x)) == Scale10(m as real, x)
  {
    if x >= 0 {
      assert (m * Pow10(x)) as real == m as real * Pow10(x) as real;
    }
  }

  /** Magnitude reads the mantissa as Python's Decimal does. */
  lemma MagnitudeValue(mant: string, exp: Option<int>)
    ensures Magnitude(mant, exp).Some? <==> MantissaOf(mant, exp).Some?
    ensures Magnitude(mant, exp).Some? ==> MantissaOf(mant, exp) == Some(Value(Magnitude(mant, exp).value))
  {
    if Magnitude(mant, exp).Some? {
      ScaledValue(DigitsValue(Whole(mant) + Fraction(mant)), exp.value - |Fraction(mant)|);
    }
  }

  /** ParseDecimal accepts exactly the text Python's Decimal reads as a
      finite number, and holds the value Decimal gives it. */
  lemma ParseDecimalValue(s: string)
    ensures ParseDecimal(s).Some? <==> DecimalOf(s).Some?
    ensures ParseDecimal(s).Some? ==> DecimalOf(s) == Some(Value(ParseDecimal(s).value))
  {
    var body := Unsigned(s);
    var e := ExponentAt(body);
    var exp := if e < |body| then ExponentValue(body[e + 1..]) else Some(0);
    assert UnsignedOf(body) == MantissaOf(body[..e], exp);
    MagnitudeValue(body[..e], exp);
    if ParseDecimal(s).Some? {
      var mag := Magnitude(body[..e], exp).value;
      NegOver(mag.coeff, Pow10(mag.scale));
    }
  }

  /** Decimal(v) of a tree atom. A list is read as a (sign, digits,
      exponent) tuple, and one the parser builds is never valid; a float is
      not produced by the parser. */
  function ToDecimal(v: Node): Outcome<Decimal>
  {
    match v
    case Str(s) => if ParseDecimal(s).Some? then Ok(ParseDecimal(s).value) else Raise(InvalidOperation)
    case Int(i) => Ok(Decimal(i, 0))
    case Dec(c, sc) => Ok(Decimal(c, sc))
    case Flt(_) => Raise(TypeError)
    case List(_) => Raise(ValueError)
  }

  // ===========================================================================
  // Loops over children that stop at the first exception

  /** Apply f to each element in order; the first exception ends the loop. */
  function Traverse(f: Node -> Outcome<Node>, cs: seq<Node>): Outcome<seq<Node>>
  {
    if |cs| == 0 then Ok([])
    else
      var init :- Traverse(f, cs[..|cs| - 1]);
      var last :- f(cs[|cs| - 1]);
      Ok(init + [last])
  }

  lemma TraverseLength(f: Node -> Outcome<Node>, cs: seq<Node>)
    requires Traverse(f, cs).Ok?
    ensures |Traverse(f, cs).value| == |cs|
  {
  }

  /** Element k of the result is f of element k. */
  lemma {:induction false} TraverseIndex(f: Node -> Outcome<Node>, cs: seq<Node>, k: nat)
    requires Traverse(f, cs).Ok? && k < |cs|
    ensures |Traverse(f, cs).value| == |cs|
    ensures f(cs[k]).Ok? && Traverse(f, cs).value[k] == f(cs[k]).value
    decreases |cs|
  {
    TraverseLength(f, cs);
    if k < |cs| - 1 {
      var init := cs[..|cs| - 1];
      assert init[k] == cs[k];
      TraverseIndex(f, init, k);
    }
  }

  lemma TraverseOk(f: Node -> Outcome<Node>, cs: seq<Node>, k: nat)
    requires k < |cs| && Traverse(f, cs[..k]).Ok? && f(cs[k]).Ok?
    ensures Traverse(f, cs[..k + 1]) == Ok(Traverse(f, cs[..k]).value + [f(cs[k]).value])
  {
    assert cs[..k + 1][..k] == cs[..k];
  }

  /** An exception at element k is the loop's exception. */
  lemma {:induction false} TraverseStops(f: Node -> Outcome<Node>, cs: seq<Node>, k: nat)
    requires k < |cs| && Traverse(f, cs[..k]).Ok? && f(cs[k]).Raise?
    ensures Traverse(f, cs) == Raise(f(cs[k]).exc)
    decreases |cs|
  {
    if k < |cs| - 1 {
      assert cs[..|cs| - 1][..k] == cs[..k];
      TraverseStops(f, cs[..|cs| - 1], k);
    } else {
      assert cs[..k] == cs[..|cs| - 1];
    }
  }

  /** The loops below rewrite a copy in place: the first idx elements are
      done, the rest are still the original's. */
  lemma TraverseAt(f: Node -> Outcome<Node>, cs: seq<Node>, idx: nat, copy: seq<Node>)
    requires idx < |cs| && Traverse(f, cs[..idx]).Ok? && copy == Traverse(f, cs[..idx]).value + cs[idx..]
    ensures |copy| == |cs| && copy[idx] == cs[idx]
  {
    TraverseLength(f, cs[..idx]);
  }

  lemma TraverseNext(f: Node -> Outcome<Node>, cs: seq<Node>, idx: nat, copy: seq<Node>, v: Node)
    requires idx < |cs| && Traverse(f, cs[..idx]).Ok? && copy == Traverse(f, cs[..idx]).value + cs[idx..]
    requires f(cs[idx]) == Ok(v)
    ensures Traverse(f, cs[..idx + 1]).Ok? && |copy| == |cs|
    ensures copy[idx := v] == Traverse(f, cs[..idx + 1]).value + cs[idx + 1..]
  {
    TraverseLength(f, cs[..idx]);
    TraverseOk(f, cs, idx);
    var done := Traverse(f, cs[..idx]).value;
    assert cs[idx..][1..] == cs[idx + 1..];
    assert (done + cs[idx..])[|done| := v] == (done + [v]) + cs[idx..][1..];
  }

  lemma TraverseDone(f: Node -> Outcome<Node>, cs: seq<Node>, copy: seq<Node>)
    requires Traverse(f, cs[..|cs|]).Ok? && copy == Traverse(f, cs[..|cs|]).value + cs[|cs|..]
    ensures Traverse(f, cs).Ok? && copy == Traverse(f, cs).value
  {
    assert cs[..|cs|] == cs && cs[|cs|..] == [];
  }

  // ===========================================================================
  // simple: offset the at/start/end children of one copy

  predicate Positioned(tag: Node)
  {
    tag == Str("at") || tag == Str("start") || tag == Str("end")
  }

  /** One child of the copy after simple's loop body: a positioned child
      gets elements 1 and 2 replaced by Decimal(v) + x and Decimal(v) + y.
      Indexing an empty list or string raises IndexError, other atoms are
      not subscriptable. */
  function ShiftChild(child: Node, x: Decimal, y: Decimal): Outcome<Node>
  {
    match child
    case List(cs) =>
      if |cs| == 0 then Raise(IndexError)
      else if !Positioned(cs[0]) then Ok(child)
      else if |cs| < 2 then Raise(IndexError)
      else
        var a :- ToDecimal(cs[1]);
        if |cs| < 3 then Raise(IndexError)
        else
          var b :- ToDecimal(cs[2]);
          Ok(List(cs[1 := AsNode(Add(a, x))][2 := AsNode(Add(b, y))]))
    case Str(s) => if |s| == 0 then Raise(IndexError) else Ok(child)
    case _ => Raise(TypeError)
  }

  function ShiftOf(x: Decimal, y: Decimal): Node -> Outcome<Node>
  {
    (c: Node) => ShiftChild(c, x, y)
  }

  /** One offset copy of a node's children, as simple builds it. */
  function Shifted(cs: seq<Node>, x: Decimal, y: Decimal): Outcome<seq<Node>>
  {
    Traverse(ShiftOf(x, y), cs)
  }

  /** simple's loop body for one child. */
  method ShiftOne(child: Node, x: Decimal, y: Decimal) returns (r: Outcome<Node>)
    ensures r == ShiftChild(child, x, y)
  {
    if !child.List? {
      if child.Str? && |child.s| > 0 {
        return Ok(child);
      }
      return Raise(if child.Str? then IndexError else TypeError);
    }
    var cs := child.children;
    if |cs| == 0 {
      return Raise(IndexError);
    }
    if !(cs[0] == Str("at") || cs[0] == Str("start") || cs[0] == Str("end")) {
      return Ok(child);
    }
    if |cs| < 2 {
      return Raise(IndexError);
    }
    var a := ToDecimal(cs[1]);
    if a.Raise? {
      return Raise(a.exc);
    }
    cs := cs[1 := AsNode(Add(a.value, x))];
    if |cs| < 3 {
      return Raise(IndexError);
    }
    var b := ToDecimal(cs[2]);
    if b.Raise? {
      return Raise(b.exc);
    }
    cs := cs[2 := AsNode(Add(b.value, y))];
    r := Ok(List(cs));
  }

  /** simple: append to out a copy of n with its positions offset by (x, y). */
  method Simple(n: seq<Node>, out: seq<Node>, x: Decimal, y: Decimal) returns (r: Outcome<seq<Node>>)
    ensures r.Ok? <==> Shifted(n, x, y).Ok?
    ensures r.Ok? ==> r.value == out + [List(Shifted(n, x, y).value)]
    ensures r.Raise? ==> r.exc == Shifted(n, x, y).exc
  {
    var f := ShiftOf(x, y);
    var copy := n;
    var idx := 0;
    while idx < |copy|
      invariant 0 <= idx <= |n| && |copy| == |n|
      invariant Traverse(f, n[..idx]).Ok? && copy == Traverse(f, n[..idx]).value + n[idx..]
    {
      TraverseAt(f, n, idx, copy);
      var c := ShiftOne(copy[idx], x, y);
      if c.Raise? {
        TraverseStops(f, n, idx);
        return Raise(c.exc);
      }
      TraverseNext(f, n, idx, copy, c.value);
      copy := copy[idx := c.value];
      idx := idx + 1;
    }
    TraverseDone(f, n, copy);
    r := Ok(out + [List(copy)]);
  }

  // ===========================================================================
  // zone: rebuild the points of polygon and filled_polygon children

  predicate Outlined(tag: Node)
  {
    tag == Str("polygon") || tag == Str("filled_polygon")
  }

  /** One unpacked point (xy, xx, yy) of the original outline: it must have
      three parts, and its tag is kept. A three-letter string unpacks into
      its characters. */
  function ShiftPoint(p: Node, x: Decimal, y: Decimal): Outcome<Node>
  {
    match p
    case List(q) =>
      if |q| != 3 then Raise(ValueError)
      else
        var a :- ToDecimal(q[1]);
        var b :- ToDecimal(q[2]);
        Ok(List([q[0], AsNode(Add(a, x)), AsNode(Add(b, y))]))
    case Str(u) =>
      if |u| != 3 then Raise(ValueError)
      else
        var a :- ToDecimal(Str(u[1..2]));
        var b :- ToDecimal(Str(u[2..]));
        Ok(List([Str(u[..1]), AsNode(Add(a, x)), AsNode(Add(b, y))]))
    case _ => Raise(TypeError)
  }

  function PointOf(x: Decimal, y: Decimal): Node -> Outcome<Node>
  {
    (p: Node) => ShiftPoint(p, x, y)
  }

  /** What zone iterates: element 1 of the child without its first item.
      Iterating a string yields one-character strings, which cannot unpack
      into three. */
  function OutlinePoints(pts: Node, x: Decimal, y: Decimal): Outcome<seq<Node>>
  {
    match pts
    case List(ps) => if |ps| == 0 then Ok([]) else Traverse(PointOf(x, y), ps[1..])
    case Str(t) => if |t| <= 1 then Ok([]) else Raise(ValueError)
    case _ => Raise(TypeError)
  }

  function ZoneChild(child: Node, x: Decimal, y: Decimal): Outcome<Node>
  {
    match child
    case List(cs) =>
      if |cs| == 0 then Raise(IndexError)
      else if !Outlined(cs[0]) then Ok(child)
      else if |cs| < 2 then Raise(IndexError)
      else
        var pts :- OutlinePoints(cs[1], x, y);
        Ok(List(cs[1 := List([Str("pts")] + pts)]))
    case Str(s) => if |s| == 0 then Raise(IndexError) else Ok(child)
    case _ => Raise(TypeError)
  }

  function ZoneOf(x: Decimal, y: Decimal): Node -> Outcome<Node>
  {
    (c: Node) => ZoneChild(c, x, y)
  }

  /** One offset copy of a zone's children, as zone builds it. */
  function Zoned(cs: seq<Node>, x: Decimal, y: Decimal): Outcome<seq<Node>>
  {
    Traverse(ZoneOf(x, y), cs)
  }

  /** zone's inner loop: the shifted points of an outline, in order. */
  method ShiftOutline(ps: seq<Node>, x: Decimal, y: Decimal) returns (r: Outcome<seq<Node>>)
    ensures r == Traverse(PointOf(x, y), ps)
  {
    var f := PointOf(x, y);
    var pts := [];
    var i := 0;
    while i < |ps|
      invariant 0 <= i <= |ps|
      invariant Traverse(f, ps[..i]) == Ok(pts)
    {
      var p := ShiftPoint(ps[i], x, y);
      if p.Raise? {
        TraverseStops(f, ps, i);
        return Raise(p.exc);
      }
      TraverseOk(f, ps, i);
      pts := pts + [p.value];
      i := i + 1;
    }
    assert ps[..|ps|] == ps;
    r := Ok(pts);
  }

  /** zone's loop body for one child: element 1 of an outline becomes
      ["pts"] followed by one shifted point per original point. */
  method ZoneOne(child: Node, x: Decimal, y: Decimal) returns (r: Outcome<Node>)
    ensures r == ZoneChild(child, x, y)
  {
    if !child.List? {
      if child.Str? && |child.s| > 0 {
        return Ok(child);
      }
      return Raise(if child.Str? then IndexError else TypeError);
    }
    var cs := child.children;
    if |cs| == 0 {
      return Raise(IndexError);
    }
    if !(cs[0] == Str("polygon") || cs[0] == Str("filled_polygon")) {
      return Ok(child);
    }
    if |cs| < 2 {
      return Raise(IndexError);
    }
    var original := cs[1];
    var pts: seq<Node> := [];
    if original.Str? {
      if |original.s| > 1 {
        return Raise(ValueError);
      }
    } else if !original.List? {
      return Raise(TypeError);
    } else if |original.children| > 0 {
      var shifted := ShiftOutline(original.children[1..], x, y);
      if shifted.Raise? {
        return Raise(shifted.exc);
      }
      pts := shifted.value;
    }
    r := Ok(List(cs[1 := List([Str("pts")] + pts)]));
  }

  /** zone: append to out a copy of n with its outlines offset by (x, y). */
  method Zone(n: seq<Node>, out: seq<Node>, x: Decimal, y: Decimal) returns (r: Outcome<seq<Node>>)
    ensures r.Ok? <==> Zoned(n, x, y).Ok?
    ensures r.Ok? ==> r.value == out + [List(Zoned(n, x, y).value)]
    ensures r.Raise? ==> r.exc == Zoned(n, x, y).exc
  {
    var f := ZoneOf(x, y);
    var copy := n;
    var idx := 0;
    while idx < |copy|
      invariant 0 <= idx <= |n| && |copy| == |n|
      invariant Traverse(f, n[..idx]).Ok? && copy == Traverse(f, n[..idx]).value + n[idx..]
    {
      TraverseAt(f, n, idx, copy);
      var c := ZoneOne(copy[idx], x, y);
      if c.Raise? {
        TraverseStops(f, n, idx);
        return Raise(c.exc);
      }
      TraverseNext(f, n, idx, copy, c.value);
      copy := copy[idx := c.value];
      idx := idx + 1;
    }
    TraverseDone(f, n, copy);
    r := Ok(out + [List(copy)]);
  }

  // ===========================================================================
  // Offsets: what one copy does to the coordinates

  /** A positioned child's new elements 1 and 2 read back as the old values
      plus the offsets; its tag, its length and its other elements are kept. */
  lemma ShiftMoves(child: Node, x: Decimal, y: Decimal)
    requires child.List? && |child.children| > 0 && Positioned(child.children[0])
    requires ShiftChild(child, x, y).Ok?
    ensures var cs := child.children;
            var r := ShiftChild(child, x, y).value;
            r.List? && |r.children| == |cs| == |cs| && |cs| >= 3 && r.children[0] == cs[0]
            && (forall k :: 3 <= k < |cs| ==> r.children[k] == cs[k])
            && ToDecimal(cs[1]).Ok? && ToDecimal(cs[2]).Ok?
            && ToDecimal(r.children[1]).Ok? && ToDecimal(r.children[2]).Ok?
            && Value(ToDecimal(r.children[1]).value) == Value(ToDecimal(cs[1]).value) + Value(x)
            && Value(ToDecimal(r.children[2]).value) == Value(ToDecimal(cs[2]).value) + Value(y)
  {
    var cs := child.children;
    AddValue(ToDecimal(cs[1]).value, x);
    AddValue(ToDecimal(cs[2]).value, y);
  }

  /** Every other child is copied as it is. */
  lemma ShiftKeeps(child: Node, x: Decimal, y: Decimal)
    requires !(child.List? && |child.children| > 0 && Positioned(child.children[0]))
    requires ShiftChild(child, x, y).Ok?
    ensures ShiftChild(child, x, y).value == child
  {
  }

  /** A point (tag, x, y) of an outline reads back shifted by the offsets. */
  lemma PointMoves(p: Node, x: Decimal, y: Decimal)
    requires p.List? && ShiftPoint(p, x, y).Ok?
    ensures var q := p.children;
            var r := ShiftPoint(p, x, y).value;
            |q| == 3 && r.List? && |r.children| == 3 && r.children[0] == q[0]
            && ToDecimal(q[1]).Ok? && ToDecimal(q[2]).Ok?
            && ToDecimal(r.children[1]).Ok? && ToDecimal(r.children[2]).Ok?
            && Value(ToDecimal(r.children[1]).value) == Value(ToDecimal(q[1]).value) + Value(x)
            && Value(ToDecimal(r.children[2]).value) == Value(ToDecimal(q[2]).value) + Value(y)
  {
    var q := p.children;
    AddValue(ToDecimal(q[1]).value, x);
    AddValue(ToDecimal(q[2]).value, y);
  }

  /** An outline's element 1 becomes ["pts"] and then, in order, one shifted
      point for each original point after the original's first item. */
  lemma ZoneMoves(child: Node, x: Decimal, y: Decimal, m: nat)
    requires child.List? && |child.children| > 1 && Outlined(child.children[0])
    requires child.children[1].List? && m + 1 < |child.children[1].children|
    requires ZoneChild(child, x, y).Ok?
    ensures var ps := child.children[1].children;
            var r := ZoneChild(child, x, y).value;
            r.List? && |r.children| == |child.children| && r.children[0] == child.children[0]
            && r.children[1].List? && |r.children[1].children| == |ps|
            && r.children[1].children[0] == Str("pts")
            && ShiftPoint(ps[m + 1], x, y).Ok?
            && r.children[1].children[m + 1] == ShiftPoint(ps[m + 1], x, y).value
  {
    var ps := child.children[1].children;
    var f := PointOf(x, y);
    TraverseIndex(f, ps[1..], m);
  }

  // ===========================================================================
  // Exceptions do not depend on the offsets

  predicate SameFailure<T, U>(a: Outcome<T>, b: Outcome<U>)
  {
    a.Ok? == b.Ok? && (a.Raise? ==> a.exc == b.exc)
  }

  lemma {:induction false} TraverseAgree(f: Node -> Outcome<Node>, g: Node -> Outcome<Node>, cs: seq<Node>)
    requires forall c :: SameFailure(f(c), g(c))
    ensures SameFailure(Traverse(f, cs), Traverse(g, cs))
    decreases |cs|
  {
    if |cs| > 0 {
      TraverseAgree(f, g, cs[..|cs| - 1]);
      assert SameFailure(f(cs[|cs| - 1]), g(cs[|cs| - 1]));
    }
  }

  lemma ShiftChildAgree(c: Node, x: Decimal, y: Decimal, x2: Decimal, y2: Decimal)
    ensures SameFailure(ShiftChild(c, x, y), ShiftChild(c, x2, y2))
  {
  }

  lemma ShiftPointAgree(p: Node, x: Decimal, y: Decimal, x2: Decimal, y2: Decimal)
    ensures SameFailure(ShiftPoint(p, x, y), ShiftPoint(p, x2, y2))
  {
  }

  lemma ZoneChildAgree(c: Node, x: Decimal, y: Decimal, x2: Decimal, y2: Decimal)
    ensures SameFailure(ZoneChild(c, x, y), ZoneChild(c, x2, y2))
  {
    if c.List? && |c.children| > 1 && c.children[1].List? && |c.children[1].children| > 0 {
      forall p {
        ShiftPointAgree(p, x, y, x2, y2);
      }
      TraverseAgree(PointOf(x, y), PointOf(x2, y2), c.children[1].children[1..]);
    }
  }

  datatype Kind = SimpleKind | ZoneKind

  /** One copy of node n at offset (x, y): simple's or zone's new list. */
  function Copy(kind: Kind, n: seq<Node>, x: Decimal, y: Decimal): Outcome<Node>
  {
    var c :- if kind == SimpleKind then Shifted(n, x, y) else Zoned(n, x, y);
    Ok(List(c))
  }

  /** Whether a copy raises, and what, is the same at every offset. */
  lemma CopyAgree(kind: Kind, n: seq<Node>, x: Decimal, y: Decimal, x2: Decimal, y2: Decimal)
    ensures SameFailure(Copy(kind, n, x, y), Copy(kind, n, x2, y2))
  {
    if kind == SimpleKind {
      forall c {
        ShiftChildAgree(c, x, y, x2, y2);
      }
      TraverseAgree(ShiftOf(x, y), ShiftOf(x2, y2), n);
    } else {
      forall c {
        ZoneChildAgree(c, x, y, x2, y2);
      }
      TraverseAgree(ZoneOf(x, y), ZoneOf(x2, y2), n);
    }
  }

  // ===========================================================================
  // simples and zones: the grid of copies

  /** The number of passes of `for _ in range(r)`. */
  function Reps(r: int): nat
  {
    if r > 0 then r else 0
  }

  /** f(0), f(1), .. f(k - 1) in order; the first exception ends the list. */
  function Collect(f: nat -> Outcome<Node>, k: nat): Outcome<seq<Node>>
  {
    if k == 0 then Ok([])
    else
      var init :- Collect(f, k - 1);
      var last :- f(k - 1);
      Ok(init + [last])
  }

  lemma {:induction false} CollectIndex(f: nat -> Outcome<Node>, k: nat, t: nat)
    requires Collect(f, k).Ok? && t < k
    ensures |Collect(f, k).value| == k && f(t).Ok? && Collect(f, k).value[t] == f(t).value
    decreases k
  {
    CollectLength(f, k);
    if t < k - 1 {
      CollectIndex(f, k - 1, t);
    }
  }

  lemma {:induction false} CollectLength(f: nat -> Outcome<Node>, k: nat)
    requires Collect(f, k).Ok?
    ensures |Collect(f, k).value| == k
    decreases k
  {
    if k > 0 {
      CollectLength(f, k - 1);
    }
  }

  /** An exception at entry t, after t good entries, is the whole list's. */
  lemma {:induction false} CollectStops(f: nat -> Outcome<Node>, k: nat, t: nat)
    requires t < k && Collect(f, t).Ok? && f(t).Raise?
    ensures Collect(f, k) == Raise(f(t).exc)
    decreases k
  {
    if t < k - 1 {
      CollectStops(f, k - 1, t);
    }
  }

  lemma CollectOk(f: nat -> Outcome<Node>, t: nat)
    requires Collect(f, t).Ok? && f(t).Ok?
    ensures Collect(f, t + 1) == Ok(Collect(f, t).value + [f(t).value])
  {
  }

  lemma {:induction false} CollectAllOk(f: nat -> Outcome<Node>, k: nat)
    requires forall t: nat :: t < k ==> f(t).Ok?
    ensures Collect(f, k).Ok?
    decreases k
  {
    if k > 0 {
      CollectAllOk(f, k - 1);
    }
  }

  /** Row i of the grid: the copies (i, 0) .. (i, yr - 1). */
  function RowOf(kind: Kind, n: seq<Node>, xp: Decimal, i: nat, yp: Decimal): nat -> Outcome<Node>
  {
    (j: nat) => Copy(kind, n, Times(i, xp), Times(j, yp))
  }

  function Row(kind: Kind, n: seq<Node>, xp: Decimal, i: nat, yr: int, yp: Decimal): Outcome<seq<Node>>
  {
    Collect(RowOf(kind, n, xp, i, yp), Reps(yr))
  }

  function RowsOf(kind: Kind, n: seq<Node>, xp: Decimal, yr: int, yp: Decimal): nat -> Outcome<seq<Node>>
  {
    (i: nat) => Row(kind, n, xp, i, yr, yp)
  }

  /** h(0) + h(1) + .. + h(k - 1); the first exception ends it. */
  function Concat(h: nat -> Outcome<seq<Node>>, k: nat): Outcome<seq<Node>>
  {
    if k == 0 then Ok([])
    else
      var init :- Concat(h, k - 1);
      var last :- h(k - 1);
      Ok(init + last)
  }

  /** What simples or zones append: xr rows of yr copies. */
  function Grid(kind: Kind, n: seq<Node>, xr: int, xp: Decimal, yr: int, yp: Decimal): Outcome<seq<Node>>
  {
    Concat(RowsOf(kind, n, xp, yr, yp), Reps(xr))
  }

  lemma ConcatOk(h: nat -> Outcome<seq<Node>>, t: nat)
    requires Concat(h, t).Ok? && h(t).Ok?
    ensures Concat(h, t + 1) == Ok(Concat(h, t).value + h(t).value)
  {
  }

  lemma {:induction false} ConcatStops(h: nat -> Outcome<seq<Node>>, k: nat, t: nat)
    requires t < k && Concat(h, t).Ok? && h(t).Raise?
    ensures Concat(h, k) == Raise(h(t).exc)
    decreases k
  {
    if t < k - 1 {
      ConcatStops(h, k - 1, t);
    }
  }

  lemma {:induction false} ConcatAllOk(h: nat -> Outcome<seq<Node>>, k: nat)
    requires forall t: nat :: t < k ==> h(t).Ok?
    ensures Concat(h, k).Ok?
    decreases k
  {
    if k > 0 {
      ConcatAllOk(h, k - 1);
    }
  }

  /** With every part w long, part p's element j sits at p * w + j. */
  lemma {:induction false} ConcatIndex(h: nat -> Outcome<seq<Node>>, w: nat, k: nat, p: nat, j: nat)
    requires Concat(h, k).Ok? && forall t: nat :: h(t).Ok? ==> |h(t).value| == w
    requires p < k && j < w
    ensures |Concat(h, k).value| == Strides(k, w)
    ensures h(p).Ok? && Strides(p, w) + j < Strides(k, w) && Concat(h, k).value[Strides(p, w) + j] == h(p).value[j]
    decreases k
  {
    ConcatLength(h, w, k);
    if p < k - 1 {
      ConcatIndex(h, w, k - 1, p, j);
    }
  }

  lemma {:induction false} ConcatLength(h: nat -> Outcome<seq<Node>>, w: nat, k: nat)
    requires Concat(h, k).Ok? && forall t: nat :: h(t).Ok? ==> |h(t).value| == w
    ensures |Concat(h, k).value| == Strides(k, w)
    decreases k
  {
    if k > 0 {
      ConcatLength(h, w, k - 1);
    }
  }

  /** The grid holds xr * yr copies, x-major: copy (i, j) sits at i * yr + j
      and is offset by (i * xp, j * yp). */
  lemma GridCell(kind: Kind, n: seq<Node>, xr: int, xp: Decimal, yr: int, yp: Decimal, i: nat, j: nat)
    requires Grid(kind, n, xr, xp, yr, yp).Ok? && i < Reps(xr) && j < Reps(yr)
    ensures var g := Grid(kind, n, xr, xp, yr, yp).value;
            |g| == Reps(xr) * Reps(yr) && i * Reps(yr) + j < |g|
            && Copy(kind, n, Times(i, xp), Times(j, yp)).Ok?
            && g[i * Reps(yr) + j] == Copy(kind, n, Times(i, xp), Times(j, yp)).value
  {
    var h := RowsOf(kind, n, xp, yr, yp);
    forall t: nat | h(t).Ok?
      ensures |h(t).value| == Reps(yr)
    {
      CollectLength(RowOf(kind, n, xp, t, yp), Reps(yr));
    }
    ConcatIndex(h, Reps(yr), Reps(xr), i, j);
    StridesProduct(Reps(xr), Reps(yr));
    StridesProduct(i, Reps(yr));
    CollectIndex(RowOf(kind, n, xp, i, yp), Reps(yr), j);
  }

  /** The grid raises exactly when it is not empty and a copy raises, since
      every copy raises alike. */
  lemma GridFails(kind: Kind, n: seq<Node>, xr: int, xp: Decimal, yr: int, yp: Decimal)
    ensures var c := Copy(kind, n, Times(0, xp), Times(0, yp));
            SameFailure(Grid(kind, n, xr, xp, yr, yp),
                        if Reps(xr) * Reps(yr) == 0 then Ok(Str("")) else c)
  {
    var h := RowsOf(kind, n, xp, yr, yp);
    var c := Copy(kind, n, Times(0, xp), Times(0, yp));
    if Reps(xr) > 0 && Reps(yr) > 0 {
      MulLe(1, Reps(xr), Reps(yr));
    }
    if Reps(xr) > 0 && Reps(yr) > 0 && c.Raise? {
      CollectStops(RowOf(kind, n, xp, 0, yp), Reps(yr), 0);
      ConcatStops(h, Reps(xr), 0);
    } else if Reps(xr) > 0 {
      forall t: nat | t < Reps(xr)
        ensures h(t).Ok?
      {
        forall j: nat | j < Reps(yr)
          ensures RowOf(kind, n, xp, t, yp)(j).Ok?
        {
          CopyAgree(kind, n, Times(t, xp), Times(j, yp), Times(0, xp), Times(0, yp));
        }
        CollectAllOk(RowOf(kind, n, xp, t, yp), Reps(yr));
      }
      ConcatAllOk(h, Reps(xr));
    }
  }

  /** Copy (i, j) of a node with a positioned child k moves that child's
      coordinates by exactly (i * xp, j * yp). */
  lemma GridPositions(n: seq<Node>, xr: int, xp: Decimal, yr: int, yp: Decimal, i: nat, j: nat, k: nat)
    requires Grid(SimpleKind, n, xr, xp, yr, yp).Ok? && i < Reps(xr) && j < Reps(yr)
    requires k < |n| && n[k].List? && |n[k].children| > 0 && Positioned(n[k].children[0])
    ensures var g := Grid(SimpleKind, n, xr, xp, yr, yp).value;
            |g| == Reps(xr) * Reps(yr) && i * Reps(yr) + j < |g|
            && var c := g[i * Reps(yr) + j];
            var cs := n[k].children;
            c.List? && |c.children| == |n| && c.children[k].List? && |c.children[k].children| == |cs| >= 3
            && ToDecimal(cs[1]).Ok? && ToDecimal(c.children[k].children[1]).Ok?
            && Value(ToDecimal(c.children[k].children[1]).value) == Value(ToDecimal(cs[1]).value) + i as real * Value(xp)
            && ToDecimal(cs[2]).Ok? && ToDecimal(c.children[k].children[2]).Ok?
            && Value(ToDecimal(c.children[k].children[2]).value) == Value(ToDecimal(cs[2]).value) + j as real * Value(yp)
  {
    GridCell(SimpleKind, n, xr, xp, yr, yp, i, j);
    var x, y := Times(i, xp), Times(j, yp);
    TraverseIndex(ShiftOf(x, y), n, k);
    ShiftMoves(n[k], x, y);
    TimesValue(i, xp);
    TimesValue(j, yp);
  }

  /** simple or zone, as the kind of node says. */
  method CopyInto(kind: Kind, n: seq<Node>, acc: seq<Node>, x: Decimal, y: Decimal) returns (r: Outcome<seq<Node>>)
    ensures SameFailure(r, Copy(kind, n, x, y))
    ensures r.Ok? ==> r.value == acc + [Copy(kind, n, x, y).value]
  {
    if kind == SimpleKind {
      r := Simple(n, acc, x, y);
    } else {
      r := Zone(n, acc, x, y);
    }
  }

  /** One pass of the outer loop: append the copies (i, 0) .. (i, yr - 1). */
  method AddRow(kind: Kind, n: seq<Node>, acc: seq<Node>, i: nat, xp: Decimal, yr: int, yp: Decimal)
    returns (r: Outcome<seq<Node>>)
    ensures SameFailure(r, Row(kind, n, xp, i, yr, yp))
    ensures r.Ok? ==> r.value == acc + Row(kind, n, xp, i, yr, yp).value
  {
    var g := RowOf(kind, n, xp, i, yp);
    var row := acc;
    var y := 0;
    while y < yr
      invariant 0 <= y <= Reps(yr)
      invariant Collect(g, y).Ok? && row == acc + Collect(g, y).value
    {
      var c := CopyInto(kind, n, row, Times(i, xp), Times(y, yp));
      if c.Raise? {
        CollectStops(g, Reps(yr), y);
        return Raise(c.exc);
      }
      CollectOk(g, y);
      row := c.value;
      y := y + 1;
    }
    r := Ok(row);
  }

  /** simples and zones: the nested loops over range(xr) and range(yr). */
  method Replicate(kind: Kind, n: seq<Node>, out: seq<Node>, xr: int, xp: Decimal, yr: int, yp: Decimal)
    returns (r: Outcome<seq<Node>>)
    ensures r.Ok? <==> Grid(kind, n, xr, xp, yr, yp).Ok?
    ensures r.Ok? ==> r.value == out + Grid(kind, n, xr, xp, yr, yp).value
    ensures r.Raise? ==> r.exc == Grid(kind, n, xr, xp, yr, yp).exc
  {
    var h := RowsOf(kind, n, xp, yr, yp);
    var acc := out;
    var x := 0;
    while x < xr
      invariant 0 <= x <= Reps(xr)
      invariant Concat(h, x).Ok? && acc == out + Concat(h, x).value
    {
      var c := AddRow(kind, n, acc, x, xp, yr, yp);
      if c.Raise? {
        ConcatStops(h, Reps(xr), x);
        return Raise(c.exc);
      }
      ConcatOk(h, x);
      acc := c.value;
      x := x + 1;
    }
    r := Ok(acc);
  }

  // ===========================================================================
  // main: keep, replicate or drop each top-level node

  datatype Action = Keep | Simples | Zones | Drop

  const KeptTags: set<string> := {"page", "layers", "setup", "net", "net_class"}
  const SimpleTags: set<string> := {"gr_arc", "gr_line", "gr_text", "segment", "via", "module"}

  /** What main does with a node, by its first element. A str node's first
      element is one character, which names none of the kinds; indexing an
      empty one raises, other atoms are not subscriptable. */
  function Classify(node: Node): Outcome<Action>
  {
    match node
    case List(cs) =>
      if |cs| == 0 then Raise(IndexError)
      else if cs[0].Str? && cs[0].s in KeptTags then Ok(Keep)
      else if cs[0].Str? && cs[0].s in SimpleTags then Ok(Simples)
      else if cs[0] == Str("zone") then Ok(Zones)
      else Ok(Drop)
    case Str(s) => if |s| == 0 then Raise(IndexError) else Ok(Drop)
    case _ => Raise(TypeError)
  }

  /** The nodes main appends for one input node. */
  function Emit(node: Node, xr: int, xp: Decimal, yr: int, yp: Decimal): Outcome<seq<Node>>
  {
    var a :- Classify(node);
    match a
    case Keep => Ok([node])
    case Simples => Grid(SimpleKind, node.children, xr, xp, yr, yp)
    case Zones => Grid(ZoneKind, node.children, xr, xp, yr, yp)
    case Drop => Ok([])
  }

  function EmitOf(xr: int, xp: Decimal, yr: int, yp: Decimal): Node -> Outcome<seq<Node>>
  {
    (node: Node) => Emit(node, xr, xp, yr, yp)
  }

  /** g of each node in order, the results joined; the first exception ends it. */
  function Gather(g: Node -> Outcome<seq<Node>>, nodes: seq<Node>): Outcome<seq<Node>>
  {
    if |nodes| == 0 then Ok([])
    else
      var init :- Gather(g, nodes[..|nodes| - 1]);
      var last :- g(nodes[|nodes| - 1]);
      Ok(init + last)
  }

  /** main's loop over the input nodes. */
  function Emits(nodes: seq<Node>, xr: int, xp: Decimal, yr: int, yp: Decimal): Outcome<seq<Node>>
  {
    Gather(EmitOf(xr, xp, yr, yp), nodes)
  }

  /** The new board's first three items; stamp is the UTC time of the run. */
  function PanelHeader(stamp: string): seq<Node>
  {
    [Str("kicad_pcb"), List([Str("version"), Int(4)]), List([Str("host"), Str("panelise.py"), Str(stamp)])]
  }

  /** Iterating the parsed board: a list's items, or a str's characters. */
  function TopNodes(top: Node): Outcome<seq<Node>>
  {
    match top
    case List(cs) => Ok(cs)
    case Str(s) => Ok(seq(|s|, i requires 0 <= i < |s| => Str([s[i]])))
    case _ => Raise(TypeError)
  }

  /** The text main writes for the board text it reads. */
  function PanelText(text: string, xr: int, xp: Decimal, yr: int, yp: Decimal, stamp: string): Outcome<string>
  {
    var top :- ParseText(Placeholder, text);
    var nodes :- TopNodes(top);
    var body :- Emits(nodes, xr, xp, yr, yp);
    Ok(Generate(PanelHeader(stamp) + body, 0))
  }

  /** The loop body of main for one node. */
  method EmitInto(node: Node, out: seq<Node>, xr: int, xp: Decimal, yr: int, yp: Decimal) returns (r: Outcome<seq<Node>>)
    ensures SameFailure(r, Emit(node, xr, xp, yr, yp))
    ensures r.Ok? ==> r.value == out + Emit(node, xr, xp, yr, yp).value
  {
    if !node.List? {
      if node.Str? && |node.s| > 0 {
        return Ok(out);
      }
      return Raise(if node.Str? then IndexError else TypeError);
    }
    if |node.children| == 0 {
      return Raise(IndexError);
    }
    var tag := node.children[0];
    if tag.Str? && tag.s in KeptTags {
      r := Ok(out + [node]);
    } else if tag.Str? && tag.s in SimpleTags {
      r := Replicate(SimpleKind, node.children, out, xr, xp, yr, yp);
    } else if tag == Str("zone") {
      r := Replicate(ZoneKind, node.children, out, xr, xp, yr, yp);
    } else {
      r := Ok(out);
    }
  }

  lemma GatherOk(g: Node -> Outcome<seq<Node>>, nodes: seq<Node>, k: nat)
    requires k < |nodes| && Gather(g, nodes[..k]).Ok? && g(nodes[k]).Ok?
    ensures Gather(g, nodes[..k + 1]) == Ok(Gather(g, nodes[..k]).value + g(nodes[k]).value)
  {
    assert nodes[..k + 1][..k] == nodes[..k];
  }

  lemma GatherNext(g: Node -> Outcome<seq<Node>>, nodes: seq<Node>, k: nat, out: seq<Node>, acc: seq<Node>, next: seq<Node>)
    requires k < |nodes| && Gather(g, nodes[..k]).Ok? && acc == out + Gather(g, nodes[..k]).value
    requires g(nodes[k]).Ok? && next == acc + g(nodes[k]).value
    ensures Gather(g, nodes[..k + 1]).Ok? && next == out + Gather(g, nodes[..k + 1]).value
  {
    GatherOk(g, nodes, k);
  }

  lemma {:induction false} GatherStops(g: Node -> Outcome<seq<Node>>, nodes: seq<Node>, k: nat)
    requires k < |nodes| && Gather(g, nodes[..k]).Ok? && g(nodes[k]).Raise?
    ensures Gather(g, nodes) == Raise(g(nodes[k]).exc)
    decreases |nodes|
  {
    if k < |nodes| - 1 {
      assert nodes[..|nodes| - 1][..k] == nodes[..k];
      GatherStops(g, nodes[..|nodes| - 1], k);
    } else {
      assert nodes[..k] == nodes[..|nodes| - 1];
    }
  }

  /** main's loop: append what each node gives, in input order. */
  method EmitAll(ns: seq<Node>, out: seq<Node>, xr: int, xp: Decimal, yr: int, yp: Decimal) returns (r: Outcome<seq<Node>>)
    ensures SameFailure(r, Emits(ns, xr, xp, yr, yp))
    ensures r.Ok? ==> r.value == out + Emits(ns, xr, xp, yr, yp).value
  {
    var g := EmitOf(xr, xp, yr, yp);
    var outsexp := out;
    var i := 0;
    while i < |ns|
      invariant 0 <= i <= |ns|
      invariant Gather(g, ns[..i]).Ok? && outsexp == out + Gather(g, ns[..i]).value
    {
      var e := EmitInto(ns[i], outsexp, xr, xp, yr, yp);
      if e.Raise? {
        GatherStops(g, ns, i);
        return Raise(e.exc);
      }
      GatherNext(g, ns, i, out, outsexp, e.value);
      outsexp := e.value;
      i := i + 1;
    }
    assert ns[..|ns|] == ns;
    r := Ok(outsexp);
  }

  /** main: read the board, build the panel, return the text it writes. */
  method Panelise(text: string, xr: int, xp: Decimal, yr: int, yp: Decimal, stamp: string) returns (r: Outcome<string>)
    ensures r == PanelText(text, xr, xp, yr, yp, stamp)
  {
    var insexp := Parse(text);
    if insexp.Raise? {
      return Raise(insexp.exc);
    }
    var nodes := TopNodes(insexp.value);
    if nodes.Raise? {
      return Raise(nodes.exc);
    }
    var outsexp := EmitAll(nodes.value, PanelHeader(stamp), xr, xp, yr, yp);
    if outsexp.Raise? {
      return Raise(outsexp.exc);
    }
    r := Ok(Generate(outsexp.value, 0));
  }

  // ===========================================================================
  // What the panel holds

  /** The panel's items for a + b are a's followed by b's. */
  lemma {:induction false} GatherConcat(g: Node -> Outcome<seq<Node>>, a: seq<Node>, b: seq<Node>)
    requires Gather(g, a).Ok? && Gather(g, b).Ok?
    ensures Gather(g, a + b) == Ok(Gather(g, a).value + Gather(g, b).value)
    decreases |b|
  {
    if |b| == 0 {
      assert a + b == a;
      assert Gather(g, a).value + [] == Gather(g, a).value;
    } else {
      var b0 := b[..|b| - 1];
      assert (a + b)[..|a + b| - 1] == a + b0 && (a + b)[|a + b| - 1] == b[|b| - 1];
      GatherConcat(g, a, b0);
      var ea, e0 := Gather(g, a).value, Gather(g, b0).value;
      var last := g(b[|b| - 1]).value;
      assert (ea + e0) + last == ea + (e0 + last);
    }
  }

  /** The items for a prefix of the input begin the items for all of it. */
  lemma {:induction false} GatherPrefix(g: Node -> Outcome<seq<Node>>, nodes: seq<Node>, k: nat)
    requires Gather(g, nodes).Ok? && k <= |nodes|
    ensures Gather(g, nodes[..k]).Ok? && Gather(g, nodes[..k]).value <= Gather(g, nodes).value
    decreases |nodes|
  {
    if k < |nodes| {
      var init := nodes[..|nodes| - 1];
      assert init[..k] == nodes[..k];
      GatherPrefix(g, init, k);
      var all, mid, low := Gather(g, nodes).value, Gather(g, init).value, Gather(g, nodes[..k]).value;
      assert mid <= all;
      assert low == mid[..|low|];
      assert low == all[..|low|];
    } else {
      assert nodes[..k] == nodes;
    }
  }

  /** Inputs whose loops agree so far agree after any further nodes. */
  lemma {:induction false} GatherExtend(g: Node -> Outcome<seq<Node>>, p: seq<Node>, q: seq<Node>, b: seq<Node>)
    requires Gather(g, p) == Gather(g, q)
    ensures Gather(g, p + b) == Gather(g, q + b)
    decreases |b|
  {
    if |b| == 0 {
      assert p + b == p && q + b == q;
    } else {
      var b0 := b[..|b| - 1];
      assert (p + b)[..|p + b| - 1] == p + b0 && (p + b)[|p + b| - 1] == b[|b| - 1];
      assert (q + b)[..|q + b| - 1] == q + b0 && (q + b)[|q + b| - 1] == b[|b| - 1];
      GatherExtend(g, p, q, b0);
    }
  }

  /** The panel for a + b holds a's items and then b's. */
  lemma EmitsConcat(a: seq<Node>, b: seq<Node>, xr: int, xp: Decimal, yr: int, yp: Decimal)
    requires Emits(a, xr, xp, yr, yp).Ok? && Emits(b, xr, xp, yr, yp).Ok?
    ensures Emits(a + b, xr, xp, yr, yp) == Ok(Emits(a, xr, xp, yr, yp).value + Emits(b, xr, xp, yr, yp).value)
  {
    GatherConcat(EmitOf(xr, xp, yr, yp), a, b);
  }

  /** A kept node is copied once, unchanged, after the items of the nodes
      before it. */
  lemma KeptInPlace(nodes: seq<Node>, k: nat, xr: int, xp: Decimal, yr: int, yp: Decimal)
    requires Emits(nodes, xr, xp, yr, yp).Ok? && k < |nodes| && Classify(nodes[k]) == Ok(Keep)
    ensures Emits(nodes[..k], xr, xp, yr, yp).Ok?
    ensures var before := Emits(nodes[..k], xr, xp, yr, yp).value;
            var all := Emits(nodes, xr, xp, yr, yp).value;
            |before| < |all| && all[|before|] == nodes[k]
  {
    var g := EmitOf(xr, xp, yr, yp);
    GatherPrefix(g, nodes, k);
    GatherPrefix(g, nodes, k + 1);
    assert g(nodes[k]) == Ok([nodes[k]]);
    GatherOk(g, nodes, k);
  }

  /** A dropped node leaves no trace in the panel. */
  lemma DroppedVanish(a: seq<Node>, d: Node, b: seq<Node>, xr: int, xp: Decimal, yr: int, yp: Decimal)
    requires Classify(d) == Ok(Drop)
    ensures Emits(a + [d] + b, xr, xp, yr, yp) == Emits(a + b, xr, xp, yr, yp)
  {
    var g := EmitOf(xr, xp, yr, yp);
    assert (a + [d])[..|a|] == a && (a + [d])[|a|] == d;
    assert g(d) == Ok([]);
    if Gather(g, a).Ok? {
      assert Gather(g, a).value + [] == Gather(g, a).value;
    }
    assert Gather(g, a + [d]) == Gather(g, a);
    GatherExtend(g, a + [d], a, b);
  }

  /** Replicated nodes contribute their grids of copies, in input order. */
  lemma ReplicatedInPlace(nodes: seq<Node>, k: nat, xr: int, xp: Decimal, yr: int, yp: Decimal)
    requires Emits(nodes, xr, xp, yr, yp).Ok? && k < |nodes|
    requires Classify(nodes[k]) == Ok(Simples) || Classify(nodes[k]) == Ok(Zones)
    ensures var kind := if Classify(nodes[k]) == Ok(Simples) then SimpleKind else ZoneKind;
            var grid := Grid(kind, nodes[k].children, xr, xp, yr, yp);
            Emits(nodes[..k], xr, xp, yr, yp).Ok? && grid.Ok?
            && Emits(nodes[..k], xr, xp, yr, yp).value + grid.value <= Emits(nodes, xr, xp, yr, yp).value
  {
    var g := EmitOf(xr, xp, yr, yp);
    GatherPrefix(g, nodes, k);
    GatherPrefix(g, nodes, k + 1);
    GatherOk(g, nodes, k);
  }
}
