/**
 * scripts/icmod.py: the older IC footprint generator. It carries its own
 * serialiser (a `*` bare-word regex and no Decimal branch), its own pad
 * constructor, the pin-centre rows of a dual or quad package and their
 * consecutive pad numbering.
 */
module IcMod {
  import opened Py
  import opened Sexp
  import KicadMod

  // ===========================================================================
  // Serialiser (icmod.py:177-193)

  /** `-?[a-zA-Z0-9_*.]*` matches the whole of s. */
  predicate WordStar(s: string)
  {
    if |s| > 0 && s[0] == '-' then AllWordChars(s[1..]) else AllWordChars(s)
  }

  /** `single_word.match(s)` for `^-?[a-zA-Z0-9_*.]*$`, `$` also matching just
      before a final newline. */
  predicate LegacyBare(s: string)
  {
    WordStar(s) || (|s| > 0 && s[|s| - 1] == '\n' && WordStar(s[..|s| - 1]))
  }

  /** The legacy test accepts exactly the words the current one does, plus
      "", "-" and those two followed by a newline. */
  lemma LegacyBareIff(s: string)
    ensures LegacyBare(s) <==> BareWord(s) || s == "" || s == "-" || s == "\n" || s == "-\n"
  {
    if |s| > 0 && s[|s| - 1] == '\n' {
      var p := s[..|s| - 1];
      if p == "" {
        assert s == "\n";
      } else if p == "-" {
        assert s == "-\n";
      }
    }
  }

  function LegacyStrText(s: string): string
  {
    if LegacyBare(s) then s else "\"" + s + "\""
  }

  /** sexp_generate of icmod.py. A Decimal node is left unconverted and makes
      `" ".join` raise TypeError. */
  function LegacyGenerate(cs: seq<Node>, depth: nat): Outcome<string>
    decreases cs, 1
  {
    var j := LegacyJoin(cs, depth);
    if j.Raise? then j else Ok("\n" + Spaces(2 * depth) + "(" + j.value + ")")
  }

  function LegacyJoin(cs: seq<Node>, depth: nat): Outcome<string>
    decreases cs, 0
  {
    if |cs| == 0 then Ok("")
    else
      var p := LegacyPart(cs[0], depth);
      if p.Raise? || |cs| == 1 then p
      else
        var rest := LegacyJoin(cs[1..], depth);
        if rest.Raise? then rest else Ok(p.value + " " + rest.value)
  }

  function LegacyPart(n: Node, depth: nat): Outcome<string>
    decreases n
  {
    match n
    case Str(s) => Ok(LegacyStrText(s))
    case Int(i) => Ok(IntText(i))
    case Dec(_, _) => Raise(TypeError)
    case Flt(x) => Ok(Fixed4(x))
    case List(ch) => LegacyGenerate(ch, depth + 1)
  }

  predicate HasDec(n: Node)
  {
    match n
    case Dec(_, _) => true
    case List(cs) => exists k :: 0 <= k < |cs| && HasDec(cs[k])
    case _ => false
  }

  predicate HasDecSeq(cs: seq<Node>) { exists k :: 0 <= k < |cs| && HasDec(cs[k]) }

  /** A Str atom the two bare-word tests classify differently. */
  predicate ShortWord(s: string) { s == "" || s == "-" || s == "\n" || s == "-\n" }

  predicate NoShortWord(n: Node)
  {
    match n
    case Str(s) => !ShortWord(s)
    case List(cs) => forall k :: 0 <= k < |cs| ==> NoShortWord(cs[k])
    case _ => true
  }

  predicate NoShortWordSeq(cs: seq<Node>) { forall k :: 0 <= k < |cs| ==> NoShortWord(cs[k]) }

  /** The legacy serialiser fails exactly on trees holding a Decimal, and then
      with TypeError; elsewhere, on trees without "", "-" (or those followed by
      a newline), it writes the same text as sexp.py. */
  lemma {:induction false} LegacyGenerateAgrees(cs: seq<Node>, depth: nat)
    ensures LegacyGenerate(cs, depth).Raise? <==> HasDecSeq(cs)
    ensures LegacyGenerate(cs, depth).Raise? ==> LegacyGenerate(cs, depth).exc == TypeError
    ensures !HasDecSeq(cs) && NoShortWordSeq(cs) ==> LegacyGenerate(cs, depth) == Ok(Generate(cs, depth))
    decreases cs, 1
  {
    LegacyJoinAgrees(cs, depth);
  }

  lemma {:induction false} LegacyJoinAgrees(cs: seq<Node>, depth: nat)
    ensures LegacyJoin(cs, depth).Raise? <==> HasDecSeq(cs)
    ensures LegacyJoin(cs, depth).Raise? ==> LegacyJoin(cs, depth).exc == TypeError
    ensures !HasDecSeq(cs) && NoShortWordSeq(cs) ==> LegacyJoin(cs, depth) == Ok(Join(cs, depth))
    decreases cs, 0
  {
    if |cs| > 0 {
      var c := cs[0];
      LegacyPartAgrees(c, depth);
      if |cs| > 1 {
        LegacyJoinAgrees(cs[1..], depth);
        assert HasDecSeq(cs) <==> HasDec(c) || HasDecSeq(cs[1..]) by {
          if HasDecSeq(cs[1..]) {
            var k :| 0 <= k < |cs[1..]| && HasDec(cs[1..][k]);
            assert cs[k + 1] == cs[1..][k];
          }
          if HasDecSeq(cs) {
            var k :| 0 <= k < |cs| && HasDec(cs[k]);
            if k > 0 { assert cs[1..][k - 1] == cs[k]; }
          }
        }
        if NoShortWordSeq(cs) {
          assert NoShortWordSeq(cs[1..]) by {
            forall k | 0 <= k < |cs[1..]| ensures NoShortWord(cs[1..][k]) {
              assert cs[1..][k] == cs[k + 1];
            }
          }
        }
      } else {
        assert HasDecSeq(cs) <==> HasDec(c);
      }
    }
  }

  lemma {:induction false} LegacyPartAgrees(n: Node, depth: nat)
    ensures LegacyPart(n, depth).Raise? <==> HasDec(n)
    ensures LegacyPart(n, depth).Raise? ==> LegacyPart(n, depth).exc == TypeError
    ensures !HasDec(n) && NoShortWord(n) ==> LegacyPart(n, depth) == Ok(Part(n, depth))
    decreases n
  {
    match n
    case Str(s) => LegacyBareIff(s);
    case List(ch) => LegacyGenerateAgrees(ch, depth + 1);
    case _ =>
  }

  /** Where they differ: "" and "-" are bare here and quoted in sexp.py, and a
      Decimal cannot be written at all. */
  lemma LegacyDivergence()
    ensures LegacyGenerate([Str("a"), Str(""), Str("-")], 0) == Ok("\n(a  -)")
    ensures Generate([Str("a"), Str(""), Str("-")], 0) == "\n(a \"\" \"-\")"
    ensures LegacyGenerate([Str("w"), Dec(15, 1)], 0) == Raise(TypeError)
  {
    assert AllWordChars("-"[1..]);
    assert !WordPlus("-") && !WordPlus("");
    assert BareWord("a") && !BareWord("") && !BareWord("-");
    assert LegacyBare("a") && LegacyBare("") && LegacyBare("-");
    assert LegacyJoin([Str("-")], 0) == Ok("-");
    assert [Str("a"), Str(""), Str("-")][1..] == [Str(""), Str("-")];
    assert [Str(""), Str("-")][1..] == [Str("-")];
    assert LegacyJoin([Str(""), Str("-")], 0) == Ok("" + " " + "-");
    assert "" + " " + "-" == " -";
    assert LegacyJoin([Str("a"), Str(""), Str("-")], 0) == Ok("a" + " " + " -");
    assert "\n" + Spaces(0) + "(" + ("a" + " " + " -") + ")" == "\n(a  -)";
    assert StrText("") == "\"\"" && StrText("-") == "\"-\"";
    assert Join([Str(""), Str("-")], 0) == "\"\"" + " " + "\"-\"";
    assert "\"\"" + " " + "\"-\"" == "\"\" \"-\"";
    assert Join([Str("a"), Str(""), Str("-")], 0) == "a" + " " + "\"\" \"-\"";
    assert "\n" + Spaces(0) + "(" + ("a" + " " + "\"\" \"-\"") + ")" == "\n(a \"\" \"-\")";
    assert [Str("w"), Dec(15, 1)][1..] == [Dec(15, 1)];
  }

  // ===========================================================================
  // Tree constructors and the pad rows (icmod.py:231-235, 252-273, 393-416)

  /** pad(num, padtype, shape, at, size, layers): always seven elements. */
  function Pad(num: Node, padtype: Node, shape: Node, at: (Node, Node), size: (Node, Node), layers: seq<Node>): Node
  {
    List([Str("pad"), num, padtype, shape, List([Str("at"), at.0, at.1]),
          List([Str("size"), size.0, size.1]), List([Str("layers")] + layers)])
  }

  /** icmod.py's pad is kicad_mod.py's pad with every option left out. */
  lemma PadIsPlainKicadPad(num: Node, padtype: Node, shape: Node, at: (Node, Node), size: (Node, Node), layers: seq<Node>)
    ensures var r := Pad(num, padtype, shape, at, size, layers);
            r.List? && |r.children| == 7
            && r == KicadMod.Pad(num, padtype, shape, at, [size.0, size.1], layers, None, None, None, None)
  {
    var k := KicadMod.Pad(num, padtype, shape, at, [size.0, size.1], layers, None, None, None, None);
    assert [Str("size")] + [size.0, size.1] == [Str("size"), size.0, size.1];
    assert KicadMod.Tags(k.children[7..]) == [];
    assert k.children == k.children[..7];
  }

  type Centre = (real, real)

  /** The coordinate of the i-th pin of a row starting at y0. */
  function RowY(y0: real, pitch: real, i: int): real
  {
    y0 + (i as real) * pitch
  }

  lemma RowYNext(y0: real, pitch: real, i: int)
    ensures RowY(y0, pitch, i + 1) == RowY(y0, pitch, i) + pitch
  {
    assert ((i + 1) as real) * pitch == (i as real) * pitch + pitch;
  }

  /** Where a row of n pins at the given pitch starts, so that it is centred on 0. */
  function RowStart(n: int, pitch: real): real
  {
    -(((n - 1) as real) * pitch) / 2.0
  }

  /** The left row going down at x = -x, and the bottom row along y = x. */
  function LeftRow(n: nat, x: real, y0: real, pitch: real): seq<Centre>
  {
    seq(n, i => (-x, RowY(y0, pitch, i)))
  }

  function BottomRow(n: nat, x: real, y0: real, pitch: real): seq<Centre>
  {
    seq(n, i => (RowY(y0, pitch, i), x))
  }

  /** The right row: the left one mirrored and reversed; the top row likewise
      from the bottom one. */
  function RightRow(n: nat, x: real, y0: real, pitch: real): seq<Centre>
  {
    seq(n, i => (x, RowY(y0, pitch, n - 1 - i)))
  }

  function TopRow(n: nat, x: real, y0: real, pitch: real): seq<Centre>
  {
    seq(n, i => (RowY(y0, pitch, n - 1 - i), -x))
  }

  /** The four rows of pin centres for pins / rows pins per row. */
  function Centres(pins: nat, rows: nat, pinPitch: real, rowPitch: real)
    : (seq<Centre>, seq<Centre>, seq<Centre>, seq<Centre>)
    requires rows > 0
  {
    var n := pins / rows;
    var x := rowPitch / 2.0;
    var y0 := RowStart(n, pinPitch);
    (LeftRow(n, x, y0, pinPitch), BottomRow(n, x, y0, pinPitch), RightRow(n, x, y0, pinPitch), TopRow(n, x, y0, pinPitch))
  }

  /** pin_centres: one loop appending to the left and bottom rows and inserting
      at the front of the right and top rows. */
  method PinCentres(pins: nat, rows: nat, pinPitch: real, rowPitch: real)
    returns (left: seq<Centre>, bottom: seq<Centre>, right: seq<Centre>, top: seq<Centre>)
    requires rows > 0
    ensures (left, bottom, right, top) == Centres(pins, rows, pinPitch, rowPitch)
  {
    var perRow := pins / rows;
    var rowLength := ((perRow - 1) as real) * pinPitch;
    left, bottom, right, top := [], [], [], [];
    var x := rowPitch / 2.0;
    var y := -rowLength / 2.0;
    ghost var y0 := y;
    assert y0 == RowStart(perRow, pinPitch);
    for pin := 0 to perRow
      invariant y == RowY(y0, pinPitch, pin)
      invariant |left| == pin && |bottom| == pin && |right| == pin && |top| == pin
      invariant forall i :: 0 <= i < pin ==> left[i] == (-x, RowY(y0, pinPitch, i))
      invariant forall i :: 0 <= i < pin ==> bottom[i] == (RowY(y0, pinPitch, i), x)
      invariant forall i :: 0 <= i < pin ==> right[i] == (x, RowY(y0, pinPitch, pin - 1 - i))
      invariant forall i :: 0 <= i < pin ==> top[i] == (RowY(y0, pinPitch, pin - 1 - i), -x)
    {
      left := left + [(-x, y)];
      right := [(x, y)] + right;
      top := [(y, -x)] + top;
      bottom := bottom + [(y, x)];
      RowYNext(y0, pinPitch, pin);
      y := y + pinPitch;
    }
    assert left == LeftRow(perRow, x, y0, pinPitch);
    assert bottom == BottomRow(perRow, x, y0, pinPitch);
    assert right == RightRow(perRow, x, y0, pinPitch);
    assert top == TopRow(perRow, x, y0, pinPitch);
  }

  /** The rows mirror each other and the left row keeps the pitch. */
  lemma CentresMirror(pins: nat, rows: nat, pinPitch: real, rowPitch: real)
    requires rows > 0
    ensures var (left, bottom, right, top) := Centres(pins, rows, pinPitch, rowPitch);
            var n := pins / rows;
            |left| == n && |bottom| == n && |right| == n && |top| == n
            && (forall i :: 0 <= i < n ==> right[i] == (-left[n - 1 - i].0, left[n - 1 - i].1))
            && (forall i :: 0 <= i < n ==> bottom[i] == (left[i].1, -left[i].0))
            && (forall i :: 0 <= i < n ==> top[i] == (bottom[n - 1 - i].0, -bottom[n - 1 - i].1))
            && (forall i :: 0 <= i < n - 1 ==> left[i + 1].1 - left[i].1 == pinPitch)
  {
    var (left, bottom, right, top) := Centres(pins, rows, pinPitch, rowPitch);
    var n := pins / rows;
    forall i | 0 <= i < n - 1 ensures left[i + 1].1 - left[i].1 == pinPitch {
      RowYNext(RowStart(n, pinPitch), pinPitch, i);
    }
  }

  /** The rows are centred on the origin. */
  lemma CentresCentred(pins: nat, rows: nat, pinPitch: real, rowPitch: real)
    requires rows > 0 && pins / rows > 0
    ensures var left := Centres(pins, rows, pinPitch, rowPitch).0;
            left[0].1 + left[|left| - 1].1 == 0.0
  {
  }

  const Layers: seq<Node> := [Str("F.Cu"), Str("F.Paste"), Str("F.Mask")]

  function SmdPad(num: int, at: Centre, size: Centre): Node
  {
    Pad(Int(num), Str("smd"), Str("rect"), (Flt(at.0), Flt(at.1)), (Flt(size.0), Flt(size.1)), Layers)
  }

  /** Pads numbered first, first+1, ... for a row of centres. */
  function RowPads(centres: seq<Centre>, first: int, size: Centre): (r: seq<Node>)
  {
    seq(|centres|, i requires 0 <= i < |centres| => SmdPad(first + i, centres[i], size))
  }

  /** One `for pin in row: out.append(pad(num, ...)); num += 1` loop. */
  method AppendRow(out: seq<Node>, centres: seq<Centre>, num: int, size: Centre)
    returns (out': seq<Node>, num': int)
    ensures out' == out + RowPads(centres, num, size)
    ensures num' == num + |centres|
  {
    out', num' := out, num;
    for i := 0 to |centres|
      invariant out' == out + RowPads(centres[..i], num, size)
      invariant num' == num + i
    {
      assert RowPads(centres[..i + 1], num, size) == RowPads(centres[..i], num, size) + [SmdPad(num + i, centres[i], size)];
      out' := out' + [SmdPad(num', centres[i], size)];
      num' := num' + 1;
    }
    assert centres[..|centres|] == centres;
  }

  /** The centres in numbering order: left, bottom, right, top; the bottom and
      top rows only for a quad package. */
  function PadOrder(pins: nat, rows: nat, pinPitch: real, rowPitch: real): seq<Centre>
    requires rows > 0
  {
    var (l, b, r, t) := Centres(pins, rows, pinPitch, rowPitch);
    if rows == 4 then l + b + r + t else l + r
  }

  function PadNumber(n: Node): Node
  {
    if n.List? && |n.children| > 1 then n.children[1] else n
  }

  /** pads: every pad numbered consecutively from 1 in the order left, bottom,
      right, top; the left and right rows use pad_shape, the other two its
      transpose. */
  method Pads(pins: nat, rows: nat, pinPitch: real, rowPitch: real, padShape: Centre) returns (out: seq<Node>)
    requires rows > 0
    ensures var order := PadOrder(pins, rows, pinPitch, rowPitch);
            |out| == |order|
            && forall k :: 0 <= k < |out| ==> PadNumber(out[k]) == Int(k + 1)
                                                && KicadMod.PointOf(out[k], 4) == [Flt(order[k].0), Flt(order[k].1)]
  {
    var sizeLR := padShape;
    var sizeTB := (padShape.1, padShape.0);
    var leftr, bottomr, rightr, topr := PinCentres(pins, rows, pinPitch, rowPitch);
    var num := 1;
    out := [];
    out, num := AppendRow(out, leftr, num, sizeLR);
    if rows == 4 {
      out, num := AppendRow(out, bottomr, num, sizeTB);
    }
    out, num := AppendRow(out, rightr, num, sizeLR);
    if rows == 4 {
      out, num := AppendRow(out, topr, num, sizeTB);
    }
    assert PadOrder(pins, rows, pinPitch, rowPitch)
        == if rows == 4 then leftr + bottomr + rightr + topr else leftr + rightr;
    RowPadsNumbered(out, rows, leftr, bottomr, rightr, topr, sizeLR, sizeTB);
  }

  lemma RowPadShape(centres: seq<Centre>, first: int, size: Centre, k: nat)
    requires k < |centres|
    ensures PadNumber(RowPads(centres, first, size)[k]) == Int(first + k)
    ensures KicadMod.PointOf(RowPads(centres, first, size)[k], 4) == [Flt(centres[k].0), Flt(centres[k].1)]
  {
  }

  lemma RowPadsNumbered(out: seq<Node>, rows: nat, l: seq<Centre>, b: seq<Centre>, r: seq<Centre>, t: seq<Centre>,
                        sizeLR: Centre, sizeTB: Centre)
    requires out == if rows == 4
      then RowPads(l, 1, sizeLR) + RowPads(b, 1 + |l|, sizeTB) + RowPads(r, 1 + |l| + |b|, sizeLR) + RowPads(t, 1 + |l| + |b| + |r|, sizeTB)
      else RowPads(l, 1, sizeLR) + RowPads(r, 1 + |l|, sizeLR)
    ensures var order := if rows == 4 then l + b + r + t else l + r;
            |out| == |order|
            && forall k :: 0 <= k < |out| ==> PadNumber(out[k]) == Int(k + 1)
                                                && KicadMod.PointOf(out[k], 4) == [Flt(order[k].0), Flt(order[k].1)]
  {
    var order := if rows == 4 then l + b + r + t else l + r;
    forall k | 0 <= k < |out|
      ensures PadNumber(out[k]) == Int(k + 1) && KicadMod.PointOf(out[k], 4) == [Flt(order[k].0), Flt(order[k].1)]
    {
      if k < |l| {
        RowPadShape(l, 1, sizeLR, k);
      } else if rows == 4 && k < |l| + |b| {
        RowPadShape(b, 1 + |l|, sizeTB, k - |l|);
      } else if rows == 4 && k < |l| + |b| + |r| {
        RowPadShape(r, 1 + |l| + |b|, sizeLR, k - |l| - |b|);
      } else if rows == 4 {
        RowPadShape(t, 1 + |l| + |b| + |r|, sizeTB, k - |l| - |b| - |r|);
      } else {
        RowPadShape(r, 1 + |l|, sizeLR, k - |l|);
      }
    }
  }

  /** The assertions main makes before generating a footprint. */
  function MainChecks(rows: int, pins: int): (r: Outcome<bool>)
    ensures r.Ok? <==> (rows == 2 || rows == 4) && pins % rows == 0
    ensures r.Raise? ==> r.exc == AssertionError
  {
    if !(rows == 2 || rows == 4) then Raise(AssertionError)
    else if pins % rows != 0 then Raise(AssertionError)
    else Ok(true)
  }

  /** Once main's assertions pass, a footprint has exactly `pins` pads. */
  lemma PadCountIsPins(pins: nat, rows: nat, pinPitch: real, rowPitch: real)
    requires MainChecks(rows, pins).Ok?
    ensures |PadOrder(pins, rows, pinPitch, rowPitch)| == pins
  {
  }
}
