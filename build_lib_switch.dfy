/**
 * scripts/build_lib_switch.py: the generic nPmT switch symbols of the
 * KiCad 6 symbol library. Positions are worked out in mils on integers and
 * scaled to millimetres (times 2.54/100) only when written into the tree.
 */
module BuildLibSwitch {
  import opened Py
  import opened Sexp

  // ===========================================================================
  // Name and heights

  /** 1 and 2 are spelled S and D, other counts as decimals. */
  function Letter(k: nat): string
  {
    if k == 1 then "S" else if k == 2 then "D" else NatText(k)
  }

  function Name(n: nat, m: nat): string
  {
    "SWITCH_" + Letter(n) + "P" + Letter(m) + "T"
  }

  /** Pins on the right: one per throw plus a spacer between poles, made
      odd. */
  function PinsRight(n: nat, m: nat): int
  {
    var r := n * m + n - 1;
    if r % 2 == 0 then r + 1 else r
  }

  function HalfHeight(n: nat, m: nat): int
  {
    100 * (PinsRight(n, m) - 1) / 2
  }

  /** The reference sits 100 above the top pin, 50 more for one throw. */
  function RefHeight(n: nat, m: nat): int
  {
    HalfHeight(n, m) + 100 + (if m == 1 then 50 else 0)
  }

  /** The value sits 100 below the bottom, 100 less when an odd number of
      poles with an even number of throws leaves no bottom spacer. */
  function ValHeight(n: nat, m: nat): int
  {
    -(HalfHeight(n, m) + 100) + (if n % 2 == 1 && m % 2 == 0 then 100 else 0)
  }

  /** Mils to millimetres, by the exact product. */
  function Mm(v: int): real
  {
    v as real * (2.54 / 100.0)
  }

  lemma HalfHeightOnGrid(n: nat, m: nat)
    ensures HalfHeight(n, m) % 100 == 0
  {
    var q := (PinsRight(n, m) - 1) / 2;
    assert PinsRight(n, m) - 1 == 2 * q;
    assert 100 * (PinsRight(n, m) - 1) == 2 * (100 * q);
    assert HalfHeight(n, m) == 100 * q;
  }

  /** The right-hand pin count is odd and covers every throw and spacer, so
      the half height is on the 100-mil grid; the reference is above the
      value. */
  lemma Heights(n: nat, m: nat)
    requires n >= 1
    ensures PinsRight(n, m) % 2 == 1 && n * m + n - 1 <= PinsRight(n, m) <= n * m + n
    ensures HalfHeight(n, m) % 100 == 0 && 2 * HalfHeight(n, m) == 100 * (PinsRight(n, m) - 1)
    ensures ValHeight(n, m) < RefHeight(n, m)
  {
    MulNat(n, m);
    var q := (PinsRight(n, m) - 1) / 2;
    assert PinsRight(n, m) - 1 == 2 * q;
    assert 100 * (PinsRight(n, m) - 1) == 2 * (100 * q);
    assert HalfHeight(n, m) == 100 * q;
  }

  // ===========================================================================
  // Tree pieces

  const Font: Node := List([Str("font"), List([Str("size"), Flt(1.27), Flt(1.27)])])
  const Effects: Node := List([Str("effects"), Font])
  const HiddenEffects: Node := List([Str("effects"), Font, Str("hide")])
  const NoFill: Node := List([Str("fill"), List([Str("type"), Str("none")])])

  function Stroke(kind: string): Node
  {
    List([Str("stroke"), List([Str("width"), Int(0)]), List([Str("type"), Str(kind)]),
          List([Str("color"), Int(0), Int(0), Int(0), Int(0)])])
  }

  function Property(key: string, value: string, id: int, at: seq<Node>, effects: Node): Node
  {
    List([Str("property"), Str(key), Str(value), List([Str("id"), Int(id)]), List([Str("at")] + at), effects])
  }

  /** The symbol's name, flags and its four properties, the reference and
      the value at the given heights in mils. */
  function HeaderAt(name: string, refheight: int, valheight: int): seq<Node>
  {
    [Str("symbol"), Str(name),
     List([Str("pin_names"), Str("hide")]), List([Str("in_bom"), Str("yes")]), List([Str("on_board"), Str("yes")]),
     Property("Reference", "SW", 0, [Int(0), Flt(Mm(refheight)), Int(0)], Effects),
     Property("Value", name, 1, [Int(0), Flt(Mm(valheight)), Int(0)], Effects),
     Property("Footprint", "", 2, [Int(0), Int(0), Int(0)], HiddenEffects),
     Property("Datasheet", "", 3, [Int(0), Int(0), Int(0)], HiddenEffects)]
  }

  function Header(n: nat, m: nat): seq<Node>
  {
    HeaderAt(Name(n, m), RefHeight(n, m), ValHeight(n, m))
  }

  function Xy(x: Node, y: Node): Node { List([Str("xy"), x, y]) }

  function Polyline(a: Node, b: Node, kind: string): Node
  {
    List([Str("polyline"), List([Str("pts"), a, b]), Stroke(kind), NoFill])
  }

  function Circle(x: real, y: real): Node
  {
    List([Str("circle"), List([Str("center"), Flt(x), Flt(y)]), List([Str("radius"), Flt(0.254)]), Stroke("default"), NoFill])
  }

  /** A passive pin at (x, y) pointing at angle, with its number as text. */
  function Pin(x: real, y: real, angle: int, number: int): Node
  {
    List([Str("pin"), Str("passive"), Str("line"), List([Str("at"), Flt(x), Flt(y), Int(angle)]),
          List([Str("length"), Flt(1.016)]), List([Str("name"), Str(""), Effects]),
          List([Str("number"), Str(IntText(number)), Effects])])
  }

  /** The number text of a pin node. */
  function NumberOf(pin: Node): Option<string>
  {
    if pin.List? && |pin.children| == 7 && pin.children[6].List? && |pin.children[6].children| >= 2
       && pin.children[6].children[1].Str?
    then Some(pin.children[6].children[1].s)
    else None
  }

  // ===========================================================================
  // Poles and throws

  /** The top throw row of pole p: each pole is m + 1 rows below the last. */
  function PoleTop(n: nat, m: nat, p: nat): int
  {
    HalfHeight(n, m) - 100 * Strides(p, m + 1)
  }

  /** The pole sits level with the middle of its throws. */
  function PoleY(n: nat, m: nat, p: nat): int
  {
    PoleTop(n, m, p) - (100 * (m - 1)) / 2 - (if m % 2 == 0 then 50 else 0)
  }

  function ThrowY(n: nat, m: nat, p: nat, t: nat): int
  {
    PoleTop(n, m, p) - 100 * t
  }

  function PoleNumber(m: nat, p: nat): int
  {
    p * (m + 1) + 2
  }

  function ThrowNumber(m: nat, p: nat, t: nat): int
  {
    PoleNumber(m, p) + t - 1 + (if t > 0 then 1 else 0)
  }

  /** The lever and pivot of pole p, then one contact per throw. */
  function PoleDrawing(n: nat, m: nat, p: nat): seq<Node>
  {
    var y := Mm(PoleY(n, m, p));
    [Polyline(Xy(Flt(-1.27), Flt(y + 0.254)), Xy(Flt(1.27), Flt(y + 2.286)), "default"), Circle(-1.27, y)]
    + seq(m, t requires 0 <= t < m => Circle(1.27, Mm(ThrowY(n, m, p, t))))
  }

  /** The pin of pole p on the left, then one pin per throw on the right. */
  function PolePins(n: nat, m: nat, p: nat): (r: seq<Node>)
    ensures |r| == m + 1
  {
    [Pin(-2.54, Mm(PoleY(n, m, p)), 0, PoleNumber(m, p))]
    + seq(m, t requires 0 <= t < m => Pin(2.54, Mm(ThrowY(n, m, p, t)), 180, ThrowNumber(m, p, t)))
  }

  /** The drawings of the first k poles. */
  function Drawings(n: nat, m: nat, k: nat): (r: seq<Node>)
    ensures |r| == Strides(k, m + 2)
  {
    if k == 0 then [] else Drawings(n, m, k - 1) + PoleDrawing(n, m, k - 1)
  }

  /** The pins of the first k poles. */
  function Pins(n: nat, m: nat, k: nat): (r: seq<Node>)
    ensures |r| == Strides(k, m + 1)
  {
    AppendedLength(PolePinsOf(n, m), m + 1, k);
    Appended(PolePinsOf(n, m), k)
  }

  function PolePinsOf(n: nat, m: nat): nat -> seq<Node>
  {
    (p: nat) => PolePins(n, m, p)
  }

  /** The dotted line joining several poles: five 20-mil dashes per row. */
  function DashCount(n: nat, m: nat): nat
  {
    if n > 1 then MulNat(5 * (m + 1), n - 1); 5 * (m + 1) * (n - 1) else 0
  }

  function DashTop(n: nat, m: nat): int
  {
    HalfHeight(n, m) - (100 * (m - 1)) / 2 + 50 - (if m % 2 == 0 then 50 else 0)
  }

  function Dash(y: int): Node
  {
    Polyline(Xy(Int(0), Flt(Mm(y))), Xy(Int(0), Flt(Mm(y) - 0.127)), "dot")
  }

  function Dashes(n: nat, m: nat): (r: seq<Node>)
    ensures |r| == DashCount(n, m)
  {
    seq(DashCount(n, m), i requires 0 <= i < DashCount(n, m) => Dash(DashTop(n, m) - 20 * i))
  }

  /** switch(n, m): header, then every drawing item, then every pin. */
  function SwitchOf(n: nat, m: nat): seq<Node>
  {
    Header(n, m) + (Drawings(n, m, n) + Dashes(n, m)) + Pins(n, m, n)
  }

  method Switch(n: nat, m: nat) returns (out: seq<Node>)
    ensures out == SwitchOf(n, m)
  {
    var nPinsRight := n * m + n - 1;
    if nPinsRight % 2 == 0 {
      nPinsRight := nPinsRight + 1;
    }
    assert nPinsRight == PinsRight(n, m);
    var height := 100 * (nPinsRight - 1);
    var hheight := height / 2;
    assert hheight == HalfHeight(n, m);
    var refheight := hheight + 100;
    if m == 1 {
      refheight := refheight + 50;
    }
    var valheight := -(hheight + 100);
    if n % 2 == 1 && m % 2 == 0 {
      valheight := valheight + 100;
    }
    assert refheight == RefHeight(n, m) && valheight == ValHeight(n, m);
    out := HeaderAt(Name(n, m), refheight, valheight);
    assert out == Header(n, m);
    var drawing, pins := DrawPoles(n, m, hheight);
    if n > 1 {
      drawing := AddDashes(n, m, hheight, drawing);
    } else {
      assert Dashes(n, m) == [];
      assert drawing + [] == drawing;
    }
    out := out + drawing;
    out := out + pins;
  }

  /** The pole loop: each pole's drawing and pins, pole_top dropping m + 1
      rows per pole. */
  method DrawPoles(n: nat, m: nat, hheight: int) returns (drawing: seq<Node>, pins: seq<Node>)
    requires hheight == HalfHeight(n, m)
    ensures drawing == Drawings(n, m, n) && pins == Pins(n, m, n)
  {
    drawing, pins := [], [];
    var poleTop := hheight;
    var pole := 0;
    while pole < n
      invariant 0 <= pole <= n
      invariant poleTop == PoleTop(n, m, pole)
      invariant drawing == Drawings(n, m, pole) && pins == Pins(n, m, pole)
    {
      drawing, pins := AddPole(n, m, pole, poleTop, drawing, pins);
      poleTop := poleTop - 100 * (m + 1);
      pole := pole + 1;
    }
  }

  /** One pass of the pole loop: the lever, the pivot and the pole's pin,
      then a contact and a pin per throw. */
  method AddPole(n: nat, m: nat, pole: nat, poleTop: int, drawing: seq<Node>, pins: seq<Node>)
    returns (drawing': seq<Node>, pins': seq<Node>)
    requires poleTop == PoleTop(n, m, pole)
    ensures drawing' == drawing + PoleDrawing(n, m, pole) && pins' == pins + PolePins(n, m, pole)
  {
    var poleNum := pole * (m + 1) + 2;
    var poleY := poleTop - (100 * (m - 1)) / 2;
    if m % 2 == 0 {
      poleY := poleY - 50;
    }
    var y := Mm(poleY);
    assert y == Mm(PoleY(n, m, pole));
    var marks := [Polyline(Xy(Flt(-1.27), Flt(y + 0.254)), Xy(Flt(1.27), Flt(y + 2.286)), "default"), Circle(-1.27, y)];
    drawing' := drawing + marks;
    pins' := pins + [Pin(-2.54, y, 0, poleNum)];
    ghost var d := PoleDrawing(n, m, pole);
    ghost var ps := PolePins(n, m, pole);
    PoleStart(n, m, pole);
    var throw := 0;
    while throw < m
      invariant 0 <= throw <= m
      invariant drawing' == drawing + d[..2 + throw]
      invariant pins' == pins + ps[..1 + throw]
    {
      var throwNum := poleNum + throw - 1;
      var throwY := Mm(poleTop - 100 * throw);
      if throw > 0 {
        throwNum := throwNum + 1;
      }
      ThrowNext(n, m, pole, throw);
      assert throwY == Mm(ThrowY(n, m, pole, throw)) && throwNum == ThrowNumber(m, pole, throw);
      drawing' := drawing' + [Circle(1.27, throwY)];
      pins' := pins' + [Pin(2.54, throwY, 180, throwNum)];
      throw := throw + 1;
    }
    assert d[..2 + m] == d;
    assert ps[..1 + m] == ps;
  }

  /** Pole p's drawing starts with its lever and pivot, its pins with the pole's pin. */
  lemma PoleStart(n: nat, m: nat, p: nat)
    ensures |PoleDrawing(n, m, p)| == 2 + m
    ensures var y := Mm(PoleY(n, m, p));
            PoleDrawing(n, m, p)[..2]
              == [Polyline(Xy(Flt(-1.27), Flt(y + 0.254)), Xy(Flt(1.27), Flt(y + 2.286)), "default"), Circle(-1.27, y)]
    ensures PolePins(n, m, p)[..1] == [Pin(-2.54, Mm(PoleY(n, m, p)), 0, PoleNumber(m, p))]
  {
  }

  /** One more throw of pole p: its contact and its pin. */
  lemma ThrowNext(n: nat, m: nat, p: nat, t: nat)
    requires t < m
    ensures PoleDrawing(n, m, p)[..2 + t + 1] == PoleDrawing(n, m, p)[..2 + t] + [Circle(1.27, Mm(ThrowY(n, m, p, t)))]
    ensures PolePins(n, m, p)[..1 + t + 1]
              == PolePins(n, m, p)[..1 + t] + [Pin(2.54, Mm(ThrowY(n, m, p, t)), 180, ThrowNumber(m, p, t))]
  {
    var d, ps := PoleDrawing(n, m, p), PolePins(n, m, p);
    assert d[..2 + t + 1] == d[..2 + t] + [d[2 + t]];
    assert ps[..1 + t + 1] == ps[..1 + t] + [ps[1 + t]];
  }

  /** The dash loop: 5(m+1)(n-1) dots 20 mils apart down the middle. */
  method AddDashes(n: nat, m: nat, hheight: int, drawing: seq<Node>) returns (drawing': seq<Node>)
    requires n > 1 && hheight == HalfHeight(n, m)
    ensures drawing' == drawing + Dashes(n, m)
  {
    drawing' := drawing;
    var poleY := hheight - (100 * (m - 1)) / 2 + 50;
    if m % 2 == 0 {
      poleY := poleY - 50;
    }
    var i := 0;
    while i < 5 * (m + 1) * (n - 1)
      invariant 0 <= i <= DashCount(n, m)
      invariant poleY == DashTop(n, m) - 20 * i
      invariant drawing' == drawing + Dashes(n, m)[..i]
    {
      var dashStart := poleY as real * 2.54 / 100.0;
      var dashEnd := dashStart - 0.127;
      assert dashStart == Mm(poleY);
      assert Dashes(n, m)[..i + 1] == Dashes(n, m)[..i] + [Dash(poleY)];
      drawing' := drawing' + [Polyline(Xy(Int(0), Flt(dashStart)), Xy(Int(0), Flt(dashEnd)), "dot")];
      poleY := poleY - 20;
      i := i + 1;
    }
    assert Dashes(n, m)[..i] == Dashes(n, m);
  }

  // ===========================================================================
  // What the symbol holds

  /** Nine header items, then two drawing items per pole, one per throw and
      the dashes, then one pin per pole and per throw. */
  lemma SwitchLayout(n: nat, m: nat)
    ensures Strides(n, m + 2) == n * (m + 2) && Strides(n, m + 1) == n * (m + 1)
    ensures var out := SwitchOf(n, m);
            var pinsFrom := 9 + Strides(n, m + 2) + DashCount(n, m);
            |out| == pinsFrom + Strides(n, m + 1)
            && out[..9] == Header(n, m)
            && out[9..pinsFrom] == Drawings(n, m, n) + Dashes(n, m)
            && out[pinsFrom..] == Pins(n, m, n)
    ensures n > 1 ==> DashCount(n, m) == 5 * (m + 1) * (n - 1)
  {
    StridesProduct(n, m + 2);
    StridesProduct(n, m + 1);
    var out := SwitchOf(n, m);
    var d := Drawings(n, m, n) + Dashes(n, m);
    assert out == Header(n, m) + d + Pins(n, m, n);
  }

  /** Pin j of pole p (j = 0 the pole, j = 1 + t throw t). */
  function PinAt(n: nat, m: nat, p: nat, j: nat): Node
    requires j <= m
  {
    if j == 0 then Pin(-2.54, Mm(PoleY(n, m, p)), 0, PoleNumber(m, p))
    else Pin(2.54, Mm(ThrowY(n, m, p, j - 1)), 180, ThrowNumber(m, p, j - 1))
  }

  lemma PolePinAt(n: nat, m: nat, p: nat, j: nat)
    requires j <= m
    ensures |PolePins(n, m, p)| == m + 1 && PolePins(n, m, p)[j] == PinAt(n, m, p, j)
  {
  }

  /** The pins come pole by pole, each pole's pin before its throws. */
  lemma PinsIndex(n: nat, m: nat, k: nat, p: nat, j: nat)
    requires p < k && j <= m
    ensures Strides(p, m + 1) + j < |Pins(n, m, k)|
    ensures Pins(n, m, k)[Strides(p, m + 1) + j] == PolePins(n, m, p)[j]
  {
    AppendedIndex(PolePinsOf(n, m), m + 1, k, p, j);
  }

  /** The number of the k-th pin in pin order. */
  function NumberAt(m: nat, k: nat): int
  {
    var p, j := k / (m + 1), k % (m + 1);
    if j == 0 then PoleNumber(m, p) else ThrowNumber(m, p, j - 1)
  }

  /** Where number v goes: the inverse of NumberAt. */
  function SlotOf(m: nat, v: int): int
  {
    var p, r := (v - 1) / (m + 1), (v - 1) % (m + 1);
    if r == 0 then p * (m + 1) + 1 else if r == 1 then p * (m + 1) else p * (m + 1) + r
  }

  /** Pole p uses exactly p(m+1)+1 .. (p+1)(m+1): the pole takes the second
      of its numbers, throw 0 the first and throw t > 0 the (t+2)-th. */
  lemma PoleNumbers(m: nat, p: nat, j: nat)
    requires m >= 1 && j <= m
    ensures var v := NumberAt(m, p * (m + 1) + j);
            p * (m + 1) + 1 <= v <= (p + 1) * (m + 1) && SlotOf(m, v) == p * (m + 1) + j
  {
    var k := p * (m + 1) + j;
    if j < m + 1 {
      DivDecompose(k, m + 1, p, j);
    }
    var v := NumberAt(m, k);
    var r := if j == 0 then 1 else if j == 1 then 0 else j;
    assert v == p * (m + 1) + r + 1;
    DivDecompose(v - 1, m + 1, p, r);
  }

  /** Pin numbering is a permutation of 1 .. n(m+1): every pin's number is
      in range, numbers and places determine each other, and every number
      in range is some pin's. */
  lemma NumberingPermutes(n: nat, m: nat)
    requires m >= 1
    ensures forall k :: 0 <= k < n * (m + 1) ==>
              1 <= NumberAt(m, k) <= n * (m + 1) && SlotOf(m, NumberAt(m, k)) == k
    ensures forall v :: 1 <= v <= n * (m + 1) ==>
              0 <= SlotOf(m, v) < n * (m + 1) && NumberAt(m, SlotOf(m, v)) == v
  {
    forall k | 0 <= k < n * (m + 1)
      ensures 1 <= NumberAt(m, k) <= n * (m + 1) && SlotOf(m, NumberAt(m, k)) == k
    {
      NumberSlot(n, m, k);
    }
    forall v | 1 <= v <= n * (m + 1)
      ensures 0 <= SlotOf(m, v) < n * (m + 1) && NumberAt(m, SlotOf(m, v)) == v
    {
      SlotNumber(n, m, v);
    }
  }

  /** The k-th pin's number is in range and goes back to place k. */
  lemma NumberSlot(n: nat, m: nat, k: nat)
    requires m >= 1 && k < n * (m + 1)
    ensures 1 <= NumberAt(m, k) <= n * (m + 1) && SlotOf(m, NumberAt(m, k)) == k
  {
    var p, j := k / (m + 1), k % (m + 1);
    SlotPole(n, m, k);
    PoleNumbers(m, p, j);
    MulLe(p + 1, n, m + 1);
  }

  /** Every number in range has a place whose pin carries it. */
  lemma SlotNumber(n: nat, m: nat, v: int)
    requires m >= 1 && 1 <= v <= n * (m + 1)
    ensures 0 <= SlotOf(m, v) < n * (m + 1) && NumberAt(m, SlotOf(m, v)) == v
  {
    var p, j := SlotParts(n, m, v);
    NumberAtPlace(m, p, j);
    MulLe(p + 1, n, m + 1);
  }

  /** Number v sits at place j of pole p < n. */
  lemma SlotParts(n: nat, m: nat, v: int) returns (p: nat, j: nat)
    requires m >= 1 && 1 <= v <= n * (m + 1)
    ensures p < n && j <= m && SlotOf(m, v) == p * (m + 1) + j
    ensures v == p * (m + 1) + (if j == 0 then 2 else if j == 1 then 1 else j + 1)
  {
    p := (v - 1) / (m + 1);
    var r := (v - 1) % (m + 1);
    j := if r == 0 then 1 else if r == 1 then 0 else r;
    SlotPole(n, m, v - 1);
  }

  /** The number at place j of pole p: the pole pin carries the second of the
      pole's numbers, throw 0 the first and throw t > 0 the (t+2)-th. */
  lemma NumberAtPlace(m: nat, p: nat, j: nat)
    requires j <= m
    ensures NumberAt(m, p * (m + 1) + j) == p * (m + 1) + (if j == 0 then 2 else if j == 1 then 1 else j + 1)
  {
    DivDecompose(p * (m + 1) + j, m + 1, p, j);
  }

  /** The place k of a numbering of n poles is in pole k / (m + 1) < n. */
  lemma SlotPole(n: nat, m: nat, k: nat)
    requires k < n * (m + 1)
    ensures k == (k / (m + 1)) * (m + 1) + k % (m + 1) && k / (m + 1) < n
  {
    var p := k / (m + 1);
    if p >= n {
      MulLe(n, p, m + 1);
    }
  }

  /** The k-th pin of the symbol carries number NumberAt(m, k) as text, so
      the pins carry the numbers 1 .. n(m+1) once each. */
  lemma PinNumbers(n: nat, m: nat, k: nat)
    requires m >= 1 && k < n * (m + 1)
    ensures var pins := Pins(n, m, n);
            k < |pins| && NumberOf(pins[k]) == Some(IntText(NumberAt(m, k)))
  {
    var p, j := k / (m + 1), k % (m + 1);
    SlotPole(n, m, k);
    StridesProduct(p, m + 1);
    PinsIndex(n, m, n, p, j);
    PolePinAt(n, m, p, j);
  }

  /** Distinct places carry distinct number texts. */
  lemma PinNumbersDistinct(n: nat, m: nat, k1: nat, k2: nat)
    requires m >= 1 && k1 < n * (m + 1) && k2 < n * (m + 1) && k1 != k2
    ensures var pins := Pins(n, m, n);
            k1 < |pins| && k2 < |pins| && NumberOf(pins[k1]) != NumberOf(pins[k2])
  {
    NumberingPermutes(n, m);
    PinNumbers(n, m, k1);
    PinNumbers(n, m, k2);
    ParseIntText(NumberAt(m, k1));
    ParseIntText(NumberAt(m, k2));
  }

  /** Every pin sits on the 100-mil grid: throw t of pole p at PoleTop - 100t,
      and the pole level with the middle of its throws. */
  lemma PinsOnGrid(n: nat, m: nat, p: nat, t: nat)
    ensures ThrowY(n, m, p, t) % 100 == 0 && PoleY(n, m, p) % 100 == 0
    ensures PoleTop(n, m, p + 1) == PoleTop(n, m, p) - 100 * (m + 1)
    ensures m >= 1 ==> 2 * PoleY(n, m, p) == ThrowY(n, m, p, 0) + ThrowY(n, m, p, m - 1) - (if m % 2 == 0 then 100 else 0)
  {
    var top := PoleTop(n, m, p);
    assert top % 100 == 0 by {
      HalfHeightOnGrid(n, m);
      RowsDown(HalfHeight(n, m), Strides(p, m + 1));
    }
    assert PoleY(n, m, p) == top - 100 * (m / 2) by {
      PoleOffset(m);
    }
    RowsDown(top, t);
    RowsDown(top, m / 2);
  }

  /** Whole rows down from a point on the grid stay on the grid. */
  lemma RowsDown(x: int, y: int)
    requires x % 100 == 0
    ensures (x - 100 * y) % 100 == 0
  {
    DivDecompose(x, 100, x / 100, 0);
    DivDecompose(x - 100 * y, 100, x / 100 - y, 0);
  }

  /** The pole's drop below the pole top is a whole number of rows, m / 2. */
  lemma PoleOffset(m: nat)
    ensures (100 * (m - 1)) / 2 + (if m % 2 == 0 then 50 else 0) == 100 * (m / 2)
  {
    var q := m / 2;
    assert 100 * (m - 1) == 2 * (50 * (m - 1));
    assert (100 * (m - 1)) / 2 == 50 * (m - 1);
    if m % 2 == 0 {
      assert m == 2 * q;
    } else {
      assert m == 2 * q + 1;
    }
  }

  // ===========================================================================
  // main

  const LibraryHeader: seq<Node> :=
    [Str("kicad_symbol_lib"), List([Str("version"), Int(20211014)]), List([Str("generator"), Str("agg_kicad.build_lib_switch")])]

  /** The library tree main builds: the header, then switch(n, m) for n and
      m in 1, 2, 3, n-major. */
  function LibraryOf(): seq<Node>
  {
    LibraryHeader + Rows(3)
  }

  /** The symbols of the outer loop's first k passes. */
  function Rows(k: nat): (r: seq<Node>)
    ensures |r| == 3 * k
  {
    if k == 0 then [] else Rows(k - 1) + Row(k)
  }

  /** The symbols of one pass of the outer loop: switch(n, 1), switch(n, 2), switch(n, 3). */
  function Row(n: nat): (r: seq<Node>)
    ensures |r| == 3
  {
    Table(Throws(n), 3)
  }

  /** The inner loop's t-th symbol for n poles: switch(n, t + 1). */
  function Throws(n: nat): nat -> Node
  {
    (t: nat) => List(SwitchOf(n, t + 1))
  }

  method Library() returns (out: seq<Node>)
    ensures out == LibraryOf()
  {
    out := LibraryHeader;
    var n := 1;
    while n <= 3
      invariant 1 <= n <= 4
      invariant out == LibraryHeader + Rows(n - 1)
    {
      out := AddRow(n, out);
      n := n + 1;
    }
    assert n - 1 == 3;
  }

  /** One pass of main's outer loop: switch(n, m) for m in 1, 2, 3. */
  method AddRow(n: nat, out: seq<Node>) returns (out': seq<Node>)
    requires 1 <= n <= 3 && out == LibraryHeader + Rows(n - 1)
    ensures out' == LibraryHeader + Rows(n)
  {
    out' := out;
    var m := 1;
    RowStart(out', LibraryHeader + Rows(n - 1), Throws(n));
    while m <= 3
      invariant 1 <= m <= 4
      invariant out' == LibraryHeader + Rows(n - 1) + Table(Throws(n), m - 1)
    {
      out' := AddSymbol(n, m, out');
      m := m + 1;
    }
    RowDone(n);
  }

  lemma RowStart(out: seq<Node>, before: seq<Node>, f: nat -> Node)
    requires out == before
    ensures out == before + Table(f, 0)
  {
    assert Table(f, 0) == [];
  }

  /** The inner loop's three symbols complete the outer loop's pass. */
  lemma RowDone(n: nat)
    requires n >= 1
    ensures LibraryHeader + Rows(n - 1) + Table(Throws(n), 3) == LibraryHeader + Rows(n)
  {
    AppendAssoc(LibraryHeader, Rows(n - 1), Row(n));
  }

  /** One pass of main's inner loop: switch(n, m) appended to the library. */
  method AddSymbol(n: nat, m: nat, out: seq<Node>) returns (out': seq<Node>)
    requires 1 <= n <= 3 && 1 <= m <= 3
    requires out == LibraryHeader + Rows(n - 1) + Table(Throws(n), m - 1)
    ensures out' == LibraryHeader + Rows(n - 1) + Table(Throws(n), m)
  {
    var sym := Switch(n, m);
    TableAppend(Throws(n), m - 1, List(sym));
    out' := out + [List(sym)];
    AppendAssoc(LibraryHeader + Rows(n - 1), Table(Throws(n), m - 1), [List(sym)]);
  }

  lemma TableAppend<T>(f: nat -> T, c: nat, x: T)
    requires f(c) == x
    ensures Table(f, c + 1) == Table(f, c) + [x]
  {
    TableStep(f, c);
  }

  lemma AppendAssoc<T>(a: seq<T>, b: seq<T>, c: seq<T>)
    ensures (a + b) + c == a + (b + c)
  {
  }

  /** The outer loop's first k passes hold the inner loop's j-th symbol for
      n poles at 3(n - 1) + j. */
  lemma {:induction false} RowsIndex(k: nat, n: nat, j: nat)
    requires 1 <= n <= k && j < 3
    ensures Rows(k)[3 * (n - 1) + j] == Throws(n)(j)
  {
    var p, r := Rows(k - 1), Row(k);
    assert Rows(k) == p + r;
    if n < k {
      RowsIndex(k - 1, n, j);
      assert (p + r)[3 * (n - 1) + j] == p[3 * (n - 1) + j];
    } else {
      TableIndex(Throws(n), 3, j);
      assert (p + r)[3 * (n - 1) + j] == r[j];
    }
  }

  /** sexp.generate of the library: the text main writes or compares. */
  function LibraryText(): string
  {
    Generate(LibraryOf(), 0)
  }

  /** The nine symbols have nine different names: the letter after
      "SWITCH_" is the pole count's, the one after "P" the throw count's. */
  lemma NamesDistinct(n1: nat, m1: nat, n2: nat, m2: nat)
    requires 1 <= n1 <= 3 && 1 <= m1 <= 3 && 1 <= n2 <= 3 && 1 <= m2 <= 3
    requires n1 != n2 || m1 != m2
    ensures Name(n1, m1) != Name(n2, m2)
  {
    assert NatText(3) == "3";
    assert Name(n1, m1)[7] == Letter(n1)[0] && Name(n1, m1)[9] == Letter(m1)[0];
    assert Name(n2, m2)[7] == Letter(n2)[0] && Name(n2, m2)[9] == Letter(m2)[0];
  }

  /** The library is the header and nine symbols, switch(n, m) in place
      3 + 3(n - 1) + (m - 1). */
  lemma LibrarySymbol(n: nat, m: nat)
    requires 1 <= n <= 3 && 1 <= m <= 3
    ensures |LibraryOf()| == 12 && LibraryOf()[3 + 3 * (n - 1) + (m - 1)] == List(SwitchOf(n, m))
  {
    var h, s := LibraryHeader, Rows(3);
    var k := 3 * (n - 1) + (m - 1);
    assert LibraryOf() == h + s && |h| == 3;
    RowsSymbol(3, n, m);
    assert (h + s)[3 + k] == s[k];
  }

  /** The outer loop's first k passes hold switch(n, m) at 3(n - 1) + (m - 1). */
  lemma RowsSymbol(k: nat, n: nat, m: nat)
    requires 1 <= n <= k && 1 <= m <= 3
    ensures Rows(k)[3 * (n - 1) + (m - 1)] == List(SwitchOf(n, m))
  {
    RowsIndex(k, n, m - 1);
    ThrowsAt(n, m - 1);
  }

  lemma ThrowsAt(n: nat, t: nat)
    ensures Throws(n)(t) == List(SwitchOf(n, t + 1))
  {
  }

  /** Each symbol is named after its pole and throw counts. */
  lemma SwitchHead(n: nat, m: nat)
    ensures |SwitchOf(n, m)| > 1 && SwitchOf(n, m)[1] == Str(Name(n, m))
  {
    var h, mid, pins := Header(n, m), Drawings(n, m, n) + Dashes(n, m), Pins(n, m, n);
    HeaderAtName(Name(n, m), RefHeight(n, m), ValHeight(n, m));
    assert SwitchOf(n, m) == (h + mid) + pins;
    assert ((h + mid) + pins)[1] == h[1];
  }

  /** The symbol node's second entry is its name. */
  lemma HeaderAtName(name: string, refheight: int, valheight: int)
    ensures |HeaderAt(name, refheight, valheight)| == 9 && HeaderAt(name, refheight, valheight)[1] == Str(name)
  {
  }
}
