/**
 * scripts/build_lib_connector.py: the generic one- and two-row connector
 * symbols of the KiCad 6 symbol library. Coordinates are millimetres on
 * the 2.54 mm pitch, kept as exact reals.
 */
module BuildLibConnector {
  import opened Py
  import opened Sexp
  import S = BuildLibSwitch

  // ===========================================================================
  // Names

  /** The pin count in a field of two, zero-padded (format spec 02). */
  function Pad2(n: nat): string
  {
    if n < 10 then "0" + NatText(n) else NatText(n)
  }

  function OneRowName(n: nat): string
  {
    "CONN_01x" + Pad2(n)
  }

  function TwoRowName(n: nat): string
  {
    "CONN_02x" + Pad2(n)
  }

  /** The padded field is digits that read back as the count, two of them
      below 100. */
  lemma Pad2Value(n: nat)
    ensures IsDigits(Pad2(n)) && DigitsValue(Pad2(n)) == n
    ensures n < 100 ==> |Pad2(n)| == 2
  {
    NatTextValue(n);
    if n < 10 {
      var d := NatText(n);
      assert Pad2(n)[..1] == "0";
    } else if n < 100 {
      assert NatText(n) == NatText(n / 10) + [DigitChar(n % 10)];
    }
  }

  /** One-row and two-row names never clash, and each names one count. */
  lemma NamesDistinct(a: nat, b: nat)
    ensures OneRowName(a) != TwoRowName(b)
    ensures OneRowName(a) == OneRowName(b) ==> a == b
    ensures TwoRowName(a) == TwoRowName(b) ==> a == b
  {
    assert OneRowName(a)[6] == '1' && TwoRowName(b)[6] == '2';
    Pad2Value(a);
    Pad2Value(b);
    if OneRowName(a) == OneRowName(b) {
      assert Pad2(a) == OneRowName(a)[8..] == OneRowName(b)[8..] == Pad2(b);
    }
    if TwoRowName(a) == TwoRowName(b) {
      assert Pad2(a) == TwoRowName(a)[8..] == TwoRowName(b)[8..] == Pad2(b);
    }
  }

  // ===========================================================================
  // Tree pieces

  function Rectangle(sx: Node, sy: Node, ex: Node, ey: Node, fill: string): Node
  {
    List([Str("rectangle"), List([Str("start"), sx, sy]), List([Str("end"), ex, ey]),
          S.Stroke("default"), List([Str("fill"), List([Str("type"), Str(fill)])])])
  }

  /** Pin row i sits 2.54 mm below row i - 1, row 0 at y = 0. */
  function RowY(i: nat): real
  {
    -(i as real) * 2.54
  }

  /** The small pin box of one row, from x0 to x1, 0.127 either side of y. */
  function Box(x0: Node, x1: real, y: real): Node
  {
    Rectangle(x0, Flt(y + 0.127), Flt(x1), Flt(y - 0.127), "outline")
  }

  /** A passive pin named and numbered num. */
  function ConnPin(x: real, y: real, angle: int, num: nat): Node
  {
    List([Str("pin"), Str("passive"), Str("line"), List([Str("at"), Flt(x), Flt(y), Int(angle)]),
          List([Str("length"), Flt(2.54)]),
          List([Str("name"), Str(NatText(num)), S.Effects]),
          List([Str("number"), Str(NatText(num)), S.Effects])])
  }

  /** The text of a pin's number child, its name child, and where it sits. */
  function PinNumber(pin: Node): Option<string>
  {
    if pin.List? && |pin.children| == 7 && pin.children[6].List? && |pin.children[6].children| >= 2
       && pin.children[6].children[1].Str?
    then Some(pin.children[6].children[1].s)
    else None
  }

  function PinName(pin: Node): Option<string>
  {
    if pin.List? && |pin.children| == 7 && pin.children[5].List? && |pin.children[5].children| >= 2
       && pin.children[5].children[1].Str?
    then Some(pin.children[5].children[1].s)
    else None
  }

  function PinPlace(pin: Node): Option<(real, real)>
  {
    if pin.List? && |pin.children| == 7 && pin.children[3].List? && |pin.children[3].children| == 4
       && pin.children[3].children[1].Flt? && pin.children[3].children[2].Flt?
    then Some((pin.children[3].children[1].r, pin.children[3].children[2].r))
    else None
  }

  function Tag(node: Node): Option<string>
  {
    if node.List? && |node.children| > 0 && node.children[0].Str? then Some(node.children[0].s) else None
  }

  // ===========================================================================
  // The two symbols

  /** The ten items before the boxes: name, flags, the four properties and
      the body rectangle reaching down past the last row. */
  function Header(name: string, refX: real, valueAt: seq<Node>, n: nat, bodyX: real): seq<Node>
  {
    [Str("symbol"), Str(name),
     List([Str("pin_names"), Str("hide")]), List([Str("in_bom"), Str("yes")]), List([Str("on_board"), Str("yes")]),
     S.Property("Reference", "J", 0, [Flt(refX), Flt(2.54), Int(0)], S.Effects),
     S.Property("Value", name, 1, valueAt, S.Effects),
     S.Property("Footprint", "", 2, [Int(0), Int(0), Int(0)], S.HiddenEffects),
     S.Property("Datasheet", "", 3, [Int(0), Int(0), Int(0)], S.HiddenEffects),
     Rectangle(Int(0), Flt(BodyBottom(n)), Flt(bodyX), Flt(1.27), "background")]
  }

  function BodyBottom(n: nat): real
  {
    (-(n - 1)) as real * 2.54 - 1.27
  }

  /** The value of the one-row symbol is turned 90 degrees, halfway down. */
  function OneRowHeader(n: nat): seq<Node>
  {
    Header(OneRowName(n), -0.635, [Flt(-2.54), Flt(OneRowValueY(n)), Int(90)], n, -1.27)
  }

  function OneRowValueY(n: nat): real
  {
    (-(n - 1)) as real / 2.0 * 2.54
  }

  /** The value of the two-row symbol sits one row below the last. */
  function TwoRowHeader(n: nat): seq<Node>
  {
    Header(TwoRowName(n), -1.27, [Flt(-1.27), Flt(-(n as real) * 2.54), Int(0)], n, -2.54)
  }

  function OneBox(i: nat): Node
  {
    Box(Int(0), -0.635, RowY(i))
  }

  function OnePin(i: nat): Node
  {
    ConnPin(2.54, RowY(i), 180, i + 1)
  }

  /** Row j / 2's right box for even j, its left box for odd j. */
  function TwoBox(j: nat): Node
  {
    if j % 2 == 0 then Box(Int(0), -0.635, RowY(j / 2)) else Box(Flt(-2.54), -1.905, RowY(j / 2))
  }

  /** The j-th pin of the two-row symbol: row j / 2's right pin for even j,
      its left pin for odd j. */
  function TwoPin(j: nat): Node
  {
    if j % 2 == 0 then ConnPin(2.54, RowY(j / 2), 180, TwoNumber(j))
    else ConnPin(-5.08, RowY(j / 2), 0, TwoNumber(j))
  }

  /** Row i numbers its right pin 2i + 2 and its left pin 2i + 1. */
  function TwoNumber(j: nat): nat
  {
    if j % 2 == 0 then j + 2 else j
  }

  /** Where number v goes: the inverse of TwoNumber. */
  function TwoSlot(v: nat): int
  {
    if v % 2 == 1 then v else v - 2
  }

  function OneRowOf(n: nat): seq<Node>
  {
    OneRowHeader(n) + Table(OneBox, n) + Table(OnePin, n)
  }

  function TwoRowOf(n: nat): seq<Node>
  {
    TwoRowHeader(n) + Table(TwoBox, 2 * n) + Table(TwoPin, 2 * n)
  }

  method OneRow(n: nat) returns (out: seq<Node>)
    ensures out == OneRowOf(n)
  {
    var name := "CONN_01x" + Pad2(n);
    out := Header(name, -0.635, [Flt(-2.54), Flt((-(n - 1)) as real / 2.0 * 2.54), Int(90)], n, -1.27);
    var boxes, pins := [], [];
    var pin := 0;
    while pin < n
      invariant 0 <= pin <= n
      invariant boxes == Table(OneBox, pin) && pins == Table(OnePin, pin)
    {
      var y := -(pin as real) * 2.54;
      TableStep(OneBox, pin);
      TableStep(OnePin, pin);
      boxes := boxes + [Box(Int(0), -0.635, y)];
      pins := pins + [ConnPin(2.54, y, 180, pin + 1)];
      pin := pin + 1;
    }
    out := out + boxes;
    out := out + pins;
  }

  method TwoRow(n: nat) returns (out: seq<Node>)
    ensures out == TwoRowOf(n)
  {
    var name := "CONN_02x" + Pad2(n);
    out := Header(name, -1.27, [Flt(-1.27), Flt(-(n as real) * 2.54), Int(0)], n, -2.54);
    var boxes, pins := [], [];
    var pin := 0;
    while pin < n
      invariant 0 <= pin <= n
      invariant boxes == Table(TwoBox, 2 * pin) && pins == Table(TwoPin, 2 * pin)
    {
      var y := -(pin as real) * 2.54;
      boxes, pins := AddRow(pin, y, boxes, pins);
      pin := pin + 1;
    }
    out := out + boxes;
    out := out + pins;
  }

  /** One pass of the two-row loop: right then left box, right then left pin. */
  method AddRow(pin: nat, y: real, boxes: seq<Node>, pins: seq<Node>) returns (boxes': seq<Node>, pins': seq<Node>)
    requires y == RowY(pin)
    requires boxes == Table(TwoBox, 2 * pin) && pins == Table(TwoPin, 2 * pin)
    ensures boxes' == Table(TwoBox, 2 * pin + 2) && pins' == Table(TwoPin, 2 * pin + 2)
  {
    assert (2 * pin) % 2 == 0 && (2 * pin) / 2 == pin;
    assert (2 * pin + 1) % 2 == 1 && (2 * pin + 1) / 2 == pin;
    TableStep(TwoBox, 2 * pin);
    TableStep(TwoBox, 2 * pin + 1);
    TableStep(TwoPin, 2 * pin);
    TableStep(TwoPin, 2 * pin + 1);
    boxes' := boxes + [Box(Int(0), -0.635, y), Box(Flt(-2.54), -1.905, y)];
    pins' := pins + [ConnPin(2.54, y, 180, 2 * pin + 2), ConnPin(-5.08, y, 0, 2 * pin + 1)];
  }

  // ===========================================================================
  // What the symbols hold

  /** The header both symbols share: name, the three flags, then properties
      Reference "J", Value the name, Footprint and Datasheet empty, ids 0 to 3. */
  predicate SharedHeader(out: seq<Node>, name: string)
  {
    |out| >= 10 && out[0] == Str("symbol") && out[1] == Str(name)
    && out[2] == List([Str("pin_names"), Str("hide")])
    && out[3] == List([Str("in_bom"), Str("yes")])
    && out[4] == List([Str("on_board"), Str("yes")])
    && PropertyOf(out[5]) == Some(("Reference", "J", 0))
    && PropertyOf(out[6]) == Some(("Value", name, 1))
    && PropertyOf(out[7]) == Some(("Footprint", "", 2))
    && PropertyOf(out[8]) == Some(("Datasheet", "", 3))
    && Tag(out[9]) == Some("rectangle")
  }

  /** Key, value and id of a property node. */
  function PropertyOf(node: Node): Option<(string, string, int)>
  {
    if node.List? && |node.children| == 6 && node.children[0] == Str("property")
       && node.children[1].Str? && node.children[2].Str?
       && node.children[3].List? && |node.children[3].children| == 2 && node.children[3].children[1].Int?
    then Some((node.children[1].s, node.children[2].s, node.children[3].children[1].i))
    else None
  }

  lemma HeaderShape(name: string, refX: real, valueAt: seq<Node>, n: nat, bodyX: real)
    ensures SharedHeader(Header(name, refX, valueAt, n, bodyX), name)
  {
  }

  lemma HeadersShared(n: nat)
    ensures SharedHeader(OneRowOf(n), OneRowName(n))
    ensures SharedHeader(TwoRowOf(n), TwoRowName(n))
  {
    var h1, h2 := OneRowHeader(n), TwoRowHeader(n);
    HeaderShape(OneRowName(n), -0.635, [Flt(-2.54), Flt(OneRowValueY(n)), Int(90)], n, -1.27);
    HeaderShape(TwoRowName(n), -1.27, [Flt(-1.27), Flt(-(n as real) * 2.54), Int(0)], n, -2.54);
    assert OneRowOf(n)[..10] == h1;
    assert TwoRowOf(n)[..10] == h2;
  }

  /** onerow: ten header items, n boxes, then n pins. */
  lemma OneRowCounts(n: nat, i: nat)
    requires i < n
    ensures var out := OneRowOf(n);
            |out| == 10 + 2 * n && Tag(out[10 + i]) == Some("rectangle") && Tag(out[10 + n + i]) == Some("pin")
  {
    var out := OneRowOf(n);
    TableIndex(OneBox, n, i);
    TableIndex(OnePin, n, i);
    assert out[10 + i] == Table(OneBox, n)[i];
    assert out[10 + n + i] == Table(OnePin, n)[i];
  }

  /** Pin i of the one-row symbol is named and numbered i + 1 and sits at
      x = 2.54, y = -2.54 i. */
  lemma OneRowPin(n: nat, i: nat)
    requires i < n
    ensures var out := OneRowOf(n);
            |out| == 10 + 2 * n
            && PinNumber(out[10 + n + i]) == Some(NatText(i + 1))
            && PinName(out[10 + n + i]) == Some(NatText(i + 1))
            && PinPlace(out[10 + n + i]) == Some((2.54, -2.54 * i as real))
  {
    var out := OneRowOf(n);
    TableIndex(OnePin, n, i);
    assert out[10 + n + i] == Table(OnePin, n)[i];
  }

  /** tworow: ten header items, 2n boxes, then 2n pins. */
  lemma TwoRowCounts(n: nat, j: nat)
    requires j < 2 * n
    ensures var out := TwoRowOf(n);
            |out| == 10 + 4 * n && Tag(out[10 + j]) == Some("rectangle") && Tag(out[10 + 2 * n + j]) == Some("pin")
  {
    var out := TwoRowOf(n);
    TableIndex(TwoBox, 2 * n, j);
    TableIndex(TwoPin, 2 * n, j);
    assert out[10 + j] == Table(TwoBox, 2 * n)[j];
    assert out[10 + 2 * n + j] == Table(TwoPin, 2 * n)[j];
  }

  /** Row i of the two-row symbol holds pin 2i + 2 at x = 2.54 and then pin
      2i + 1 at x = -5.08, both at y = -2.54 i. */
  lemma TwoRowPins(n: nat, i: nat)
    requires i < n
    ensures var out := TwoRowOf(n);
            var right, left := out[10 + 2 * n + 2 * i], out[10 + 2 * n + 2 * i + 1];
            |out| == 10 + 4 * n
            && PinNumber(right) == Some(NatText(2 * i + 2)) && PinName(right) == Some(NatText(2 * i + 2))
            && PinPlace(right) == Some((2.54, -2.54 * i as real))
            && PinNumber(left) == Some(NatText(2 * i + 1)) && PinName(left) == Some(NatText(2 * i + 1))
            && PinPlace(left) == Some((-5.08, -2.54 * i as real))
  {
    var out := TwoRowOf(n);
    assert out[10 + 2 * n + 2 * i] == ConnPin(2.54, RowY(i), 180, 2 * i + 2) by {
      TwoPinAt(n, 2 * i);
      assert (2 * i) % 2 == 0 && (2 * i) / 2 == i;
    }
    assert out[10 + 2 * n + 2 * i + 1] == ConnPin(-5.08, RowY(i), 0, 2 * i + 1) by {
      TwoPinAt(n, 2 * i + 1);
      assert (2 * i + 1) % 2 == 1 && (2 * i + 1) / 2 == i;
    }
  }

  lemma TwoPinAt(n: nat, j: nat)
    requires j < 2 * n
    ensures |TwoRowOf(n)| == 10 + 4 * n && TwoRowOf(n)[10 + 2 * n + j] == TwoPin(j)
  {
    TableIndex(TwoPin, 2 * n, j);
    assert TwoRowOf(n)[10 + 2 * n + j] == Table(TwoPin, 2 * n)[j];
  }

  /** Two-row numbering is a permutation of 1 .. 2n: every place's number is
      in range and goes back to the place, and every number has a place. */
  lemma TwoRowNumbering(n: nat)
    ensures forall j :: 0 <= j < 2 * n ==> 1 <= TwoNumber(j) <= 2 * n && TwoSlot(TwoNumber(j)) == j
    ensures forall v :: 1 <= v <= 2 * n ==> 0 <= TwoSlot(v) < 2 * n && TwoNumber(TwoSlot(v) as nat) == v
  {
  }

  /** Distinct numbers are written distinctly, so the numbers 1 .. N carried
      by the pins are each carried once. */
  lemma NumberTextsDistinct(a: nat, b: nat)
    requires a != b
    ensures NatText(a) != NatText(b)
  {
    NatTextValue(a);
    NatTextValue(b);
  }

  /** The one-row value is centred on the pins, the two-row value one row
      below the last; the body reaches 1.27 beyond the first and last rows. */
  lemma Placement(n: nat, i: nat)
    requires i < n
    ensures OneRowValueY(n) == (RowY(0) + RowY(n - 1)) / 2.0
    ensures BodyBottom(n) == RowY(n - 1) - 1.27 && BodyBottom(n) < RowY(i) < 1.27
  {
  }

  // ===========================================================================
  // main

  const LibraryHeader: seq<Node> :=
    [Str("kicad_symbol_lib"), List([Str("version"), Int(20211014)]), List([Str("generator"), Str("agg_kicad.build_lib_connector")])]

  /** The pin counts main builds: 1 to 25, then 32, 36 and 40. */
  const PinCounts: seq<nat> := [1, 2, 3, 4, 5, 6, 7, 8, 9, 10, 11, 12, 13, 14, 15, 16, 17, 18, 19, 20, 21, 22, 23, 24, 25, 32, 36, 40]

  function PinCount(i: nat): nat
  {
    if i < |PinCounts| then PinCounts[i] else 0
  }

  /** The j-th symbol: onerow for even j, tworow for odd j, of count j / 2. */
  function SymbolAt(j: nat): Node
  {
    List(if j % 2 == 0 then OneRowOf(PinCount(j / 2)) else TwoRowOf(PinCount(j / 2)))
  }

  function LibraryOf(): seq<Node>
  {
    LibraryHeader + Table(SymbolAt, 2 * |PinCounts|)
  }

  method Library() returns (out: seq<Node>)
    ensures out == LibraryOf()
  {
    out := LibraryHeader;
    var idx := 0;
    while idx < |PinCounts|
      invariant 0 <= idx <= |PinCounts|
      invariant out == LibraryHeader + Table(SymbolAt, 2 * idx)
    {
      out := AddPair(idx, out);
      idx := idx + 1;
    }
  }

  /** One pass of main's loop: onerow then tworow of the idx-th count. */
  method AddPair(idx: nat, out: seq<Node>) returns (out': seq<Node>)
    requires idx < |PinCounts| && out == LibraryHeader + Table(SymbolAt, 2 * idx)
    ensures out' == LibraryHeader + Table(SymbolAt, 2 * idx + 2)
  {
    var pincount := PinCounts[idx];
    var one := OneRow(pincount);
    var two := TwoRow(pincount);
    assert (2 * idx) % 2 == 0 && (2 * idx) / 2 == idx;
    assert (2 * idx + 1) % 2 == 1 && (2 * idx + 1) / 2 == idx;
    assert List(one) == SymbolAt(2 * idx);
    assert List(two) == SymbolAt(2 * idx + 1);
    TableStep(SymbolAt, 2 * idx);
    TableStep(SymbolAt, 2 * idx + 1);
    out' := out + [List(one)];
    out' := out' + [List(two)];
  }

  /** sexp.generate of the library: the text main writes or compares. */
  function LibraryText(): string
  {
    Generate(LibraryOf(), 0)
  }

  /** The counts rise strictly: 1 .. 25 one by one, then 32, 36, 40. */
  lemma PinCountsRise(i: nat, k: nat)
    requires i < k < |PinCounts|
    ensures |PinCounts| == 28 && 1 <= PinCount(i) < PinCount(k) <= 40
    ensures i < 25 ==> PinCount(i) == i + 1
  {
    assert PinCounts[i] == (if i < 25 then i + 1 else 32 + 4 * (i - 25));
    assert PinCounts[k] == (if k < 25 then k + 1 else 32 + 4 * (k - 25));
  }

  /** After the three header items come onerow(c) and tworow(c) for each
      count c in turn. */
  lemma LibraryLayout(i: nat)
    requires i < |PinCounts|
    ensures var lib := LibraryOf();
            |lib| == 3 + 2 * |PinCounts|
            && lib[3 + 2 * i] == List(OneRowOf(PinCount(i)))
            && lib[4 + 2 * i] == List(TwoRowOf(PinCount(i)))
  {
    assert LibraryOf()[3 + 2 * i] == List(OneRowOf(PinCount(i))) by {
      LibraryAt(2 * i);
      assert (2 * i) % 2 == 0 && (2 * i) / 2 == i;
    }
    assert LibraryOf()[4 + 2 * i] == List(TwoRowOf(PinCount(i))) by {
      LibraryAt(2 * i + 1);
      assert (2 * i + 1) % 2 == 1 && (2 * i + 1) / 2 == i;
    }
  }

  lemma LibraryAt(j: nat)
    requires j < 2 * |PinCounts|
    ensures |LibraryOf()| == 3 + 2 * |PinCounts| && LibraryOf()[3 + j] == SymbolAt(j)
  {
    TableIndex(SymbolAt, 2 * |PinCounts|, j);
    assert LibraryOf()[3 + j] == Table(SymbolAt, 2 * |PinCounts|)[j];
  }

  /** The library's symbols are named CONN_01x.. and CONN_02x.. after their
      counts, so no two share a name. */
  lemma LibraryNamesDistinct(i: nat, k: nat)
    requires i < k < |PinCounts|
    ensures OneRowName(PinCount(i)) != OneRowName(PinCount(k))
    ensures TwoRowName(PinCount(i)) != TwoRowName(PinCount(k))
    ensures OneRowName(PinCount(i)) != TwoRowName(PinCount(k)) && TwoRowName(PinCount(i)) != OneRowName(PinCount(k))
  {
    PinCountsRise(i, k);
    NamesDistinct(PinCount(i), PinCount(k));
    NamesDistinct(PinCount(k), PinCount(i));
  }
}
