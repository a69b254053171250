/**
 * scripts/build_lib_ic.py: a legacy symbol library entry for a black-box IC,
 * a box with pin groups down its left and right sides, and its
 * documentation entry. The arithmetic keeps every pin end on the 100-mil
 * grid that the library checker demands.
 */
module BuildLibIc {
  import opened Py
  import LibText
  import CheckLib

  /** A pin name or number as YAML gives it: a str or an int. */
  datatype Label = Text(s: string) | Number(n: int)

  /** "{}".format(label), which is also str(label). */
  function Show(l: Label): string
  {
    match l
    case Text(s) => s
    case Number(n) => IntText(n)
  }

  /** One entry of a pin group: (name, number, electrical type). */
  datatype PinSpec = PinSpec(name: Label, num: Label, kind: string)

  type Group = seq<PinSpec>

  /** The groups of one side, top to bottom. */
  type Side = seq<Group>

  /** The keys of a symbol's YAML file; absent optional keys are None. */
  datatype Conf = Conf(name: string, designator: Option<string>, footprint: Option<string>,
                       datasheet: Option<string>, orderCodes: seq<(string, string)>,
                       description: Option<string>, pins: seq<Side>)

  /** pin_types: electrical type to the one-letter code of the pin line. */
  const PinTypes: map<string, string> :=
    map["in" := "I", "out" := "O", "bidi" := "B", "tri" := "T", "passive" := "P", "unspec" := "U",
        "pwrin" := "W", "pwrout" := "w", "oc" := "C", "od" := "C", "oe" := "E", "os" := "E", "nc" := "N"]

  /** Every code is one letter. */
  predicate CodesAreLetters(types: map<string, string>)
  {
    forall t :: t in types ==> |types[t]| == 1 && ('A' <= types[t][0] <= 'Z' || 'a' <= types[t][0] <= 'z')
  }

  lemma PinTypeCodes()
    ensures CodesAreLetters(PinTypes)
    ensures "od" in PinTypes && "os" in PinTypes && PinTypes["od"] == PinTypes["oc"] && PinTypes["os"] == PinTypes["oe"]
  {
  }

  // ---------------------------------------------------------------------------
  // geometry

  function Max(a: int, b: int): int { if a >= b then a else b }

  /** max(f(x) for x in xs): ValueError when there is no item; the items are
      evaluated in order, so the first one that raises decides. */
  function MaxOver<T>(xs: seq<T>, f: T -> Outcome<nat>): (r: Outcome<nat>)
    ensures r.Ok? <==> |xs| > 0 && forall k :: 0 <= k < |xs| ==> f(xs[k]).Ok?
    ensures r.Ok? ==> (forall k :: 0 <= k < |xs| ==> f(xs[k]).value <= r.value)
                      && exists k :: 0 <= k < |xs| && f(xs[k]).value == r.value
    ensures |xs| == 0 ==> r == Raise(ValueError)
    decreases |xs|
  {
    if |xs| == 0 then Raise(ValueError)
    else
      var a :- f(xs[0]);
      if |xs| == 1 then Ok(a)
      else
        var b :- MaxOver(xs[1..], f);
        assert forall k :: 1 <= k < |xs| ==> xs[k] == xs[1..][k - 1];
        Ok(Max(a, b))
  }

  /** The nested max over sides, groups and pins of a per-pin measure. */
  function Longest(sides: seq<Side>, m: PinSpec -> Outcome<nat>): Outcome<nat>
  {
    MaxOver(sides, (s: Side) => MaxOver(s, (g: Group) => MaxOver(g, m)))
  }

  /** len(pin[0]): an int name has no length. */
  function NameLen(p: PinSpec): Outcome<nat>
  {
    if p.name.Text? then Ok(|p.name.s|) else Raise(TypeError)
  }

  /** len(str(pin[1])). */
  function NumLen(p: PinSpec): Outcome<nat>
  {
    Ok(|Show(p.num)|)
  }

  /** Whether every side and every group has a pin, so that each max sees
      at least one item. */
  predicate Populated(sides: seq<Side>)
  {
    |sides| > 0 && forall i :: 0 <= i < |sides| ==> |sides[i]| > 0 && forall j :: 0 <= j < |sides[i]| ==> |sides[i][j]| > 0
  }

  /** Group and side maxima exist exactly when every side and group has a
      pin; a measure that can raise needs that too. */
  lemma {:induction false} LongestDefined(sides: seq<Side>, m: PinSpec -> Outcome<nat>)
    ensures Longest(sides, m).Ok? ==> Populated(sides)
  {
    var f := (g: Group) => MaxOver(g, m);
    var h := (s: Side) => MaxOver(s, f);
    assert Longest(sides, m) == MaxOver(sides, h);
  }

  /** Numbers can always be measured, so once the names are, the numbers are. */
  lemma NumbersMeasured(sides: seq<Side>)
    ensures Longest(sides, NameLen).Ok? ==> Longest(sides, NumLen).Ok?
  {
    LongestDefined(sides, NameLen);
    var f := (g: Group) => MaxOver(g, NumLen);
    var h := (s: Side) => MaxOver(s, f);
    assert Longest(sides, NumLen) == MaxOver(sides, h);
  }

  /** The number of pins on a side. */
  function PinCount(side: Side): (n: nat)
  {
    if |side| == 0 then 0 else |side[0]| + PinCount(side[1..])
  }

  /** What geometry returns. */
  datatype Shape = Shape(width: int, height: int, length: int, leftGroups: nat)

  /** 2 * (longest name + 1) * 50, rounded up to a multiple of 200. */
  function NameWidth(longestName: nat): (w: int)
    ensures w % 200 == 0 && 100 * (longestName + 1) <= w <= 100 * (longestName + 1) + 100
  {
    var k := longestName + 1;
    var w := 2 * (longestName + 1) * 50;
    assert w == 100 * k;
    assert k == 2 * (k / 2) + k % 2;
    assert w % 200 == 100 * (k % 2);
    w + w % 200
  }

  /** 100 * rows, raised by 100 when that is an even multiple of 100. */
  function OddHeight(rows: int): (h: int)
    ensures h % 200 == 100 && 100 * rows <= h <= 100 * rows + 100
  {
    var h := 100 * rows;
    assert h / 100 == rows;
    if (h / 100) % 2 == 0 then h + 100 else h
  }

  /** Pins long enough for the longest number at 50 per character. */
  function PinLength(longestNum: nat): (l: int)
    ensures l >= 100 && l >= 50 * longestNum && l % 50 == 0 && (l == 100 || l == 50 * longestNum)
  {
    Max(100, longestNum * 50)
  }

  /** The width grows by 100 when the pins are an odd number of 50s long, so
      that the pin ends stay on the grid. */
  function Widened(width: int, length: int): (w: int)
    requires width % 200 == 0 && length % 50 == 0
    ensures w - width == (if length % 100 == 0 then 0 else 100)
    ensures w % 100 == 0 && (w % 200 == 0 <==> length % 100 == 0) && (w / 2 + length) % 100 == 0
  {
    var q, m := width / 200, length / 100;
    assert width == 200 * q;
    assert length == 100 * m + length % 100;
    assert length % 100 == 0 || length % 100 == 50;
    if length % 100 != 0 then
      assert length == 100 * m + 50;
      assert (width + 100) / 2 == 100 * q + 50;
      width + 100
    else
      assert width / 2 == 100 * q;
      width
  }

  /** The body of geometry once the longest name and number are known.
      Python's `//` and `%` by a positive number agree with Dafny's. */
  function Dimensions(longestName: nat, longestNum: nat, left: Side, right: Side): (s: Shape)
    // the height is an odd multiple of 100, the least one covering the rows of either side
    ensures var rows := Max(PinCount(left) + |left| - 1, PinCount(right) + |right| - 1);
            100 * rows <= s.height <= 100 * rows + 100
    ensures s.length == Max(100, 50 * longestNum)
    // the box is at least twice as wide as the longest name needs
    ensures 100 * (longestName + 1) <= s.width <= 100 * (longestName + 1) + 200
    // the name width, widened by 100 exactly when the pins are an odd number of 50s long
    ensures s.width == NameWidth(longestName) + (if s.length % 100 == 0 then 0 else 100)
    // a multiple of 200 exactly when the length is a whole multiple of 100, so
    // that the pin ends land on the grid
    ensures s.width % 200 == 0 <==> s.length % 100 == 0
    ensures OnGridShape(s)
    ensures s.leftGroups == |left|
  {
    var width := NameWidth(longestName);
    var height := OddHeight(Max(PinCount(left) + |left| - 1, PinCount(right) + |right| - 1));
    var length := PinLength(longestNum);
    var width := Widened(width, length);
    Shape(width, height, length, |left|)
  }

  /** The facts about a shape that put the pins on the grid. */
  predicate OnGridShape(s: Shape)
  {
    s.width % 100 == 0 && s.height % 200 == 100 && (s.width / 2 + s.length) % 100 == 0
  }

  /** geometry: the longest name is measured over every side before the
      check that there are exactly two. */
  function Geometry(sides: seq<Side>): (r: Outcome<Shape>)
    ensures Longest(sides, NameLen).Raise? ==> r == Raise(Longest(sides, NameLen).exc)
    ensures Longest(sides, NameLen).Ok? && |sides| != 2 ==> r == Raise(RuntimeError)
    ensures r.Ok? <==> |sides| == 2 && Longest(sides, NameLen).Ok?
    ensures r.Ok? ==> Longest(sides, NumLen).Ok?
                      && r.value == Dimensions(Longest(sides, NameLen).value, Longest(sides, NumLen).value, sides[0], sides[1])
  {
    NumbersMeasured(sides);
    var longestName :- Longest(sides, NameLen);
    if |sides| != 2 then Raise(RuntimeError)
    else
      // the numbers are measured over the same pins and cannot raise
      Ok(Dimensions(longestName, Longest(sides, NumLen).value, sides[0], sides[1]))
  }

  // ---------------------------------------------------------------------------
  // draw_pins

  /** The "X" line of one pin: name, number, position, length, direction,
      number and name text sizes of 50, unit 0, convert 0, type code. */
  function PinLine(p: PinSpec, x: int, y: int, direction: string, length: int, code: string): string
  {
    JoinOn(["X", Show(p.name), Show(p.num), IntText(x), IntText(y), IntText(length), direction,
            "50", "50", "0", "0", code], ' ')
  }

  /** Lines already written in front of the lines still to come; a raise
      discards them. */
  function Prefixed(out: seq<string>, o: Outcome<seq<string>>): Outcome<seq<string>>
  {
    if o.Raise? then o else Ok(out + o.value)
  }

  /** The lines of some pins followed by the lines of more pins. */
  function Then(a: Outcome<seq<string>>, b: Outcome<seq<string>>): Outcome<seq<string>>
  {
    if a.Raise? then a else Prefixed(a.value, b)
  }

  /** The lines of one group, the first pin at y and each next one 100 lower;
      an unknown type raises KeyError. */
  function GroupRows(g: Group, x: int, y: int, direction: string, length: int, types: map<string, string>)
    : Outcome<seq<string>>
    decreases |g|
  {
    if |g| == 0 then Ok([])
    else if g[0].kind !in types then Raise(KeyError)
    else Prefixed([PinLine(g[0], x, y, direction, length, types[g[0].kind])],
                  GroupRows(g[1..], x, y - 100, direction, length, types))
  }

  /** The lines of a side: a further 100 is left after every group. */
  function SideRows(groups: Side, x: int, y: int, direction: string, length: int, types: map<string, string>)
    : Outcome<seq<string>>
    decreases |groups|
  {
    if |groups| == 0 then Ok([])
    else Then(GroupRows(groups[0], x, y, direction, length, types),
              SideRows(groups[1..], x, y - 100 * |groups[0]| - 100, direction, length, types))
  }

  lemma PrefixedEmpty(o: Outcome<seq<string>>)
    ensures Prefixed([], o) == o
  {
    if o.Ok? {
      assert [] + o.value == o.value;
    }
  }

  lemma PrefixedPrefixed(a: seq<string>, b: seq<string>, o: Outcome<seq<string>>)
    ensures Prefixed(a, Prefixed(b, o)) == Prefixed(a + b, o)
  {
    if o.Ok? {
      assert a + (b + o.value) == a + b + o.value;
    }
  }

  lemma SideRowsStep(groups: Side, gi: nat, x: int, y: int, direction: string, length: int, types: map<string, string>)
    requires gi < |groups|
    ensures SideRows(groups[gi..], x, y, direction, length, types)
            == Then(GroupRows(groups[gi], x, y, direction, length, types),
                    SideRows(groups[gi + 1..], x, y - 100 * |groups[gi]| - 100, direction, length, types))
  {
    assert groups[gi..][1..] == groups[gi + 1..];
  }

  lemma ThenPrefixed(out: seq<string>, a: Outcome<seq<string>>, b: Outcome<seq<string>>)
    requires a.Ok?
    ensures Prefixed(out, Then(a, b)) == Prefixed(Prefixed(out, a).value, b)
  {
    PrefixedPrefixed(out, a.value, b);
  }

  /** The inner loop of draw_pins over one group, appending to the lines
      written so far: pin_y drops 100 per pin. */
  method DrawGroup(group: Group, x0: int, top: int, direction: string, length: int, types: map<string, string>,
                   written: seq<string>)
    returns (r: Outcome<seq<string>>, pinY: int)
    ensures r == Prefixed(written, GroupRows(group, x0, top, direction, length, types))
    ensures r.Ok? ==> pinY == top - 100 * |group|
  {
    var out := written;
    pinY := top;
    var pi := 0;
    assert group[0..] == group;
    while pi < |group|
      invariant 0 <= pi <= |group|
      invariant pinY == top - 100 * pi
      invariant Prefixed(written, GroupRows(group, x0, top, direction, length, types))
                == Prefixed(out, GroupRows(group[pi..], x0, pinY, direction, length, types))
    {
      var pin := group[pi];
      assert group[pi..][1..] == group[pi + 1..];
      if pin.kind !in types {
        return Raise(KeyError), pinY;
      }
      var line := PinLine(pin, x0, pinY, direction, length, types[pin.kind]);
      PrefixedPrefixed(out, [line], GroupRows(group[pi + 1..], x0, pinY - 100, direction, length, types));
      out := out + [line];
      pinY := pinY - 100;
      pi := pi + 1;
    }
    assert group[|group|..] == [];
    assert out + [] == out;
    return Ok(out), pinY;
  }

  /** draw_pins: one line per pin in group order, pin_y dropping 100 per pin
      and another 100 after each group. */
  method DrawPins(groups: Side, x0: int, y0: int, direction: string, length: int, types: map<string, string>)
    returns (r: Outcome<seq<string>>)
    ensures r == SideRows(groups, x0, y0, direction, length, types)
  {
    var out: seq<string> := [];
    var pinY := y0;
    var gi := 0;
    assert groups[0..] == groups;
    PrefixedEmpty(SideRows(groups, x0, y0, direction, length, types));
    while gi < |groups|
      invariant 0 <= gi <= |groups|
      invariant SideRows(groups, x0, y0, direction, length, types)
                == Prefixed(out, SideRows(groups[gi..], x0, pinY, direction, length, types))
    {
      SideRowsStep(groups, gi, x0, pinY, direction, length, types);
      var drawn, y := DrawGroup(groups[gi], x0, pinY, direction, length, types, out);
      if drawn.Raise? {
        return drawn;
      }
      ThenPrefixed(out, GroupRows(groups[gi], x0, pinY, direction, length, types),
                   SideRows(groups[gi + 1..], x0, y - 100, direction, length, types));
      out := drawn.value;
      pinY := y - 100;
      gi := gi + 1;
    }
    assert groups[|groups|..] == [];
    assert out + [] == out;
    return Ok(out);
  }

  /** Every pin of a side in group order. */
  function Flatten(groups: Side): (r: seq<PinSpec>)
    ensures |r| == PinCount(groups)
  {
    if |groups| == 0 then [] else groups[0] + Flatten(groups[1..])
  }

  /** Where each pin of a side goes: its y position, in group order. */
  function Placed(groups: Side, y: int): (r: seq<(PinSpec, int)>)
    decreases |groups|
  {
    if |groups| == 0 then []
    else GroupPlaced(groups[0], y) + Placed(groups[1..], y - 100 * |groups[0]| - 100)
  }

  /** The pins of one group, the first at y and each next one 100 lower. */
  function GroupPlaced(g: Group, y: int): seq<(PinSpec, int)>
  {
    seq(|g|, k requires 0 <= k < |g| => (g[k], y - 100 * k))
  }

  /** The pins keep their group order and all sit on the rows of y's grid,
      each strictly below the one before. */
  lemma {:induction false} PlacedLayout(groups: Side, y: int)
    ensures var ps := Placed(groups, y);
            |ps| == |Flatten(groups)|
            && (forall k :: 0 <= k < |ps| ==> ps[k].0 == Flatten(groups)[k] && ps[k].1 % 100 == y % 100 && ps[k].1 <= y - 100 * k)
            && (forall k :: 0 < k < |ps| ==> ps[k].1 < ps[k - 1].1)
    decreases |groups|
  {
    if |groups| > 0 {
      var y1 := y - 100 * |groups[0]| - 100;
      PlacedLayout(groups[1..], y1);
      var head := GroupPlaced(groups[0], y);
      var tail := Placed(groups[1..], y1);
      var ps := head + tail;
      var n := |groups[0]|;
      assert y1 % 100 == y % 100;
      forall k | 0 <= k < n ensures ps[k].1 % 100 == y % 100 {
        assert ps[k].1 == y - 100 * k;
      }
      forall k | n <= k < |ps|
        ensures ps[k].0 == Flatten(groups)[k] && ps[k].1 % 100 == y % 100 && ps[k].1 <= y - 100 * k
      {
        assert ps[k] == tail[k - n];
      }
    }
  }

  /** The lines of a side are one line per placed pin, and every type is known. */
  lemma {:induction false} GroupRowsPlaced(g: Group, x: int, y: int, direction: string, length: int, types: map<string, string>)
    requires GroupRows(g, x, y, direction, length, types).Ok?
    ensures var rows := GroupRows(g, x, y, direction, length, types).value;
            |rows| == |g|
            && forall k :: 0 <= k < |g| ==> g[k].kind in types && rows[k] == PinLine(g[k], x, y - 100 * k, direction, length, types[g[k].kind])
    decreases |g|
  {
    if |g| > 0 {
      GroupRowsPlaced(g[1..], x, y - 100, direction, length, types);
      var rows := GroupRows(g, x, y, direction, length, types).value;
      forall k | 1 <= k < |g|
        ensures g[k].kind in types && rows[k] == PinLine(g[k], x, y - 100 * k, direction, length, types[g[k].kind])
      {
        assert g[k] == g[1..][k - 1];
        assert y - 100 - 100 * (k - 1) == y - 100 * k;
      }
    }
  }

  /** Each line of a side is the line of the pin placed there, at column x. */
  predicate RowsAt(rows: seq<string>, ps: seq<(PinSpec, int)>, x: int, direction: string, length: int,
                   types: map<string, string>)
  {
    |rows| == |ps|
    && forall k :: 0 <= k < |ps| ==> (ps[k].0.kind in types
                                     && rows[k] == PinLine(ps[k].0, x, ps[k].1, direction, length, types[ps[k].0.kind]))
  }

  lemma {:induction false} SideRowsPlaced(groups: Side, x: int, y: int, direction: string, length: int, types: map<string, string>)
    requires SideRows(groups, x, y, direction, length, types).Ok?
    ensures RowsAt(SideRows(groups, x, y, direction, length, types).value, Placed(groups, y), x, direction, length, types)
    decreases |groups|
  {
    if |groups| > 0 {
      var y1 := y - 100 * |groups[0]| - 100;
      var head := GroupPlaced(groups[0], y);
      GroupRowsAt(groups[0], x, y, direction, length, types);
      SideRowsPlaced(groups[1..], x, y1, direction, length, types);
      var a := GroupRows(groups[0], x, y, direction, length, types).value;
      var b := SideRows(groups[1..], x, y1, direction, length, types).value;
      assert SideRows(groups, x, y, direction, length, types).value == a + b;
      RowsAtConcat(a, b, head, Placed(groups[1..], y1), x, direction, length, types);
    }
  }

  /** The lines of one group are the lines of its placed pins. */
  lemma GroupRowsAt(g: Group, x: int, y: int, direction: string, length: int, types: map<string, string>)
    requires GroupRows(g, x, y, direction, length, types).Ok?
    ensures RowsAt(GroupRows(g, x, y, direction, length, types).value, GroupPlaced(g, y), x, direction, length, types)
  {
    GroupRowsPlaced(g, x, y, direction, length, types);
  }

  lemma RowsAtConcat(a: seq<string>, b: seq<string>, pa: seq<(PinSpec, int)>, pb: seq<(PinSpec, int)>,
                     x: int, direction: string, length: int, types: map<string, string>)
    requires RowsAt(a, pa, x, direction, length, types) && RowsAt(b, pb, x, direction, length, types)
    ensures RowsAt(a + b, pa + pb, x, direction, length, types)
  {
    forall k | |pa| <= k < |pa| + |pb|
      ensures (pa + pb)[k] == pb[k - |pa|] && (a + b)[k] == b[k - |pa|]
    {
    }
  }

  // ---------------------------------------------------------------------------
  // draw

  /** The box line: the corners (-w/2, h/2) and (w/2, -h/2), unit 0, convert
      1, pen 0, filled with the background colour. */
  function BoxLine(s: Shape): string
  {
    JoinOn(["S", IntText((-s.width) / 2), IntText(s.height / 2), IntText(s.width / 2), IntText((-s.height) / 2),
            "0", "1", "0", "f"], ' ')
  }

  /** The pin column of the left side; the right side sits at its negation. */
  function LeftX(s: Shape): int { (-s.width) / 2 - s.length }

  /** The pin column of the right side, mirrored. */
  function RightX(s: Shape): int { -LeftX(s) }

  /** The row of the top pins. */
  function TopY(s: Shape): int { s.height / 2 - 50 }

  /** draw for a given shape and type table. */
  function Drawing(pins: seq<Side>, s: Shape, types: map<string, string>): Outcome<seq<string>>
    requires |pins| >= 2
  {
    var left :- SideRows(pins[0], LeftX(s), TopY(s), "R", s.length, types);
    var right :- SideRows(pins[1], RightX(s), TopY(s), "L", s.length, types);
    Ok(["DRAW", BoxLine(s)] + left + right + ["ENDDRAW"])
  }

  method DrawWith(pins: seq<Side>, s: Shape, types: map<string, string>) returns (r: Outcome<seq<string>>)
    requires |pins| >= 2
    ensures r == Drawing(pins, s, types)
  {
    var out := ["DRAW", BoxLine(s)];
    var x0 := (-s.width) / 2 - s.length;
    var y0 := s.height / 2 - 50;
    var left := DrawPins(pins[0], x0, y0, "R", s.length, types);
    if left.Raise? {
      return Raise(left.exc);
    }
    out := out + left.value;
    var right := DrawPins(pins[1], -x0, y0, "L", s.length, types);
    if right.Raise? {
      return Raise(right.exc);
    }
    out := out + right.value;
    out := out + ["ENDDRAW"];
    return Ok(out);
  }

  function DrawLines(pins: seq<Side>): Outcome<seq<string>>
  {
    var s :- Geometry(pins);
    Drawing(pins, s, PinTypes)
  }

  method Draw(conf: Conf) returns (r: Outcome<seq<string>>)
    ensures r == DrawLines(conf.pins)
  {
    var s := Geometry(conf.pins);
    if s.Raise? {
      return Raise(s.exc);
    }
    r := DrawWith(conf.pins, s.value, PinTypes);
  }

  /** A shape the geometry arithmetic produced puts both pin columns and the
      top row on the 100-mil grid. */
  lemma GridOrigin(s: Shape)
    requires OnGridShape(s)
    ensures LeftX(s) % 100 == 0 && RightX(s) % 100 == 0 && TopY(s) % 100 == 0
  {
    var a := s.width / 100;
    assert s.width == 100 * a;
    assert s.width / 2 == 50 * a && (-s.width) / 2 == -50 * a;
    var m := (s.width / 2 + s.length) / 100;
    assert 50 * a + s.length == 100 * m;
    assert LeftX(s) == -100 * m && RightX(s) == 100 * m;
    var q := s.height / 200;
    assert s.height == 200 * q + 100;
    assert s.height / 2 == 100 * q + 50;
    assert TopY(s) == 100 * q;
  }

  /** A side whose top row is on the grid has every pin on the grid. */
  lemma SideOnGrid(groups: Side, x: int, y: int, direction: string, length: int, types: map<string, string>)
    requires y % 100 == 0
    requires SideRows(groups, x, y, direction, length, types).Ok?
    ensures RowsAt(SideRows(groups, x, y, direction, length, types).value, Placed(groups, y), x, direction, length, types)
    ensures forall k :: 0 <= k < |Placed(groups, y)| ==> Placed(groups, y)[k].1 % 100 == 0
  {
    SideRowsPlaced(groups, x, y, direction, length, types);
    PlacedLayout(groups, y);
  }

  /** The drawing of a shape the geometry produced: the box, then the left
      pins at x0 and the right pins at -x0, every one on the 100-mil grid. */
  lemma DrawingOnGrid(pins: seq<Side>, s: Shape, types: map<string, string>)
    requires |pins| >= 2 && Drawing(pins, s, types).Ok?
    requires OnGridShape(s)
    ensures LeftX(s) % 100 == 0 && RightX(s) % 100 == 0
    ensures var left := SideRows(pins[0], LeftX(s), TopY(s), "R", s.length, types);
            var right := SideRows(pins[1], RightX(s), TopY(s), "L", s.length, types);
            left.Ok? && right.Ok?
            && Drawing(pins, s, types).value == ["DRAW", BoxLine(s)] + left.value + right.value + ["ENDDRAW"]
            && RowsAt(left.value, Placed(pins[0], TopY(s)), LeftX(s), "R", s.length, types)
            && RowsAt(right.value, Placed(pins[1], TopY(s)), RightX(s), "L", s.length, types)
    ensures forall k :: 0 <= k < |Placed(pins[0], TopY(s))| ==> Placed(pins[0], TopY(s))[k].1 % 100 == 0
    ensures forall k :: 0 <= k < |Placed(pins[1], TopY(s))| ==> Placed(pins[1], TopY(s))[k].1 % 100 == 0
  {
    GridOrigin(s);
    SideOnGrid(pins[0], LeftX(s), TopY(s), "R", s.length, types);
    SideOnGrid(pins[1], RightX(s), TopY(s), "L", s.length, types);
  }

  /** draw puts every pin of build_lib_ic on the grid. */
  lemma DrawOnGrid(pins: seq<Side>)
    requires DrawLines(pins).Ok?
    ensures Geometry(pins).Ok? && |pins| == 2
    ensures OnGridShape(Geometry(pins).value)
    ensures Drawing(pins, Geometry(pins).value, PinTypes) == DrawLines(pins)
  {
  }

  /** Each line reads back as a pin that the library checker's per-pin
      rules do not report off grid. */
  predicate GridRows(rows: seq<string>, designator: string)
  {
    forall k :: 0 <= k < |rows| ==>
      var p := LibText.PinOf(rows[k]);
      p.Some? && CheckLib.PinErrors(p.value, designator).Ok?
      && LibText.OffGrid(p.value.name) !in CheckLib.PinErrors(p.value, designator).value
  }

  /** Every pin row of a drawing build_lib_ic writes, between the DRAW line
      with the box and the ENDDRAW line, reads back as a pin on the grid. */
  lemma DrawnPinsOnGrid(pins: seq<Side>, designator: string)
    requires DrawLines(pins).Ok? && LabelsWithout(pins, ' ')
    ensures var d := DrawLines(pins).value;
            |d| >= 3 && d[0] == "DRAW" && d[|d| - 1] == "ENDDRAW" && GridRows(d[2..|d| - 1], designator)
  {
    DrawOnGrid(pins);
    var s := Geometry(pins).value;
    var left := SideRows(pins[0], LeftX(s), TopY(s), "R", s.length, PinTypes);
    var right := SideRows(pins[1], RightX(s), TopY(s), "L", s.length, PinTypes);
    DrawnLeftOnGrid(pins, designator);
    DrawnRightOnGrid(pins, designator);
    var d := DrawLines(pins).value;
    assert d == ["DRAW", BoxLine(s)] + left.value + right.value + ["ENDDRAW"];
    GridConcat(left.value, right.value, designator);
    FrameInner(BoxLine(s), left.value, right.value);
  }

  /** Between the frame's first two lines and its last lie the pin rows. */
  lemma FrameInner(box: string, a: seq<string>, b: seq<string>)
    ensures var d := ["DRAW", box] + a + b + ["ENDDRAW"];
            |d| >= 3 && d[0] == "DRAW" && d[|d| - 1] == "ENDDRAW" && d[2..|d| - 1] == a + b
  {
    var d := ["DRAW", box] + a + b + ["ENDDRAW"];
    assert d == ["DRAW", box] + (a + b) + ["ENDDRAW"];
  }

  lemma GridConcat(a: seq<string>, b: seq<string>, designator: string)
    requires GridRows(a, designator) && GridRows(b, designator)
    ensures GridRows(a + b, designator)
  {
    assert forall k :: 0 <= k < |a + b| ==> (a + b)[k] == if k < |a| then a[k] else b[k - |a|];
  }

  /** The pin rows of each side of a drawing build_lib_ic writes. */
  lemma DrawnLeftOnGrid(pins: seq<Side>, designator: string)
    requires DrawLines(pins).Ok? && LabelsWithout(pins, ' ')
    ensures Geometry(pins).Ok? && |pins| == 2
    ensures var s := Geometry(pins).value;
            var side := SideRows(pins[0], LeftX(s), TopY(s), "R", s.length, PinTypes);
            side.Ok? && GridRows(side.value, designator)
  {
    DrawOnGrid(pins);
    var s := Geometry(pins).value;
    DrawingOnGrid(pins, s, PinTypes);
    PinTypeCodes();
    SideOnGridRows(pins, 0, LeftX(s), TopY(s), "R", s.length, designator);
  }

  lemma DrawnRightOnGrid(pins: seq<Side>, designator: string)
    requires DrawLines(pins).Ok? && LabelsWithout(pins, ' ')
    ensures Geometry(pins).Ok? && |pins| == 2
    ensures var s := Geometry(pins).value;
            var side := SideRows(pins[1], RightX(s), TopY(s), "L", s.length, PinTypes);
            side.Ok? && GridRows(side.value, designator)
  {
    DrawOnGrid(pins);
    var s := Geometry(pins).value;
    DrawingOnGrid(pins, s, PinTypes);
    PinTypeCodes();
    SideOnGridRows(pins, 1, RightX(s), TopY(s), "L", s.length, designator);
  }

  lemma SideOnGridRows(pins: seq<Side>, i: nat, x: int, y: int, direction: string, length: nat, designator: string)
    requires i < |pins| && LabelsWithout(pins, ' ') && CodesAreLetters(PinTypes)
    requires direction == "R" || direction == "L"
    requires x % 100 == 0
    requires SideRows(pins[i], x, y, direction, length, PinTypes).Ok?
    requires RowsAt(SideRows(pins[i], x, y, direction, length, PinTypes).value, Placed(pins[i], y), x, direction, length, PinTypes)
    requires forall j :: 0 <= j < |Placed(pins[i], y)| ==> Placed(pins[i], y)[j].1 % 100 == 0
    ensures GridRows(SideRows(pins[i], x, y, direction, length, PinTypes).value, designator)
  {
    var rows := SideRows(pins[i], x, y, direction, length, PinTypes).value;
    forall k | 0 <= k < |rows|
      ensures var p := LibText.PinOf(rows[k]);
              p.Some? && CheckLib.PinErrors(p.value, designator).Ok?
              && LibText.OffGrid(p.value.name) !in CheckLib.PinErrors(p.value, designator).value
    {
      SideRowOnGrid(pins, i, x, y, direction, length, k, designator);
    }
  }

  lemma SideRowOnGrid(pins: seq<Side>, i: nat, x: int, y: int, direction: string, length: nat, k: nat, designator: string)
    requires i < |pins| && LabelsWithout(pins, ' ') && CodesAreLetters(PinTypes)
    requires direction == "R" || direction == "L"
    requires x % 100 == 0
    requires SideRows(pins[i], x, y, direction, length, PinTypes).Ok?
    requires RowsAt(SideRows(pins[i], x, y, direction, length, PinTypes).value, Placed(pins[i], y), x, direction, length, PinTypes)
    requires forall j :: 0 <= j < |Placed(pins[i], y)| ==> Placed(pins[i], y)[j].1 % 100 == 0
    requires k < |SideRows(pins[i], x, y, direction, length, PinTypes).value|
    ensures var p := LibText.PinOf(SideRows(pins[i], x, y, direction, length, PinTypes).value[k]);
            p.Some? && CheckLib.PinErrors(p.value, designator).Ok?
            && LibText.OffGrid(p.value.name) !in CheckLib.PinErrors(p.value, designator).value
  {
    var ps := Placed(pins[i], y);
    PlacedLayout(pins[i], y);
    var spec := ps[k].0;
    assert spec == Flatten(pins[i])[k];
    var code := PinTypes[spec.kind];
    assert ' ' !in code by {
      assert |code| == 1 && code[0] != ' ';
    }
    PinLineParses(spec, x, ps[k].1, direction, length, code);
    PinChecked(Show(spec.name), Show(spec.num), x, ps[k].1, length, designator);
  }

  // ---------------------------------------------------------------------------
  // fields

  /** A value between double quotes. */
  function Quoted(v: string): string { "\"" + v + "\"" }

  /** A field line: tag, quoted value, position, size 50, horizontal, shown
      ("V") or hidden ("I"), left justified, centred, not bold or italic. */
  function FieldLine(tag: string, value: string, x: int, y: int, visible: string): string
  {
    JoinOn([tag, Quoted(value), IntText(x), IntText(y), "50", "H", visible, "L", "CNN"], ' ')
  }

  /** The tag of the k-th field. */
  function FieldTag(k: nat): string { "F" + NatText(k) }

  /** The line of the idx-th (supplier, code) pair: tag F{idx+4}, hidden,
      with the supplier quoted at the end. */
  function OrderCodeLine(idx: nat, code: (string, string), x: int, fieldY: int): string
  {
    JoinOn([FieldTag(idx + 4), Quoted(code.1), IntText(x), IntText(-fieldY - (300 + idx * 100)),
            "50", "H", "I", "L", "CNN", Quoted(code.0)], ' ')
  }

  /** The lines of the order codes, in the order given. */
  function CodeLines(codes: seq<(string, string)>, fieldX: int, fieldY: int): (r: seq<string>)
  {
    seq(|codes|, i requires 0 <= i < |codes| => OrderCodeLine(i, codes[i], fieldX, fieldY))
  }

  /** The four fields every symbol has: designator (default IC), name,
      footprint and datasheet (empty when absent). */
  function FixedFields(conf: Conf, fieldX: int, fieldY: int): seq<string>
  {
    [FieldLine("F0", if conf.designator.Some? then conf.designator.value else "IC", fieldX, fieldY, "V"),
     FieldLine("F1", conf.name, fieldX, -fieldY, "V"),
     FieldLine("F2", if conf.footprint.Some? then conf.footprint.value else "", fieldX, -fieldY - 100, "I"),
     FieldLine("F3", if conf.datasheet.Some? then conf.datasheet.value else "", fieldX, -fieldY - 200, "I")]
  }

  /** fields for a given shape. */
  function FieldsAt(conf: Conf, s: Shape): seq<string>
  {
    var fieldX, fieldY := (-s.width) / 2, s.height / 2 + 50;
    FixedFields(conf, fieldX, fieldY) + CodeLines(conf.orderCodes, fieldX, fieldY)
  }

  /** The order-code loop of fields. */
  method AddOrderCodes(codes: seq<(string, string)>, fieldX: int, fieldY: int, written: seq<string>)
    returns (out: seq<string>)
    ensures out == written + CodeLines(codes, fieldX, fieldY)
  {
    out := written;
    var idx := 0;
    while idx < |codes|
      invariant 0 <= idx <= |codes|
      invariant out == written + CodeLines(codes[..idx], fieldX, fieldY)
    {
      assert CodeLines(codes[..idx + 1], fieldX, fieldY)
             == CodeLines(codes[..idx], fieldX, fieldY) + [OrderCodeLine(idx, codes[idx], fieldX, fieldY)];
      out := out + [OrderCodeLine(idx, codes[idx], fieldX, fieldY)];
      idx := idx + 1;
    }
    assert codes[..idx] == codes;
  }

  method FieldsWith(conf: Conf, s: Shape) returns (out: seq<string>)
    ensures out == FieldsAt(conf, s)
  {
    var fieldX := (-s.width) / 2;
    var fieldY := s.height / 2 + 50;
    // an absent footprint or datasheet gives the same line with an empty value
    var designator := if conf.designator.Some? then conf.designator.value else "IC";
    var footprint := if conf.footprint.Some? then conf.footprint.value else "";
    var datasheet := if conf.datasheet.Some? then conf.datasheet.value else "";
    out := [FieldLine("F0", designator, fieldX, fieldY, "V"), FieldLine("F1", conf.name, fieldX, -fieldY, "V"),
            FieldLine("F2", footprint, fieldX, -fieldY - 100, "I"), FieldLine("F3", datasheet, fieldX, -fieldY - 200, "I")];
    assert out == FixedFields(conf, fieldX, fieldY);
    out := AddOrderCodes(conf.orderCodes, fieldX, fieldY, out);
  }

  function FieldLines(conf: Conf): Outcome<seq<string>>
  {
    var s :- Geometry(conf.pins);
    Ok(FieldsAt(conf, s))
  }

  method Fields(conf: Conf) returns (r: Outcome<seq<string>>)
    ensures r == FieldLines(conf)
  {
    var s := Geometry(conf.pins);
    if s.Raise? {
      return Raise(s.exc);
    }
    var out := FieldsWith(conf, s.value);
    return Ok(out);
  }

  /** The values that end up inside field lines are free of spaces. */
  predicate SpaceFreeFields(conf: Conf)
  {
    (conf.designator.Some? ==> ' ' !in conf.designator.value) && ' ' !in conf.name
    && (conf.footprint.Some? ==> ' ' !in conf.footprint.value) && (conf.datasheet.Some? ==> ' ' !in conf.datasheet.value)
    && forall i :: 0 <= i < |conf.orderCodes| ==> ' ' !in conf.orderCodes[i].0 && ' ' !in conf.orderCodes[i].1
  }

  /** The split pieces satisfy the field pattern. */
  lemma FieldPieces(p: seq<string>, tag: string)
    requires |p| >= 9 && p[0] == tag && LibText.CoordChars(p[2]) && LibText.CoordChars(p[3])
    requires p[4] == "50" && p[5] == "H" && (p[6] == "V" || p[6] == "I") && p[7] == "L" && p[8] == "CNN"
    ensures SplitOn(JoinOn(p, ' '), ' ') == p ==>
              LibText.FieldOf([tag], JoinOn(p, ' ')) == Some(LibText.Field(p[1], p[2], p[3], "50", 'H', p[6][0], 'L', "C"))
  {
    assert AllDigits("50");
    assert LibText.ClassPrefix("NN", LibText.IsVJust, 2) == "";
    assert LibText.ClassPrefix("CNN", LibText.IsVJust, 3) == "C";
  }

  /** A generated field line parses back as horizontal, size 50, left
      justified and vertically centred, at its own position. */
  lemma FieldLineParses(tag: string, value: string, x: int, y: int, visible: string)
    requires ' ' !in tag && ' ' !in value && (visible == "V" || visible == "I")
    ensures LibText.FieldOf([tag], FieldLine(tag, value, x, y, visible))
            == Some(LibText.Field(Quoted(value), IntText(x), IntText(y), "50", 'H', visible[0], 'L', "C"))
  {
    IntTextChars(x);
    IntTextChars(y);
    var p := [tag, Quoted(value), IntText(x), IntText(y), "50", "H", visible, "L", "CNN"];
    assert ' ' !in Quoted(value);
    JoinSplit(p, ' ');
    FieldPieces(p, tag);
  }

  /** The same for an order-code line, whose supplier follows as a tenth piece. */
  lemma OrderCodeParses(idx: nat, code: (string, string), x: int, fieldY: int)
    requires ' ' !in code.0 && ' ' !in code.1
    ensures LibText.FieldOf([FieldTag(idx + 4)], OrderCodeLine(idx, code, x, fieldY))
            == Some(LibText.Field(Quoted(code.1), IntText(x), IntText(-fieldY - (300 + idx * 100)), "50", 'H', 'I', 'L', "C"))
  {
    var y := -fieldY - (300 + idx * 100);
    IntTextChars(x);
    IntTextChars(y);
    var p := [FieldTag(idx + 4), Quoted(code.1), IntText(x), IntText(y), "50", "H", "I", "L", "CNN", Quoted(code.0)];
    assert ' ' !in Quoted(code.0) && ' ' !in Quoted(code.1) && ' ' !in FieldTag(idx + 4);
    SpaceFreeTen(p);
    JoinSplit(p, ' ');
    FieldPieces(p, FieldTag(idx + 4));
  }

  lemma SpaceFreeTen(p: seq<string>)
    requires |p| == 10 && ' ' !in p[0] && ' ' !in p[1] && ' ' !in p[2] && ' ' !in p[3] && ' ' !in p[4]
    requires ' ' !in p[5] && ' ' !in p[6] && ' ' !in p[7] && ' ' !in p[8] && ' ' !in p[9]
    ensures forall k :: 0 <= k < |p| ==> ' ' !in p[k]
  {
    forall k | 0 <= k < |p|
      ensures ' ' !in p[k]
    {
      if k < 5 { assert k == 0 || k == 1 || k == 2 || k == 3 || k == 4; }
      else { assert k == 5 || k == 6 || k == 7 || k == 8 || k == 9; }
    }
  }

  /** What the library checker's field rules make of a parsed generated field. */
  lemma GeneratedFieldPasses(fn: string, value: string, x: int, y: int, visible: char, contents: string)
    requires (fn == "reference" || fn == "name") <==> visible == 'V'
    requires visible == 'V' || visible == 'I'
    ensures CheckLib.FieldErrors(fn, LibText.Field(value, IntText(x), IntText(y), "50", 'H', visible, 'L', "C"), contents) == []
  {
  }

  /** The line parses as a field with the tag whose y reads as the given
      height, and the library checker's rules for the field kind find
      nothing wrong with it. */
  predicate FieldPasses(tag: string, kind: string, line: string, y: int, contents: string)
  {
    var f := LibText.FieldOf([tag], line);
    f.Some? && ParseInt(f.value.y) == Ok(y) && CheckLib.FieldErrors(kind, f.value, contents) == []
  }

  /** Every field line of a generated symbol carries the tag of its place,
      sits at its own y, and passes the library checker's field rules. */
  lemma FieldsPass(conf: Conf, fieldX: int, fieldY: int, contents: string)
    requires SpaceFreeFields(conf)
    ensures var fixed := FixedFields(conf, fieldX, fieldY);
            |fixed| == 4
            && FieldPasses("F0", "reference", fixed[0], fieldY, contents)
            && FieldPasses("F1", "name", fixed[1], -fieldY, contents)
            && FieldPasses("F2", "footprint", fixed[2], -fieldY - 100, contents)
            && FieldPasses("F3", "datasheet", fixed[3], -fieldY - 200, contents)
    ensures var codes := CodeLines(conf.orderCodes, fieldX, fieldY);
            |codes| == |conf.orderCodes|
            && forall i :: 0 <= i < |codes| ==>
                 FieldPasses(FieldTag(i + 4), "order code", codes[i], -fieldY - (300 + i * 100), contents)
  {
    FixedField0(conf, fieldX, fieldY, contents);
    FixedField1(conf, fieldX, fieldY, contents);
    FixedField2(conf, fieldX, fieldY, contents);
    FixedField3(conf, fieldX, fieldY, contents);
    var codes := CodeLines(conf.orderCodes, fieldX, fieldY);
    forall i | 0 <= i < |codes|
      ensures FieldPasses(FieldTag(i + 4), "order code", codes[i], -fieldY - (300 + i * 100), contents)
    {
      OrderCodePasses(i, conf.orderCodes[i], fieldX, fieldY, contents);
    }
  }

  lemma OrderCodePasses(i: nat, code: (string, string), fieldX: int, fieldY: int, contents: string)
    requires ' ' !in code.0 && ' ' !in code.1
    ensures FieldPasses(FieldTag(i + 4), "order code", OrderCodeLine(i, code, fieldX, fieldY), -fieldY - (300 + i * 100), contents)
  {
    OrderCodeParses(i, code, fieldX, fieldY);
    ParseIntText(-fieldY - (300 + i * 100));
    GeneratedFieldPasses("order code", Quoted(code.1), fieldX, -fieldY - (300 + i * 100), 'I', contents);
  }

  lemma FixedFieldCase(tag: string, value: string, x: int, y: int, visible: string, fn: string, contents: string)
    requires ' ' !in tag && ' ' !in value && (visible == "V" || visible == "I")
    requires (fn == "reference" || fn == "name") <==> visible == "V"
    ensures FieldPasses(tag, fn, FieldLine(tag, value, x, y, visible), y, contents)
  {
    FieldLineParses(tag, value, x, y, visible);
    ParseIntText(y);
    GeneratedFieldPasses(fn, Quoted(value), x, y, visible[0], contents);
  }

  lemma FixedField0(conf: Conf, fieldX: int, fieldY: int, contents: string)
    requires SpaceFreeFields(conf)
    ensures FieldPasses("F0", "reference", FixedFields(conf, fieldX, fieldY)[0], fieldY, contents)
  {
    FixedFieldCase("F0", (if conf.designator.Some? then conf.designator.value else "IC"), fieldX, fieldY, "V", "reference", contents);
  }

  lemma FixedField1(conf: Conf, fieldX: int, fieldY: int, contents: string)
    requires SpaceFreeFields(conf)
    ensures FieldPasses("F1", "name", FixedFields(conf, fieldX, fieldY)[1], -fieldY, contents)
  {
    FixedFieldCase("F1", conf.name, fieldX, -fieldY, "V", "name", contents);
  }

  lemma FixedField2(conf: Conf, fieldX: int, fieldY: int, contents: string)
    requires SpaceFreeFields(conf)
    ensures FieldPasses("F2", "footprint", FixedFields(conf, fieldX, fieldY)[2], -fieldY - 100, contents)
  {
    FixedFieldCase("F2", (if conf.footprint.Some? then conf.footprint.value else ""), fieldX, -fieldY - 100, "I", "footprint", contents);
  }

  lemma FixedField3(conf: Conf, fieldX: int, fieldY: int, contents: string)
    requires SpaceFreeFields(conf)
    ensures FieldPasses("F3", "datasheet", FixedFields(conf, fieldX, fieldY)[3], -fieldY - 200, contents)
  {
    FixedFieldCase("F3", (if conf.datasheet.Some? then conf.datasheet.value else ""), fieldX, -fieldY - 200, "I", "datasheet", contents);
  }



  // ---------------------------------------------------------------------------
  // library and documentation

  /** The part's DEF line: name, designator, no pin-number offset text, name
      offset 40, pin numbers and names shown, one unit, not locked, a normal
      part. */
  function DefLine(conf: Conf): string
  {
    JoinOn(["DEF", conf.name, Designator(conf), "0", "40", "Y", "Y", "1", "F", "N"], ' ')
  }

  function Header(conf: Conf): seq<string>
  {
    ["EESchema-LIBRARY Version 2.3", "#encoding utf-8", "#\n# " + conf.name + "\n#", DefLine(conf)]
  }

  const Footer := "ENDDEF\n#\n#End Library\n"

  /** The library text around given field and drawing lines. */
  function LibraryOf(conf: Conf, fields: seq<string>, drawing: seq<string>): string
  {
    JoinOn(Header(conf) + fields + drawing + [Footer], '\n')
  }

  function LibraryText(conf: Conf): Outcome<string>
  {
    var f :- FieldLines(conf);
    var d :- DrawLines(conf.pins);
    Ok(LibraryOf(conf, f, d))
  }

  method Library(conf: Conf) returns (r: Outcome<string>)
    ensures r == LibraryText(conf)
  {
    var out := Header(conf);
    var f := Fields(conf);
    if f.Raise? {
      return Raise(f.exc);
    }
    out := out + f.value;
    var d := Draw(conf);
    if d.Raise? {
      return Raise(d.exc);
    }
    out := out + d.value;
    out := out + [Footer];
    return Ok(JoinOn(out, '\n'));
  }

  /** documentation: the DCM entry, with an "F" line only when a datasheet is
      set; a missing description raises KeyError. */
  function Documentation(conf: Conf): (r: Outcome<string>)
    ensures r.Ok? <==> conf.description.Some?
  {
    if conf.description.None? then Raise(KeyError)
    else
      Ok(JoinOn(["EESchema-DOCLIB  Version 2.0", "$CMP " + conf.name, "D " + conf.description.value]
                + (if conf.datasheet.Some? then ["F " + conf.datasheet.value] else []) + ["$ENDCMP\n"], '\n'))
  }

  /** No piece holds a line break. */
  predicate SingleLines(lines: seq<string>)
  {
    forall k :: 0 <= k < |lines| ==> '\n' !in lines[k]
  }

  /** Read back line by line, the library holds its two header lines, the
      comment naming the part, the DEF line, the fields and the drawing, and
      the closing lines, ending in a newline. */
  lemma LibraryLines(conf: Conf, fields: seq<string>, drawing: seq<string>)
    requires '\n' !in conf.name && (conf.designator.Some? ==> '\n' !in conf.designator.value)
    requires SingleLines(fields) && SingleLines(drawing)
    ensures LibText.Lines(LibraryOf(conf, fields, drawing)) == LibraryRows(conf, fields, drawing)
  {
    LibraryJoined(conf, fields, drawing);
    var all := LibraryRows(conf, fields, drawing);
    DefLineSingle(conf);
    assert SingleLines(all) by {
      forall k | 0 <= k < |all| ensures '\n' !in all[k] {
        if 6 <= k < 6 + |fields| {
          assert all[k] == fields[k - 6];
        } else if 6 + |fields| <= k < 6 + |fields| + |drawing| {
          assert all[k] == drawing[k - 6 - |fields|];
        }
      }
    }
    JoinSplit(all, '\n');
  }

  /** The lines of a library: two header lines, the comment naming the part,
      the DEF line, the fields, the drawing and the closing lines. */
  function LibraryRows(conf: Conf, fields: seq<string>, drawing: seq<string>): seq<string>
  {
    ["EESchema-LIBRARY Version 2.3", "#encoding utf-8", "#", "# " + conf.name, "#", DefLine(conf)]
    + fields + drawing + ["ENDDEF", "#", "#End Library", ""]
  }

  /** The library text is its rows joined by line breaks. */
  lemma LibraryJoined(conf: Conf, fields: seq<string>, drawing: seq<string>)
    ensures LibraryOf(conf, fields, drawing) == JoinOn(LibraryRows(conf, fields, drawing), '\n')
  {
    var head := ["EESchema-LIBRARY Version 2.3", "#encoding utf-8"];
    var comment := ["#", "# " + conf.name, "#"];
    var tail := ["ENDDEF", "#", "#End Library", ""];
    var mid := [DefLine(conf)] + fields + drawing;
    PartComment(conf.name);
    FooterRows();
    var footer := [JoinOn(tail, '\n')];
    assert Header(conf) + fields + drawing + [Footer] == head + [JoinOn(comment, '\n')] + (mid + footer);
    JoinNested(head, comment, mid + footer, '\n');
    assert head + comment + (mid + footer) == (head + comment + mid) + [JoinOn(tail, '\n')] + [];
    JoinNested(head + comment + mid, tail, [], '\n');
    assert head + comment + mid + tail + [] == LibraryRows(conf, fields, drawing);
  }

  /** No line holds a DEF. */
  predicate NoDefRows(lines: seq<string>)
  {
    forall k :: 0 <= k < |lines| ==> LibText.DefOf(lines[k]).None?
  }

  /** The designator DEF and the F0 field carry. */
  function Designator(conf: Conf): string
  {
    if conf.designator.Some? then conf.designator.value else "IC"
  }

  /** A library around fields and drawing free of DEF lines passes the
      checkers' checkdefs with exactly one definition, the part's name and
      designator. */
  lemma LibraryOneDef(conf: Conf, fields: seq<string>, drawing: seq<string>, libf: string)
    requires '\n' !in conf.name && (conf.designator.Some? ==> '\n' !in conf.designator.value)
    requires ' ' !in conf.name && (conf.designator.Some? ==> ' ' !in conf.designator.value)
    requires SingleLines(fields) && SingleLines(drawing) && NoDefRows(fields) && NoDefRows(drawing)
    ensures var r := LibText.CheckDefs(LibraryOf(conf, fields, drawing), libf);
            r.Ok? && r.value.1 == LibText.Def(conf.name, Designator(conf)) && LibText.ManyDefs !in r.value.0
  {
    LibraryLines(conf, fields, drawing);
    RowsDefs(conf, fields, drawing);
  }

  /** The rows of such a library hold one DEF. */
  lemma RowsDefs(conf: Conf, fields: seq<string>, drawing: seq<string>)
    requires ' ' !in conf.name && (conf.designator.Some? ==> ' ' !in conf.designator.value)
    requires NoDefRows(fields) && NoDefRows(drawing)
    ensures LibText.FindAll(LibraryRows(conf, fields, drawing), LibText.DefOf) == [LibText.Def(conf.name, Designator(conf))]
  {
    var head := ["EESchema-LIBRARY Version 2.3", "#encoding utf-8", "#", "# " + conf.name, "#"];
    var tail := ["ENDDEF", "#", "#End Library", ""];
    var def := [DefLine(conf)];
    var body := fields + drawing + tail;
    assert LibraryRows(conf, fields, drawing) == (head + def) + body;
    LibText.FindAllConcat(head + def, body, LibText.DefOf);
    LibText.FindAllConcat(head, def, LibText.DefOf);
    HeadNoDef(conf.name);
    DefLineRead(conf);
    assert LibText.FindAll(def, LibText.DefOf) == [LibText.Def(conf.name, Designator(conf))];
    BodyNoDef(fields, drawing);
  }

  lemma HeadNoDef(name: string)
    ensures LibText.FindAll(["EESchema-LIBRARY Version 2.3", "#encoding utf-8", "#", "# " + name, "#"], LibText.DefOf) == []
  {
    var head := ["EESchema-LIBRARY Version 2.3", "#encoding utf-8", "#", "# " + name, "#"];
    forall k | 0 <= k < |head| ensures LibText.DefOf(head[k]).None? {
      LibText.NoDefUnlessD(head[k]);
    }
    LibText.FindAllNone(head, LibText.DefOf);
  }

  lemma BodyNoDef(fields: seq<string>, drawing: seq<string>)
    requires NoDefRows(fields) && NoDefRows(drawing)
    ensures LibText.FindAll(fields + drawing + ["ENDDEF", "#", "#End Library", ""], LibText.DefOf) == []
  {
    var tail := ["ENDDEF", "#", "#End Library", ""];
    var all := fields + drawing + tail;
    forall k | 0 <= k < |all| ensures LibText.DefOf(all[k]).None? {
      if k < |fields| {
        assert all[k] == fields[k];
      } else if k < |fields| + |drawing| {
        assert all[k] == drawing[k - |fields|];
      } else {
        LibText.NoDefUnlessD(all[k]);
      }
    }
    LibText.FindAllNone(all, LibText.DefOf);
  }

  /** The DEF line reads back as the part's name and designator. */
  lemma DefLineRead(conf: Conf)
    requires ' ' !in conf.name && (conf.designator.Some? ==> ' ' !in conf.designator.value)
    ensures LibText.DefOf(DefLine(conf)) == Some(LibText.Def(conf.name, Designator(conf)))
  {
    JoinSplit(["DEF", conf.name, Designator(conf), "0", "40", "Y", "Y", "1", "F", "N"], ' ');
  }

  // ---------------------------------------------------------------------------
  // The generated rows hold no line break and no DEF

  /** Every pin name and number of the sides prints without the character. */
  predicate LabelsWithout(sides: seq<Side>, c: char)
  {
    forall i, k :: 0 <= i < |sides| && 0 <= k < |Flatten(sides[i])| ==>
      c !in Show(Flatten(sides[i])[k].name) && c !in Show(Flatten(sides[i])[k].num)
  }

  /** No value the symbol prints holds a line break. */
  predicate PlainConf(conf: Conf)
  {
    '\n' !in conf.name && (conf.designator.Some? ==> '\n' !in conf.designator.value)
    && (conf.footprint.Some? ==> '\n' !in conf.footprint.value) && (conf.datasheet.Some? ==> '\n' !in conf.datasheet.value)
    && (forall i :: 0 <= i < |conf.orderCodes| ==> '\n' !in conf.orderCodes[i].0 && '\n' !in conf.orderCodes[i].1)
    && LabelsWithout(conf.pins, '\n')
  }

  /** One line, and no DEF. */
  predicate PlainRow(line: string)
  {
    '\n' !in line && LibText.DefOf(line).None?
  }

  predicate PlainRows(lines: seq<string>)
  {
    forall k :: 0 <= k < |lines| ==> PlainRow(lines[k])
  }

  lemma PlainConcat(a: seq<string>, b: seq<string>)
    requires PlainRows(a) && PlainRows(b)
    ensures PlainRows(a + b)
  {
    assert forall k :: 0 <= k < |a + b| ==> (a + b)[k] == if k < |a| then a[k] else b[k - |a|];
  }

  /** The drawing frame around plain pin rows is plain. */
  lemma FramePlain(box: string, left: seq<string>, right: seq<string>)
    requires PlainRow(box) && PlainRows(left) && PlainRows(right)
    ensures PlainRows(["DRAW", box] + left + right + ["ENDDRAW"])
  {
    DrawMarksPlain();
    assert PlainRows(["DRAW", box]);
    PlainConcat(["DRAW", box], left);
    PlainConcat(["DRAW", box] + left, right);
    PlainConcat(["DRAW", box] + left + right, ["ENDDRAW"]);
  }

  lemma DrawMarksPlain()
    ensures PlainRow("DRAW") && PlainRow("ENDDRAW")
  {
    assert SplitOn("DRAW", ' ') == ["DRAW"];
    LibText.NoDefUnlessD("ENDDRAW");
  }

  /** A line joined from break-free pieces, the first not starting with D. */
  lemma RowPlain(pieces: seq<string>)
    requires |pieces| > 0 && |pieces[0]| > 0 && pieces[0][0] != 'D'
    requires SingleLines(pieces)
    ensures PlainRow(JoinOn(pieces, ' '))
  {
    JoinFree(pieces, ' ', '\n');
    JoinStart(pieces, ' ');
    assert JoinOn(pieces, ' ')[0] == JoinOn(pieces, ' ')[..|pieces[0]|][0];
    LibText.NoDefUnlessD(JoinOn(pieces, ' '));
  }

  lemma IntTextPlain(i: int)
    ensures '\n' !in IntText(i)
  {
    IntTextChars(i);
    assert forall k :: 0 <= k < |IntText(i)| ==> IntText(i)[k] != '\n';
  }

  lemma FieldTagPlain(k: nat)
    ensures |FieldTag(k)| > 0 && FieldTag(k)[0] == 'F' && '\n' !in FieldTag(k)
  {
    assert forall j :: 0 <= j < |NatText(k)| ==> NatText(k)[j] != '\n';
    assert forall j :: 1 <= j < |FieldTag(k)| ==> FieldTag(k)[j] == NatText(k)[j - 1];
  }

  lemma FieldLinePlain(tag: string, value: string, x: int, y: int, visible: string)
    requires |tag| > 0 && tag[0] == 'F' && '\n' !in tag && '\n' !in value && '\n' !in visible
    ensures PlainRow(FieldLine(tag, value, x, y, visible))
  {
    IntTextPlain(x);
    IntTextPlain(y);
    assert '\n' !in Quoted(value);
    RowPlain([tag, Quoted(value), IntText(x), IntText(y), "50", "H", visible, "L", "CNN"]);
  }

  lemma OrderCodePlain(idx: nat, code: (string, string), x: int, fieldY: int)
    requires '\n' !in code.0 && '\n' !in code.1
    ensures PlainRow(OrderCodeLine(idx, code, x, fieldY))
  {
    FieldTagPlain(idx + 4);
    IntTextPlain(x);
    IntTextPlain(-fieldY - (300 + idx * 100));
    assert '\n' !in Quoted(code.0) && '\n' !in Quoted(code.1);
    RowPlain([FieldTag(idx + 4), Quoted(code.1), IntText(x), IntText(-fieldY - (300 + idx * 100)),
              "50", "H", "I", "L", "CNN", Quoted(code.0)]);
  }

  lemma FieldRowsPlain(conf: Conf, fieldX: int, fieldY: int)
    requires PlainConf(conf)
    ensures PlainRows(FixedFields(conf, fieldX, fieldY) + CodeLines(conf.orderCodes, fieldX, fieldY))
  {
    var fixed := FixedFields(conf, fieldX, fieldY);
    FieldLinePlain("F0", Designator(conf), fieldX, fieldY, "V");
    FieldLinePlain("F1", conf.name, fieldX, -fieldY, "V");
    FieldLinePlain("F2", if conf.footprint.Some? then conf.footprint.value else "", fieldX, -fieldY - 100, "I");
    FieldLinePlain("F3", if conf.datasheet.Some? then conf.datasheet.value else "", fieldX, -fieldY - 200, "I");
    assert PlainRows(fixed);
    var codes := CodeLines(conf.orderCodes, fieldX, fieldY);
    forall i | 0 <= i < |codes| ensures PlainRow(codes[i]) {
      OrderCodePlain(i, conf.orderCodes[i], fieldX, fieldY);
    }
    PlainConcat(fixed, codes);
  }

  lemma PinLinePlain(p: PinSpec, x: int, y: int, direction: string, length: int, code: string)
    requires '\n' !in Show(p.name) && '\n' !in Show(p.num) && '\n' !in direction && '\n' !in code
    ensures PlainRow(PinLine(p, x, y, direction, length, code))
  {
    IntTextPlain(x);
    IntTextPlain(y);
    IntTextPlain(length);
    RowPlain(["X", Show(p.name), Show(p.num), IntText(x), IntText(y), IntText(length), direction,
              "50", "50", "0", "0", code]);
  }

  lemma SideRowsPlain(groups: Side, x: int, y: int, direction: string, length: int, types: map<string, string>)
    requires SideRows(groups, x, y, direction, length, types).Ok?
    requires forall k :: 0 <= k < |Flatten(groups)| ==> '\n' !in Show(Flatten(groups)[k].name) && '\n' !in Show(Flatten(groups)[k].num)
    requires '\n' !in direction && CodesAreLetters(types)
    ensures PlainRows(SideRows(groups, x, y, direction, length, types).value)
  {
    var rows := SideRows(groups, x, y, direction, length, types).value;
    var ps := Placed(groups, y);
    SideRowsPlaced(groups, x, y, direction, length, types);
    PlacedLayout(groups, y);
    forall k | 0 <= k < |rows| ensures PlainRow(rows[k]) {
      var code := types[ps[k].0.kind];
      assert '\n' !in code by {
        assert |code| == 1 && code[0] != '\n';
      }
      PinLinePlain(ps[k].0, x, ps[k].1, direction, length, code);
    }
  }

  lemma DrawingPlain(pins: seq<Side>, s: Shape, types: map<string, string>)
    requires |pins| >= 2 && Drawing(pins, s, types).Ok?
    requires LabelsWithout(pins, '\n') && CodesAreLetters(types)
    ensures PlainRows(Drawing(pins, s, types).value)
  {
    var left := SideRows(pins[0], LeftX(s), TopY(s), "R", s.length, types).value;
    var right := SideRows(pins[1], RightX(s), TopY(s), "L", s.length, types).value;
    SideRowsPlain(pins[0], LeftX(s), TopY(s), "R", s.length, types);
    SideRowsPlain(pins[1], RightX(s), TopY(s), "L", s.length, types);
    IntTextPlain((-s.width) / 2);
    IntTextPlain(s.height / 2);
    IntTextPlain(s.width / 2);
    IntTextPlain((-s.height) / 2);
    RowPlain(["S", IntText((-s.width) / 2), IntText(s.height / 2), IntText(s.width / 2), IntText((-s.height) / 2),
              "0", "1", "0", "f"]);
    FramePlain(BoxLine(s), left, right);
  }

  /** A library build_lib_ic writes passes checkdefs with exactly one
      definition, carrying the part's name and designator, whenever no
      printed value holds a line break and name and designator hold no
      space. */
  lemma GeneratedLibraryOneDef(conf: Conf, libf: string)
    requires LibraryText(conf).Ok? && PlainConf(conf)
    requires ' ' !in conf.name && (conf.designator.Some? ==> ' ' !in conf.designator.value)
    ensures var r := LibText.CheckDefs(LibraryText(conf).value, libf);
            r.Ok? && r.value.1 == LibText.Def(conf.name, Designator(conf)) && LibText.ManyDefs !in r.value.0
  {
    var s := Geometry(conf.pins).value;
    var f := FieldsAt(conf, s);
    var d := DrawLines(conf.pins).value;
    assert LibraryText(conf).value == LibraryOf(conf, f, d);
    FieldRowsPlain(conf, (-s.width) / 2, s.height / 2 + 50);
    PinTypeCodes();
    DrawOnGrid(conf.pins);
    DrawingPlain(conf.pins, s, PinTypes);
    PlainSplits(f);
    PlainSplits(d);
    LibraryOneDef(conf, f, d, libf);
  }

  lemma PlainSplits(lines: seq<string>)
    requires PlainRows(lines)
    ensures SingleLines(lines) && NoDefRows(lines)
  {
  }


  lemma PartComment(name: string)
    ensures JoinOn(["#", "# " + name, "#"], '\n') == "#\n# " + name + "\n#"
  {
    assert JoinOn(["# " + name, "#"], '\n') == "# " + name + "\n#";
  }

  lemma FooterRows()
    ensures JoinOn(["ENDDEF", "#", "#End Library", ""], '\n') == Footer
  {
    assert JoinOn(["#End Library", ""], '\n') == "#End Library\n";
    assert JoinOn(["#", "#End Library", ""], '\n') == "#\n#End Library\n";
  }

  lemma DefLineSingle(conf: Conf)
    requires '\n' !in conf.name && (conf.designator.Some? ==> '\n' !in conf.designator.value)
    ensures '\n' !in DefLine(conf)
  {
    var p := ["DEF", conf.name, Designator(conf), "0", "40", "Y", "Y", "1", "F", "N"];
    JoinFree(p, ' ', '\n');
  }

  /** Read back line by line, the DCM entry holds the name, the description
      and, exactly when one is set, the datasheet, and ends in a newline. */
  lemma DocumentationLines(conf: Conf)
    requires conf.description.Some?
    requires '\n' !in conf.name && '\n' !in conf.description.value
    requires conf.datasheet.Some? ==> '\n' !in conf.datasheet.value
    ensures SplitOn(Documentation(conf).value, '\n')
            == ["EESchema-DOCLIB  Version 2.0", "$CMP " + conf.name, "D " + conf.description.value]
               + (if conf.datasheet.Some? then ["F " + conf.datasheet.value] else []) + ["$ENDCMP", ""]
  {
    var body := ["EESchema-DOCLIB  Version 2.0", "$CMP " + conf.name, "D " + conf.description.value]
                + (if conf.datasheet.Some? then ["F " + conf.datasheet.value] else []);
    JoinConcat(body, ["$ENDCMP", ""], '\n');
    assert JoinOn(["$ENDCMP", ""], '\n') == "$ENDCMP\n";
    JoinConcat(body, ["$ENDCMP\n"], '\n');
    assert '\n' !in "$CMP " + conf.name && '\n' !in "D " + conf.description.value;
    assert conf.datasheet.Some? ==> '\n' !in "F " + conf.datasheet.value;
    JoinSplit(body + ["$ENDCMP", ""], '\n');
  }

  // ---------------------------------------------------------------------------
  // What the library checker reads back from a pin line

  /** str(i) is made of digits and a leading minus only. */
  lemma IntTextChars(i: int)
    ensures LibText.CoordChars(IntText(i)) && ' ' !in IntText(i)
    ensures i >= 0 ==> AllDigits(IntText(i))
  {
    if i < 0 {
      assert forall k :: 1 <= k < |IntText(i)| ==> IntText(i)[k] == NatText(-i)[k - 1];
    }
  }

  lemma FiftyValue()
    ensures ParseInt("50") == Ok(50)
  {
    assert "50" == NatText(50);
    NatTextValue(50);
  }

  /** A generated pin line parses back to its own fields. */
  lemma PinLineParses(p: PinSpec, x: int, y: int, direction: string, length: nat, code: string)
    requires ' ' !in Show(p.name) && ' ' !in Show(p.num) && ' ' !in code
    requires direction == "R" || direction == "L"
    ensures LibText.PinOf(PinLine(p, x, y, direction, length, code))
            == Some(LibText.Pin(Show(p.name), Show(p.num), IntText(x), IntText(y), IntText(length), "50", "50"))
  {
    IntTextChars(x);
    IntTextChars(y);
    IntTextChars(length);
    var pieces := ["X", Show(p.name), Show(p.num), IntText(x), IntText(y), IntText(length), direction,
                   "50", "50", "0", "0", code];
    JoinSplit(pieces, ' ');
    PinPieces(pieces);
  }

  /** A pin line's pieces, once split back, read as the pin they name. */
  lemma PinPieces(p: seq<string>)
    requires |p| >= 9 && p[0] == "X" && LibText.CoordChars(p[3]) && LibText.CoordChars(p[4]) && AllDigits(p[5])
    requires (p[6] == "R" || p[6] == "L") && p[7] == "50" && p[8] == "50"
    ensures SplitOn(JoinOn(p, ' '), ' ') == p ==>
              LibText.PinOf(JoinOn(p, ' ')) == Some(LibText.Pin(p[1], p[2], p[3], p[4], p[5], "50", "50"))
  {
    assert AllDigits("50");
    assert LibText.ClassPrefix("50", IsDigit, 2) == "50";
  }

  /** The library checker's per-pin rules flag such a pin off grid exactly
      when a coordinate is not a multiple of 100, never for its text sizes,
      and for its length only on an IC whose pins are neither 100 nor 150
      long. */
  lemma PinChecked(name: string, num: string, x: int, y: int, length: nat, designator: string)
    ensures CheckLib.PinErrors(LibText.Pin(name, num, IntText(x), IntText(y), IntText(length), "50", "50"), designator)
            == Ok((if x % 100 != 0 || y % 100 != 0 then [LibText.OffGrid(name)] else [])
                  + (if CheckLib.IcOrU(designator) && length != 100 && length != 150 then [LibText.BadLength(name)] else []))
  {
    ParseIntText(x);
    ParseIntText(y);
    ParseIntText(length);
    FiftyValue();
    var p := LibText.Pin(name, num, IntText(x), IntText(y), IntText(length), "50", "50");
    var off: seq<LibText.Err> := if x % 100 != 0 || y % 100 != 0 then [LibText.OffGrid(name)] else [];
    var bad: seq<LibText.Err> := if CheckLib.IcOrU(designator) && length != 100 && length != 150 then [LibText.BadLength(name)] else [];
    assert CheckLib.PinErrors(p, designator).value == off + bad + [];
    assert off + bad + [] == off + bad;
  }
}
