/**
 * scripts/iclib.py, the older variant of the IC symbol generator. It
 * shares the symbol's arithmetic and line formats with build_lib_ic, which
 * this module reuses; it differs in three places: its type table has no
 * open-drain ("od") or open-source ("os") entry, geometry does not insist
 * on exactly two sides (it indexes sides 0 and 1, so fewer raise
 * IndexError and more are measured but not drawn), and the DCM entry has a
 * tab in its header and never a datasheet line.
 */
module IcLib {
  import opened Py
  import B = BuildLibIc

  /** pin_types: no "od", no "os". */
  const PinTypes: map<string, string> :=
    map["in" := "I", "out" := "O", "bidi" := "B", "tri" := "T", "passive" := "P", "unspec" := "U",
        "pwrin" := "W", "pwrout" := "w", "oc" := "C", "oe" := "E", "nc" := "N"]

  /** The table is build_lib_ic's without the two open-drain/source types,
      and its codes are letters. */
  lemma PinTypesOlder()
    ensures B.CodesAreLetters(PinTypes)
    ensures "od" !in PinTypes && "os" !in PinTypes
    ensures forall t :: t in PinTypes ==> t in B.PinTypes && PinTypes[t] == B.PinTypes[t]
    ensures forall t :: t in B.PinTypes && t != "od" && t != "os" ==> t in PinTypes
  {
  }

  // ---------------------------------------------------------------------------
  // geometry

  /** geometry: the longest name first (over every side), then sides 0 and 1
      are indexed, then the same arithmetic as build_lib_ic. */
  function Geometry(sides: seq<B.Side>): (r: Outcome<B.Shape>)
    ensures B.Longest(sides, B.NameLen).Raise? ==> r == Raise(B.Longest(sides, B.NameLen).exc)
    ensures B.Longest(sides, B.NameLen).Ok? && |sides| < 2 ==> r == Raise(IndexError)
    ensures r.Ok? <==> |sides| >= 2 && B.Longest(sides, B.NameLen).Ok?
    ensures r.Ok? ==> B.Longest(sides, B.NumLen).Ok? && r.value == B.Dimensions(B.Longest(sides, B.NameLen).value, B.Longest(sides, B.NumLen).value,
                                              sides[0], sides[1])
  {
    B.NumbersMeasured(sides);
    var longestName := B.Longest(sides, B.NameLen);
    if longestName.Raise? then Raise(longestName.exc)
    else if |sides| < 2 then Raise(IndexError)
    else
      // the numbers are measured over the same pins and cannot raise
      Ok(B.Dimensions(longestName.value, B.Longest(sides, B.NumLen).value, sides[0], sides[1]))
  }

  /** On the two-sided parts build_lib_ic accepts, both generators size the
      symbol alike; on wider lists only iclib gives a shape, from sides 0 and
      1 with every side's names and numbers measured. */
  lemma GeometryAgrees(sides: seq<B.Side>)
    ensures |sides| == 2 ==> Geometry(sides) == B.Geometry(sides)
    ensures |sides| > 2 && B.Longest(sides, B.NameLen).Ok? ==> Geometry(sides).Ok? && B.Geometry(sides) == Raise(RuntimeError)
  {
  }

  /** The height is an odd multiple of 100 and both pin columns and the top
      row sit on the 100-mil grid. */
  lemma GeometryOnGrid(sides: seq<B.Side>)
    requires Geometry(sides).Ok?
    ensures var s := Geometry(sides).value;
            B.OnGridShape(s) && s.height % 200 == 100
            && B.LeftX(s) % 100 == 0 && B.RightX(s) % 100 == 0 && B.TopY(s) % 100 == 0
  {
    B.GridOrigin(Geometry(sides).value);
  }

  // ---------------------------------------------------------------------------
  // draw_pins and draw

  /** Every pin's type is in the table. */
  predicate Known(ps: seq<B.PinSpec>, types: map<string, string>)
  {
    forall k :: 0 <= k < |ps| ==> ps[k].kind in types
  }

  /** A group's lines exist exactly when every type is in the table; the
      only raise is KeyError. */
  lemma {:induction false} GroupRowsKnown(g: B.Group, x: int, y: int, direction: string, length: int,
                                          types: map<string, string>)
    ensures var r := B.GroupRows(g, x, y, direction, length, types);
            (r.Ok? <==> Known(g, types)) && (r.Raise? ==> r.exc == KeyError)
    decreases |g|
  {
    if |g| > 0 && g[0].kind in types {
      GroupRowsKnown(g[1..], x, y - 100, direction, length, types);
      if Known(g[1..], types) {
        forall k | 0 <= k < |g| ensures g[k].kind in types {
          if k > 0 {
            assert g[k] == g[1..][k - 1];
          }
        }
      } else {
        var j :| 0 <= j < |g[1..]| && g[1..][j].kind !in types;
        assert g[j + 1] == g[1..][j];
      }
    }
  }

  /** A run of pins is known exactly when both its parts are. */
  lemma KnownConcat(a: seq<B.PinSpec>, b: seq<B.PinSpec>, types: map<string, string>)
    ensures Known(a + b, types) <==> Known(a, types) && Known(b, types)
  {
    if Known(a + b, types) {
      forall k | 0 <= k < |b| ensures b[k].kind in types {
        assert b[k] == (a + b)[|a| + k];
      }
      forall k | 0 <= k < |a| ensures a[k].kind in types {
        assert a[k] == (a + b)[k];
      }
    }
  }

  /** The same for a whole side, over its pins in order. */
  lemma {:induction false} SideRowsKnown(groups: B.Side, x: int, y: int, direction: string, length: int,
                                         types: map<string, string>)
    ensures var r := B.SideRows(groups, x, y, direction, length, types);
            (r.Ok? <==> Known(B.Flatten(groups), types)) && (r.Raise? ==> r.exc == KeyError)
    decreases |groups|
  {
    if |groups| > 0 {
      GroupRowsKnown(groups[0], x, y, direction, length, types);
      SideRowsKnown(groups[1..], x, y - 100 * |groups[0]| - 100, direction, length, types);
      KnownConcat(groups[0], B.Flatten(groups[1..]), types);
    }
  }

  /** Types on which two tables agree. */
  predicate Agree(ps: seq<B.PinSpec>, t1: map<string, string>, t2: map<string, string>)
  {
    forall k :: 0 <= k < |ps| ==> ps[k].kind in t1 && ps[k].kind in t2 && t1[ps[k].kind] == t2[ps[k].kind]
  }

  /** Two tables that agree on every type of a group give it the same lines. */
  lemma {:induction false} GroupRowsTables(g: B.Group, x: int, y: int, direction: string, length: int,
                                           t1: map<string, string>, t2: map<string, string>)
    requires Agree(g, t1, t2)
    ensures B.GroupRows(g, x, y, direction, length, t1) == B.GroupRows(g, x, y, direction, length, t2)
    decreases |g|
  {
    if |g| > 0 {
      assert Agree(g[1..], t1, t2) by {
        forall k | 0 <= k < |g[1..]| ensures g[1..][k].kind in t1 && g[1..][k].kind in t2 && t1[g[1..][k].kind] == t2[g[1..][k].kind] {
          assert g[1..][k] == g[k + 1];
        }
      }
      GroupRowsTables(g[1..], x, y - 100, direction, length, t1, t2);
    }
  }

  lemma AgreeConcat(a: seq<B.PinSpec>, b: seq<B.PinSpec>, t1: map<string, string>, t2: map<string, string>)
    requires Agree(a + b, t1, t2)
    ensures Agree(a, t1, t2) && Agree(b, t1, t2)
  {
    forall k | 0 <= k < |b| ensures b[k].kind in t1 && b[k].kind in t2 && t1[b[k].kind] == t2[b[k].kind] {
      assert b[k] == (a + b)[|a| + k];
    }
    forall k | 0 <= k < |a| ensures a[k].kind in t1 && a[k].kind in t2 && t1[a[k].kind] == t2[a[k].kind] {
      assert a[k] == (a + b)[k];
    }
  }

  /** The same for a whole side. */
  lemma {:induction false} SideRowsTables(groups: B.Side, x: int, y: int, direction: string, length: int,
                                          t1: map<string, string>, t2: map<string, string>)
    requires Agree(B.Flatten(groups), t1, t2)
    ensures B.SideRows(groups, x, y, direction, length, t1) == B.SideRows(groups, x, y, direction, length, t2)
    decreases |groups|
  {
    if |groups| > 0 {
      AgreeConcat(groups[0], B.Flatten(groups[1..]), t1, t2);
      GroupRowsTables(groups[0], x, y, direction, length, t1, t2);
      SideRowsTables(groups[1..], x, y - 100 * |groups[0]| - 100, direction, length, t1, t2);
    }
  }

  function DrawLines(pins: seq<B.Side>): Outcome<seq<string>>
  {
    var s :- Geometry(pins);
    B.Drawing(pins, s, PinTypes)
  }

  /** draw: the box, then sides 0 and 1 through the pin loops. */
  method Draw(conf: B.Conf) returns (r: Outcome<seq<string>>)
    ensures r == DrawLines(conf.pins)
  {
    var s := Geometry(conf.pins);
    if s.Raise? {
      return Raise(s.exc);
    }
    r := B.DrawWith(conf.pins, s.value, PinTypes);
  }

  /** Whatever the shape, drawing sides 0 and 1 raises exactly when one of
      them holds a type the table lacks, and then with KeyError. */
  lemma DrawRaisesOnlyOnUnknownTypes(pins: seq<B.Side>, s: B.Shape)
    requires |pins| >= 2
    ensures B.Drawing(pins, s, PinTypes).Raise?
            <==> !(Known(B.Flatten(pins[0]), PinTypes) && Known(B.Flatten(pins[1]), PinTypes))
    ensures B.Drawing(pins, s, PinTypes).Raise? ==> B.Drawing(pins, s, PinTypes).exc == KeyError
  {
    SideRowsKnown(pins[0], B.LeftX(s), B.TopY(s), "R", s.length, PinTypes);
    SideRowsKnown(pins[1], B.RightX(s), B.TopY(s), "L", s.length, PinTypes);
  }

  /** An open-drain or open-source pin on a drawn side makes draw raise
      KeyError, although build_lib_ic draws it. */
  lemma OpenDrainRaises(pins: seq<B.Side>, s: B.Shape, i: nat, k: nat)
    requires |pins| >= 2
    requires i < 2 && k < |B.Flatten(pins[i])| && (B.Flatten(pins[i])[k].kind == "od" || B.Flatten(pins[i])[k].kind == "os")
    ensures B.Drawing(pins, s, PinTypes) == Raise(KeyError)
  {
    OpenTypeUnknown(B.Flatten(pins[i]), k);
    DrawRaisesOnlyOnUnknownTypes(pins, s);
  }

  lemma OpenTypeUnknown(ps: seq<B.PinSpec>, k: nat)
    requires k < |ps| && (ps[k].kind == "od" || ps[k].kind == "os")
    ensures !Known(ps, PinTypes)
  {
    PinTypesOlder();
  }

  /** Every pin draw places sits on the 100-mil grid: each row is the pin
      line at a column that is a multiple of 100 and at a row that is one. */
  lemma DrawOnGrid(pins: seq<B.Side>)
    requires DrawLines(pins).Ok?
    ensures var s := Geometry(pins).value;
            var left := B.SideRows(pins[0], B.LeftX(s), B.TopY(s), "R", s.length, PinTypes);
            var right := B.SideRows(pins[1], B.RightX(s), B.TopY(s), "L", s.length, PinTypes);
            left.Ok? && right.Ok?
            && DrawLines(pins).value == ["DRAW", B.BoxLine(s)] + left.value + right.value + ["ENDDRAW"]
            && B.LeftX(s) % 100 == 0 && B.RightX(s) % 100 == 0
            && B.RowsAt(left.value, B.Placed(pins[0], B.TopY(s)), B.LeftX(s), "R", s.length, PinTypes)
            && B.RowsAt(right.value, B.Placed(pins[1], B.TopY(s)), B.RightX(s), "L", s.length, PinTypes)
            && (forall k :: 0 <= k < |B.Placed(pins[0], B.TopY(s))| ==> B.Placed(pins[0], B.TopY(s))[k].1 % 100 == 0)
            && (forall k :: 0 <= k < |B.Placed(pins[1], B.TopY(s))| ==> B.Placed(pins[1], B.TopY(s))[k].1 % 100 == 0)
  {
    var s := Geometry(pins).value;
    GeometryOnGrid(pins);
    B.DrawingOnGrid(pins, s, PinTypes);
  }

  /** On the types this table knows, build_lib_ic's table gives the same
      codes. */
  lemma KnownAgree(ps: seq<B.PinSpec>)
    requires Known(ps, PinTypes)
    ensures Agree(ps, PinTypes, B.PinTypes)
  {
    PinTypesOlder();
  }

  /** On a two-sided part with no open-drain or open-source pin, both
      generators draw the same lines. */
  lemma DrawAgrees(pins: seq<B.Side>)
    requires |pins| == 2
    requires Known(B.Flatten(pins[0]), PinTypes) && Known(B.Flatten(pins[1]), PinTypes)
    ensures DrawLines(pins) == B.DrawLines(pins)
  {
    GeometryAgrees(pins);
    if Geometry(pins).Ok? {
      var s := Geometry(pins).value;
      KnownAgree(B.Flatten(pins[0]));
      KnownAgree(B.Flatten(pins[1]));
      SideRowsTables(pins[0], B.LeftX(s), B.TopY(s), "R", s.length, PinTypes, B.PinTypes);
      SideRowsTables(pins[1], B.RightX(s), B.TopY(s), "L", s.length, PinTypes, B.PinTypes);
    }
  }

  // ---------------------------------------------------------------------------
  // fields, library, documentation

  function FieldLines(conf: B.Conf): Outcome<seq<string>>
  {
    var s :- Geometry(conf.pins);
    Ok(B.FieldsAt(conf, s))
  }

  /** fields: the same four fixed fields and order-code fields as
      build_lib_ic, below a box sized by this module's geometry. */
  method Fields(conf: B.Conf) returns (r: Outcome<seq<string>>)
    ensures r == FieldLines(conf)
  {
    var s := Geometry(conf.pins);
    if s.Raise? {
      return Raise(s.exc);
    }
    var out := B.FieldsWith(conf, s.value);
    return Ok(out);
  }

  /** The idx-th (supplier, code) item of the order-code table becomes
      field F{idx+4}, 100 lower for each earlier item. */
  lemma OrderCodePlacement(conf: B.Conf, s: B.Shape, idx: nat)
    requires idx < |conf.orderCodes|
    ensures |B.FieldsAt(conf, s)| == 4 + |conf.orderCodes|
    ensures B.FieldsAt(conf, s)[4 + idx] == B.OrderCodeLine(idx, conf.orderCodes[idx], (-s.width) / 2, s.height / 2 + 50)
  {
    var fieldX, fieldY := (-s.width) / 2, s.height / 2 + 50;
    var fixed := B.FixedFields(conf, fieldX, fieldY);
    var codes := B.CodeLines(conf.orderCodes, fieldX, fieldY);
    assert |fixed| == 4;
    assert B.FieldsAt(conf, s) == fixed + codes;
    assert (fixed + codes)[4 + idx] == codes[idx];
  }

  function LibraryText(conf: B.Conf): Outcome<string>
  {
    var f :- FieldLines(conf);
    var d :- DrawLines(conf.pins);
    Ok(B.LibraryOf(conf, f, d))
  }

  /** library: header, DEF line, fields, drawing, footer, joined by line
      breaks. */
  method Library(conf: B.Conf) returns (r: Outcome<string>)
    ensures r == LibraryText(conf)
  {
    var out := B.Header(conf);
    var f := Fields(conf);
    if f.Raise? {
      return Raise(f.exc);
    }
    out := out + f.value;
    var d := Draw(conf);
    if d.Raise? {
      return Raise(d.exc);
    }
    out := out + d.value;
    out := out + [B.Footer];
    return Ok(JoinOn(out, '\n'));
  }

  /** On a two-sided part with no open-drain or open-source pin, the two
      generators write the same library. */
  lemma LibraryAgrees(conf: B.Conf)
    requires |conf.pins| == 2
    requires Known(B.Flatten(conf.pins[0]), PinTypes) && Known(B.Flatten(conf.pins[1]), PinTypes)
    ensures LibraryText(conf) == B.LibraryText(conf)
  {
    GeometryAgrees(conf.pins);
    DrawAgrees(conf.pins);
  }

  /** documentation: a tab in the header and no datasheet line; a missing
      description raises KeyError. */
  function Documentation(conf: B.Conf): (r: Outcome<string>)
    ensures r.Ok? <==> conf.description.Some?
  {
    if conf.description.None? then Raise(KeyError)
    else Ok(JoinOn(["EESchema-DOCLIB\tVersion 2.0", "$CMP " + conf.name, "D " + conf.description.value, "$ENDCMP\n"], '\n'))
  }

  /** Read back line by line, the entry holds the name and the description
      only, whatever the datasheet. */
  lemma DocumentationLines(conf: B.Conf)
    requires conf.description.Some?
    requires '\n' !in conf.name && '\n' !in conf.description.value
    ensures SplitOn(Documentation(conf).value, '\n')
            == ["EESchema-DOCLIB\tVersion 2.0", "$CMP " + conf.name, "D " + conf.description.value, "$ENDCMP", ""]
  {
    var body := ["EESchema-DOCLIB\tVersion 2.0", "$CMP " + conf.name, "D " + conf.description.value];
    JoinConcat(body, ["$ENDCMP", ""], '\n');
    assert JoinOn(["$ENDCMP", ""], '\n') == "$ENDCMP\n";
    JoinConcat(body, ["$ENDCMP\n"], '\n');
    assert body + ["$ENDCMP\n"] == ["EESchema-DOCLIB\tVersion 2.0", "$CMP " + conf.name, "D " + conf.description.value, "$ENDCMP\n"];
    assert '\n' !in "$CMP " + conf.name && '\n' !in "D " + conf.description.value;
    JoinSplit(body + ["$ENDCMP", ""], '\n');
  }
}
