/**
 * scripts/kicad_mod.py: the constructors of footprint tree nodes that the
 * build_mod_* generators hand to the serialiser.
 */
module KicadMod {
  import opened Py
  import opened Sexp

  type Point = (Node, Node)

  /** The tag of a node: the first element of a list when it is a str. */
  function TagOf(n: Node): string
  {
    if n.List? && |n.children| > 0 && n.children[0].Str? then n.children[0].s else ""
  }

  /** The tags of a sequence of nodes, in order. */
  function Tags(cs: seq<Node>): (r: seq<string>)
    ensures |r| == |cs| && forall k :: 0 <= k < |cs| ==> r[k] == TagOf(cs[k])
  {
    if |cs| == 0 then [] else [TagOf(cs[0])] + Tags(cs[1..])
  }

  function Pair(tag: string, p: Point): Node
  {
    List([Str(tag), p.0, p.1])
  }

  /** fp_line(start, end, layer, width). */
  function FpLine(start: Point, end: Point, layer: Node, width: Node): Node
  {
    List([Str("fp_line"), Pair("start", start), Pair("end", end), List([Str("layer"), layer]), List([Str("width"), width])])
  }

  /** fp_arc: an fp_line shape with the angle inserted after the end point. */
  function FpArc(start: Point, end: Point, angle: Node, layer: Node, width: Node): Node
  {
    List([Str("fp_arc"), Pair("start", start), Pair("end", end), List([Str("angle"), angle]),
          List([Str("layer"), layer]), List([Str("width"), width])])
  }

  /** fp_circle: an fp_line shape whose first point is tagged "center". */
  function FpCircle(centre: Point, end: Point, layer: Node, width: Node): Node
  {
    List([Str("fp_circle"), Pair("center", centre), Pair("end", end), List([Str("layer"), layer]), List([Str("width"), width])])
  }

  /** fp_text: the position keeps every entry of `at`. */
  function FpText(texttype: Node, text: Node, at: seq<Node>, layer: Node, size: Point, thickness: Node): Node
  {
    List([Str("fp_text"), texttype, text, List([Str("at")] + at), List([Str("layer"), layer]),
          List([Str("effects"), List([Str("font"), Pair("size", size), List([Str("thickness"), thickness])])])])
  }

  /** The drill argument of pad: one number, or a sequence spliced into the node. */
  datatype Drill = Scalar(value: Node) | Values(values: seq<Node>)

  function DrillNode(drill: Option<Drill>, offset: Option<seq<Node>>): Node
  {
    List([Str("drill")]
         + (if drill.None? then [] else if drill.value.Scalar? then [drill.value.value] else drill.value.values)
         + (if offset.None? then [] else [List([Str("offset")] + offset.value)]))
  }

  function Opt(b: bool, n: Node): seq<Node> { if b then [n] else [] }

  function OptTag(b: bool, t: string): seq<string> { if b then [t] else [] }

  /** pad(num, padtype, shape, at, size, layers, drill, offset, m_mask, m_paste). */
  function Pad(num: Node, padtype: Node, shape: Node, at: Point, size: seq<Node>, layers: seq<Node>,
               drill: Option<Drill>, offset: Option<seq<Node>>, mMask: Option<Node>, mPaste: Option<Node>): (r: Node)
    ensures r.List? && |r.children| >= 7
    ensures r.children[..7] == [Str("pad"), num, padtype, shape, Pair("at", at),
                                List([Str("size")] + size), List([Str("layers")] + layers)]
    // the optional children, in the order drill, mask, paste, each present iff asked for
    ensures Tags(r.children[7..]) == OptTag(drill.Some? || offset.Some?, "drill")
                                     + OptTag(mMask.Some?, "solder_mask_margin")
                                     + OptTag(mPaste.Some?, "solder_paste_margin")
    ensures mMask.Some? ==> List([Str("solder_mask_margin"), mMask.value]) in r.children
    ensures mPaste.Some? ==> List([Str("solder_paste_margin"), mPaste.value]) in r.children
  {
    var base := [Str("pad"), num, padtype, shape, Pair("at", at),
                 List([Str("size")] + size), List([Str("layers")] + layers)];
    var extra := Extras(drill, offset, mMask, mPaste);
    ExtrasTags(drill, offset, mMask, mPaste);
    ExtrasHold(drill, offset, mMask, mPaste);
    AfterSeven(base, extra);
    List(base + extra)
  }

  /** The optional children of pad, in the order drill, mask, paste. */
  function Extras(drill: Option<Drill>, offset: Option<seq<Node>>, mMask: Option<Node>, mPaste: Option<Node>): seq<Node>
  {
    Opt(drill.Some? || offset.Some?, DrillNode(drill, offset))
    + Opt(mMask.Some?, List([Str("solder_mask_margin"), if mMask.Some? then mMask.value else Int(0)]))
    + Opt(mPaste.Some?, List([Str("solder_paste_margin"), if mPaste.Some? then mPaste.value else Int(0)]))
  }

  lemma ExtrasTags(drill: Option<Drill>, offset: Option<seq<Node>>, mMask: Option<Node>, mPaste: Option<Node>)
    ensures Tags(Extras(drill, offset, mMask, mPaste)) == OptTag(drill.Some? || offset.Some?, "drill")
                                                         + OptTag(mMask.Some?, "solder_mask_margin")
                                                         + OptTag(mPaste.Some?, "solder_paste_margin")
  {
    var a := Opt(drill.Some? || offset.Some?, DrillNode(drill, offset));
    var b := Opt(mMask.Some?, List([Str("solder_mask_margin"), if mMask.Some? then mMask.value else Int(0)]));
    var c := Opt(mPaste.Some?, List([Str("solder_paste_margin"), if mPaste.Some? then mPaste.value else Int(0)]));
    assert Extras(drill, offset, mMask, mPaste) == a + b + c;
    assert Tags(a) == OptTag(drill.Some? || offset.Some?, "drill") by {
      OptTags(drill.Some? || offset.Some?, DrillNode(drill, offset), "drill");
    }
    assert Tags(b) == OptTag(mMask.Some?, "solder_mask_margin") by {
      OptTags(mMask.Some?, List([Str("solder_mask_margin"), if mMask.Some? then mMask.value else Int(0)]), "solder_mask_margin");
    }
    assert Tags(c) == OptTag(mPaste.Some?, "solder_paste_margin") by {
      OptTags(mPaste.Some?, List([Str("solder_paste_margin"), if mPaste.Some? then mPaste.value else Int(0)]), "solder_paste_margin");
    }
    TagsConcat3(a, b, c);
  }

  /** The margins given are among the optional children. */
  lemma ExtrasHold(drill: Option<Drill>, offset: Option<seq<Node>>, mMask: Option<Node>, mPaste: Option<Node>)
    ensures mMask.Some? ==> List([Str("solder_mask_margin"), mMask.value]) in Extras(drill, offset, mMask, mPaste)
    ensures mPaste.Some? ==> List([Str("solder_paste_margin"), mPaste.value]) in Extras(drill, offset, mMask, mPaste)
  {
  }

  lemma OptTags(b: bool, n: Node, t: string)
    requires TagOf(n) == t
    ensures Tags(Opt(b, n)) == OptTag(b, t)
  {
  }

  /** Seven children, then the rest. */
  lemma AfterSeven(base: seq<Node>, extra: seq<Node>)
    requires |base| == 7
    ensures (base + extra)[..7] == base && (base + extra)[7..] == extra
    ensures forall x :: x in extra ==> x in base + extra
  {
  }

  lemma TagsConcat3(a: seq<Node>, b: seq<Node>, c: seq<Node>)
    ensures Tags(a + b + c) == Tags(a) + Tags(b) + Tags(c)
  {
    var lhs, rhs := Tags(a + b + c), Tags(a) + Tags(b) + Tags(c);
    assert |lhs| == |rhs|;
    forall k | 0 <= k < |lhs| ensures lhs[k] == rhs[k] {
      if k < |a| {
      } else if k < |a| + |b| {
        assert (a + b + c)[k] == b[k - |a|];
      } else {
        assert (a + b + c)[k] == c[k - |a| - |b|];
      }
    }
  }

  /** The drill child: the drill value (one or spliced) then the offset, last. */
  lemma DrillLayout(drill: Option<Drill>, offset: Option<seq<Node>>, num: Node, padtype: Node, shape: Node,
                    at: Point, size: seq<Node>, layers: seq<Node>, mMask: Option<Node>, mPaste: Option<Node>)
    requires drill.Some? || offset.Some?
    ensures var r := Pad(num, padtype, shape, at, size, layers, drill, offset, mMask, mPaste);
            r.children[7] == DrillNode(drill, offset)
    ensures var d := DrillNode(drill, offset).children;
            |d| == 1 + (if drill.None? then 0 else if drill.value.Scalar? then 1 else |drill.value.values|)
                     + (if offset.None? then 0 else 1)
            && (offset.Some? ==> d[|d| - 1] == List([Str("offset")] + offset.value))
  {
  }

  /** fp_arc is fp_line with an angle after the end point; fp_circle is fp_line
      with "center" for "start". */
  lemma ArcAndCircleExtendLine(p: Point, q: Point, angle: Node, layer: Node, width: Node)
    ensures var line := FpLine(p, q, layer, width).children;
            FpArc(p, q, angle, layer, width).children
              == [Str("fp_arc")] + line[1..3] + [List([Str("angle"), angle])] + line[3..]
    ensures var line := FpLine(p, q, layer, width).children;
            FpCircle(p, q, layer, width).children == [Str("fp_circle"), Pair("center", p)] + line[2..]
  {
  }

  /** fp_text's position child is "at" followed by every entry of `at`, so a
      two- and a three-element position both survive; layer and effects follow. */
  lemma FpTextAt(texttype: Node, text: Node, at: seq<Node>, layer: Node, size: Point, thickness: Node)
    ensures var t := FpText(texttype, text, at, layer, size, thickness);
            |t.children| == 6 && Tags(t.children[3..]) == ["at", "layer", "effects"]
            && PointOf(t, 3) == at
  {
    var t := FpText(texttype, text, at, layer, size, thickness);
    assert t.children[3].children[1..] == at;
  }

  type Corner = (real, real)

  function At(c: Corner): Point { (Flt(c.0), Flt(c.1)) }

  /** The coordinates of the k-th child of a node, after its tag. */
  function PointOf(n: Node, k: nat): seq<Node>
  {
    if n.List? && k < |n.children| && n.children[k].List? && |n.children[k].children| > 0
    then n.children[k].children[1..] else []
  }

  /** draw_square: the corners nw, ne, se, sw of the width x height rectangle
      centred on centre, and four lines around it, each starting where the
      previous one ended and the last closing on the first. */
  function DrawSquare(width: real, height: real, centre: Corner, layer: Node, thickness: Node)
    : (r: (Corner, Corner, Corner, Corner, seq<Node>))
    ensures var (nw, ne, se, sw, lines) := r;
            ne.0 - nw.0 == width && se.0 - sw.0 == width
            && sw.1 - nw.1 == height && se.1 - ne.1 == height
            && nw.0 + ne.0 == 2.0 * centre.0 && nw.1 + sw.1 == 2.0 * centre.1
            && nw.0 == sw.0 && ne.0 == se.0 && nw.1 == ne.1 && sw.1 == se.1
    ensures var lines := r.4;
            |lines| == 4
            && PointOf(lines[0], 1) == [Flt(r.0.0), Flt(r.0.1)]
            && PointOf(lines[1], 1) == [Flt(r.1.0), Flt(r.1.1)]
            && PointOf(lines[2], 1) == [Flt(r.2.0), Flt(r.2.1)]
            && PointOf(lines[3], 1) == [Flt(r.3.0), Flt(r.3.1)]
            && (forall k :: 0 <= k < 3 ==> PointOf(lines[k], 2) == PointOf(lines[k + 1], 1))
            && PointOf(lines[3], 2) == PointOf(lines[0], 1)
            && forall k :: 0 <= k < 4 ==> TagOf(lines[k]) == "fp_line"
  {
    var ne := (width / 2.0 + centre.0, -height / 2.0 + centre.1);
    var nw := (-width / 2.0 + centre.0, -height / 2.0 + centre.1);
    var se := (width / 2.0 + centre.0, height / 2.0 + centre.1);
    var sw := (-width / 2.0 + centre.0, height / 2.0 + centre.1);
    var lines := [FpLine(At(nw), At(ne), layer, thickness), FpLine(At(ne), At(se), layer, thickness),
                  FpLine(At(se), At(sw), layer, thickness), FpLine(At(sw), At(nw), layer, thickness)];
    (nw, ne, se, sw, lines)
  }
}
