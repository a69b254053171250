/**
 * scripts/check_mod.py: the footprint rules. Each check walks the children of
 * the parsed module, appends messages to the caller's error list and raises
 * whatever Python raises on a tree of the wrong shape; `checkmod` runs the
 * checks in a fixed order and passes the footprint iff no message was added.
 */
module CheckMod {
  import opened Py
  import opened Sexp
  import opened PyTree
  import KicadMod

  const FabMsg := "Value and Reference fields must be on F.Fab"
  const RefMsg := "Reference field must contain REF**"
  const ValueMsg := "Value field must contain module name"
  const FontSizeMsg := "Font must all be 1mm x 1mm size"
  const FontThickMsg := "Font must be 0.15mm line thickness"
  const CtydWidthMsg := "Courtyard lines must be 0.01mm wide"
  const CtydGridMsg := "Courtyard lines must lie on a 0.05mm grid"
  const NoCtydMsg := "No courtyard found"

  const LineTypes := ["fp_line", "fp_circle", "fp_arc", "fp_poly", "fp_curve"]
  const SilkLayers := ["F.SilkS", "B.SilkS"]
  const FabLayers := ["F.Fab", "B.Fab"]
  const CtydLayers := ["F.CrtYd", "B.CrtYd"]

  /** One pass over the module's children. `RefVal(false)` is the older rule
      of fpcheck.py, without the REF** and module-name tests. */
  datatype Rule =
    | RefVal(full: bool)
    | Font
    | Lines(layers: seq<string>, width: string, message: string)
    | Courtyard

  /** checklines(mod, errs, ("F.SilkS", "B.SilkS"), "0.15"); the message
      formats the layer tuple with its Python repr. */
  const SilkRule := Lines(SilkLayers, "0.15", "Lines on ('F.SilkS', 'B.SilkS') must be 0.15mm wide")

  const FabRule := Lines(FabLayers, "0.01", "Lines on ('F.Fab', 'B.Fab') must be 0.01mm wide")

  /** The errors and the found_ctyd flag gathered so far. */
  datatype Tally = Tally(errs: seq<string>, found: bool)

  // ---------------------------------------------------------------------------
  // One child of the module

  /** The body of checkrefval for one fp_text. */
  function RefValErrors(full: bool, mod: Node, fp: Node): Outcome<seq<string>>
  {
    var kind :- Index(fp, 1);
    if kind != Str("reference") && kind != Str("value") then Ok([])
    else
      var layer :- Pick(fp, "layer");
      var on :- Index(layer, 1);
      var fab := if on != Str("F.Fab") then [FabMsg] else [];
      if !full then Ok(fab)
      else if kind == Str("reference") then
        var text :- Index(fp, 2);
        Ok(fab + if text != Str("REF**") then [RefMsg] else [])
      else
        // mod[1].startswith(fp_text[2]): the method is looked up first
        var name :- Index(mod, 1);
        if !name.Str? then Raise(AttributeError)
        else
          var text :- Index(fp, 2);
          if !text.Str? then Raise(TypeError)
          else Ok(fab + if StartsWith(name.s, text.s) then [] else [ValueMsg])
  }

  /** `Decimal(p[i])`. */
  function DecimalAt(p: Node, i: nat): Outcome<real>
  {
    var v :- Index(p, i);
    DecimalNode(v)
  }

  /** The body of checkfont for one fp_text: the four lookups, then the
      comparisons. */
  function FontErrors(fp: Node): Outcome<seq<string>>
  {
    var effects :- Pick(fp, "effects");
    var font :- Pick(effects, "font");
    var size :- Pick(font, "size");
    var thickness :- Pick(font, "thickness");
    FontValues(size, thickness)
  }

  /** checkfont's comparisons; the size test short-circuits. */
  function FontValues(size: Node, thickness: Node): Outcome<seq<string>>
  {
    var w :- DecimalAt(size, 1);
    var badSize :- if w != 1.0 then Ok(true) else (var h :- DecimalAt(size, 2); Ok(h != 1.0));
    var t :- DecimalAt(thickness, 1);
    Ok((if badSize then [FontSizeMsg] else []) + (if t != 0.15 then [FontThickMsg] else []))
  }

  function LineErrors(layers: seq<string>, width: string, message: string, line: Node): Outcome<seq<string>>
  {
    var layer :- Pick(line, "layer");
    var w :- Pick(line, "width");
    var on :- Index(layer, 1);
    LineValues(layers, width, message, on, w)
  }

  /** checklines' layer test, then its width comparison. */
  function LineValues(layers: seq<string>, width: string, message: string, on: Node, w: Node): Outcome<seq<string>>
  {
    if !(on.Str? && on.s in layers) then Ok([])
    else
      var v :- DecimalAt(w, 1);
      var limit :- DecimalNode(Str(width));
      Ok(if v != limit then [message] else [])
  }

  /** `Decimal(p[i]) % Decimal("0.05") != 0`. */
  function OffGridAt(p: Node, i: nat): Outcome<bool>
  {
    var v :- DecimalAt(p, i);
    Ok(!OnGrid(v, 0.05))
  }

  /** The four grid tests joined by a short-circuit `or`. */
  function OffGrid(start: Node, end: Node): Outcome<bool>
  {
    var a :- OffGridAt(start, 1);
    if a then Ok(true)
    else
      var b :- OffGridAt(start, 2);
      if b then Ok(true)
      else
        var c :- OffGridAt(end, 1);
        if c then Ok(true) else OffGridAt(end, 2)
  }

  /** The body of checkctyd for one fp_line: the messages, and whether it is a
      courtyard line. All four lookups happen before the layer test. */
  function CourtyardErrors(line: Node): Outcome<(seq<string>, bool)>
  {
    var layer :- Pick(line, "layer");
    var width :- Pick(line, "width");
    var start :- Pick(line, "start");
    var end :- Pick(line, "end");
    var on :- Index(layer, 1);
    CourtyardValues(on, width, start, end)
  }

  /** checkctyd's layer test, then its width and grid tests. */
  function CourtyardValues(on: Node, width: Node, start: Node, end: Node): Outcome<(seq<string>, bool)>
  {
    if !(on.Str? && on.s in CtydLayers) then Ok(([], false))
    else
      var w :- DecimalAt(width, 1);
      var off :- OffGrid(start, end);
      Ok(((if w != 0.01 then [CtydWidthMsg] else []) + (if off then [CtydGridMsg] else []), true))
  }

  /** One step of a check's loop: the generator's `node[0]` test, then the
      body for the nodes it lets through. */
  function Visit(rule: Rule, mod: Node, n: Node): Outcome<(seq<string>, bool)>
  {
    match rule
    case RefVal(full) =>
      var hit :- HeadIs(n, "fp_text");
      if !hit then Ok(([], false)) else var e :- RefValErrors(full, mod, n); Ok((e, false))
    case Font =>
      var hit :- HeadIs(n, "fp_text");
      if !hit then Ok(([], false)) else var e :- FontErrors(n); Ok((e, false))
    case Lines(layers, width, message) =>
      var hit :- HeadIn(n, LineTypes);
      if !hit then Ok(([], false)) else var e :- LineErrors(layers, width, message, n); Ok((e, false))
    case Courtyard =>
      var hit :- HeadIs(n, "fp_line");
      if !hit then Ok(([], false)) else CourtyardErrors(n)
  }

  /** The step of one check's loop, as a value. */
  function Visitor(rule: Rule, mod: Node): Node -> Outcome<(seq<string>, bool)>
  {
    n => Visit(rule, mod, n)
  }

  /** The loop of a check over the children cs, as a left fold. */
  function Sweep(visit: Node -> Outcome<(seq<string>, bool)>, cs: seq<Node>): Outcome<Tally>
    decreases |cs|
  {
    if |cs| == 0 then Ok(Tally([], false))
    else
      var t :- Sweep(visit, cs[..|cs| - 1]);
      var v :- visit(cs[|cs| - 1]);
      Ok(Tally(t.errs + v.0, t.found || v.1))
  }

  /** The messages one check appends; only checkctyd adds a closing message. */
  function Check(rule: Rule, mod: Node): Outcome<seq<string>>
  {
    var cs :- Elements(mod);
    var t :- Sweep(Visitor(rule, mod), cs);
    Ok(t.errs + if rule.Courtyard? && !t.found then [NoCtydMsg] else [])
  }

  /** The caller's list after a check: its messages appended, or the raise. */
  function After(errs: seq<string>, o: Outcome<seq<string>>): Outcome<seq<string>>
  {
    var e :- o;
    Ok(errs + e)
  }

  lemma {:induction false} SweepRaiseStays(visit: Node -> Outcome<(seq<string>, bool)>, cs: seq<Node>, n: nat, e: Exc)
    requires n <= |cs| && Sweep(visit, cs[..n]) == Raise(e)
    ensures Sweep(visit, cs) == Raise(e)
    decreases |cs| - n
  {
    if n < |cs| {
      assert cs[..n + 1][..n] == cs[..n];
      SweepRaiseStays(visit, cs, n + 1, e);
    } else {
      assert cs[..n] == cs;
    }
  }

  /** A check: the loop over the module's children with the caller's list,
      then checkctyd's closing test. */
  method Apply(rule: Rule, mod: Node, errs: seq<string>) returns (r: Outcome<seq<string>>)
    ensures r == After(errs, Check(rule, mod))
  {
    var items := Elements(mod);
    if items.Raise? {
      return Raise(items.exc);
    }
    var swept := Walk(Visitor(rule, mod), items.value, errs);
    if swept.Raise? {
      return Raise(swept.exc);
    }
    var (acc, found) := swept.value;
    var tail: seq<string> := if rule.Courtyard? && !found then [NoCtydMsg] else [];
    assert acc + tail == errs + (acc[|errs|..] + tail);
    return Ok(acc + tail);
  }

  /** The for loop of a check, appending to the caller's list. */
  method Walk(visit: Node -> Outcome<(seq<string>, bool)>, cs: seq<Node>, errs: seq<string>)
    returns (r: Outcome<(seq<string>, bool)>)
    ensures Sweep(visit, cs).Raise? ==> r == Raise(Sweep(visit, cs).exc)
    ensures Sweep(visit, cs).Ok? ==>
              r.Ok? && |errs| <= |r.value.0| && r.value.0[..|errs|] == errs
              && Sweep(visit, cs).value == Tally(r.value.0[|errs|..], r.value.1)
  {
    var acc := errs;
    ghost var added: seq<string> := [];
    var found := false;
    var i := 0;
    while i < |cs|
      invariant 0 <= i <= |cs|
      invariant acc == errs + added
      invariant Sweep(visit, cs[..i]) == Ok(Tally(added, found))
    {
      assert cs[..i + 1][..i] == cs[..i];
      var v := visit(cs[i]);
      if v.Raise? {
        SweepRaiseStays(visit, cs, i + 1, v.exc);
        return Raise(v.exc);
      }
      acc := acc + v.value.0;
      added := added + v.value.0;
      found := found || v.value.1;
      i := i + 1;
    }
    assert cs[..i] == cs;
    assert acc[|errs|..] == added;
    return Ok((acc, found));
  }

  // ---------------------------------------------------------------------------
  // checkmod

  /** The checks of check_mod.py's checkmod, in the order it runs them. */
  const ModRules := [RefVal(true), Font, SilkRule, FabRule, Courtyard]

  /** The messages of a series of checks sharing one error list, in order;
      the first raise ends the series. */
  function Chain(rules: seq<Rule>, mod: Node): Outcome<seq<string>>
    decreases |rules|
  {
    if |rules| == 0 then Ok([])
    else
      var e :- Chain(rules[..|rules| - 1], mod);
      After(e, Check(rules[|rules| - 1], mod))
  }

  lemma {:induction false} ChainRaiseStays(rules: seq<Rule>, mod: Node, n: nat, e: Exc)
    requires n <= |rules| && Chain(rules[..n], mod) == Raise(e)
    ensures Chain(rules, mod) == Raise(e)
    decreases |rules| - n
  {
    if n < |rules| {
      assert rules[..n + 1][..n] == rules[..n];
      ChainRaiseStays(rules, mod, n + 1, e);
    } else {
      assert rules[..n] == rules;
    }
  }

  /** The checks run one after the other on one list. */
  method RunChecks(rules: seq<Rule>, mod: Node) returns (r: Outcome<seq<string>>)
    ensures r == Chain(rules, mod)
  {
    var errs: seq<string> := [];
    var k := 0;
    while k < |rules|
      invariant 0 <= k <= |rules|
      invariant Chain(rules[..k], mod) == Ok(errs)
    {
      assert rules[..k + 1][..k] == rules[..k];
      var o := Apply(rules[k], mod, errs);
      if o.Raise? {
        ChainRaiseStays(rules, mod, k + 1, o.exc);
        return o;
      }
      errs := o.value;
      k := k + 1;
    }
    assert rules[..k] == rules;
    return Ok(errs);
  }

  /** checkmod on a parsed module: the errors in order, and whether it passes. */
  method CheckModule(mod: Node) returns (r: Outcome<bool>, errs: seq<string>)
    ensures Chain(ModRules, mod).Ok? ==> r == Ok(|errs| == 0) && errs == Chain(ModRules, mod).value
    ensures Chain(ModRules, mod).Raise? ==> r == Raise(Chain(ModRules, mod).exc)
  {
    var o := RunChecks(ModRules, mod);
    if o.Raise? {
      return Raise(o.exc), [];
    }
    errs := o.value;
    return Ok(|errs| == 0), errs;
  }

  /** checkmod on the text of a footprint file, read with sexp.py's parser. */
  method CheckText(text: string) returns (r: Outcome<bool>, errs: seq<string>)
    ensures ParseText(Placeholder, text).Raise? ==> r == Raise(ParseText(Placeholder, text).exc)
    ensures ParseText(Placeholder, text).Ok? ==>
              var m := Chain(ModRules, ParseText(Placeholder, text).value);
              (m.Ok? ==> r == Ok(|errs| == 0) && errs == m.value) && (m.Raise? ==> r == Raise(m.exc))
  {
    var tree := Parse(text);
    if tree.Raise? {
      return Raise(tree.exc), [];
    }
    r, errs := CheckModule(tree.value);
  }

  /** A series of checks adds nothing iff each of them runs and adds nothing;
      so checkmod passes iff every rule passes. */
  lemma {:induction false} ChainEmpty(rules: seq<Rule>, mod: Node)
    ensures Chain(rules, mod) == Ok([]) <==> forall k :: 0 <= k < |rules| ==> Check(rules[k], mod) == Ok([])
    decreases |rules|
  {
    if |rules| > 0 {
      var p := rules[..|rules| - 1];
      ChainEmpty(p, mod);
      assert forall k :: 0 <= k < |p| ==> p[k] == rules[k];
      var c := Check(rules[|rules| - 1], mod);
      if Chain(p, mod).Ok? && c.Ok? {
        assert Chain(rules, mod) == Ok(Chain(p, mod).value + c.value);
      }
    }
  }

  /** When every check runs, checkmod's list is the checks' messages, in order. */
  lemma {:induction false} ChainOrder(rules: seq<Rule>, mod: Node)
    requires forall k :: 0 <= k < |rules| ==> Check(rules[k], mod).Ok?
    ensures Chain(rules, mod) == Ok(Messages(rules, mod))
    decreases |rules|
  {
    if |rules| > 0 {
      var p := rules[..|rules| - 1];
      assert forall k :: 0 <= k < |p| ==> p[k] == rules[k];
      ChainOrder(p, mod);
    }
  }

  /** The messages of each check, one check after another. */
  function Messages(rules: seq<Rule>, mod: Node): seq<string>
    requires forall k :: 0 <= k < |rules| ==> Check(rules[k], mod).Ok?
    decreases |rules|
  {
    if |rules| == 0 then []
    else Messages(rules[..|rules| - 1], mod) + Check(rules[|rules| - 1], mod).value
  }

  // ---------------------------------------------------------------------------
  // Properties

  /** Decimal comparison: "1", "1.0", "1.00" and so on all pass the 1 mm
      font test. */
  lemma OneInAnySpelling(k: nat)
    ensures DecimalOf("1") == Some(1.0)
    ensures k > 0 ==> DecimalOf("1." + Zeros(k)) == Some(1.0)
  {
    DecimalInteger("1");
    if k > 0 {
      TrailingZeros("1", k);
      assert "1" + "." + Zeros(k) == "1." + Zeros(k);
    }
  }

  /** DecimalOf of a one-digit whole part and a two-digit fraction. */
  lemma DecimalTwoPlaces(a: char, b: char, c: char)
    requires IsDigit(a) && IsDigit(b) && IsDigit(c)
    ensures DecimalOf([a, '.', b, c]) == Some((DigitValue(a) * 100 + DigitValue(b) * 10 + DigitValue(c)) as real / 100.0)
  {
    DecimalPoint([a], [b, c]);
    assert [a] + "." + [b, c] == [a, '.', b, c];
    var d := [a] + [b, c];
    assert d == [a, b, c];
    DigitsValue3(a, b, c);
    assert Pow10(2) == 100 by {
      assert Pow10(1) == 10 * Pow10(0);
    }
    assert |[b, c]| == 2;
  }

  lemma DigitsValue3(a: char, b: char, c: char)
    requires IsDigit(a) && IsDigit(b) && IsDigit(c)
    ensures DigitsValue([a, b, c]) == DigitValue(a) * 100 + DigitValue(b) * 10 + DigitValue(c)
  {
    assert DigitsValue([a]) == DigitValue(a) by {
      assert [a][..0] == [];
    }
    assert DigitsValue([a, b]) == DigitsValue([a]) * 10 + DigitValue(b) by {
      assert [a, b][..1] == [a];
    }
    assert DigitsValue([a, b, c]) == DigitsValue([a, b]) * 10 + DigitValue(c) by {
      assert [a, b, c][..2] == [a, b];
    }
  }

  /** The limits written as strings in the rules have the values the checks
      compare against. */
  lemma DecimalSilk()
    ensures DecimalOf("0.15") == Some(0.15)
  {
    DecimalTwoPlaces('0', '1', '5');
  }

  lemma DecimalFab()
    ensures DecimalOf("0.01") == Some(0.01)
  {
    DecimalTwoPlaces('0', '0', '1');
    assert DigitValue('0') == 0 && DigitValue('1') == 1;
  }

  /** checkrefval's body, given what its lookups find. */
  lemma RefValOf(full: bool, mod: Node, fp: Node, kind: string, text: string, on: string, name: string)
    requires Index(fp, 1) == Ok(Str(kind)) && Index(fp, 2) == Ok(Str(text)) && Index(mod, 1) == Ok(Str(name))
    requires Pick(fp, "layer").Ok? && Index(Pick(fp, "layer").value, 1) == Ok(Str(on))
    ensures var isRef, isVal := kind == "reference", kind == "value";
            RefValErrors(full, mod, fp)
              == Ok((if (isRef || isVal) && on != "F.Fab" then [FabMsg] else [])
                    + (if full && isRef && text != "REF**" then [RefMsg] else [])
                    + (if full && isVal && !StartsWith(name, text) then [ValueMsg] else []))
  {
    var fab := if on != "F.Fab" then [FabMsg] else [];
    if kind == "reference" || kind == "value" {
      assert Pick(fp, "layer").value == Pick(fp, "layer").Extract();
      if !full {
        assert RefValErrors(full, mod, fp) == Ok(fab);
        assert fab + [] + [] == fab;
      } else if kind == "reference" {
        var ref := if text != "REF**" then [RefMsg] else [];
        assert RefValErrors(full, mod, fp) == Ok(fab + ref);
        assert kind != "value";
        assert fab + ref + [] == fab + ref;
      } else {
        assert RefValErrors(full, mod, fp) == Ok(fab + if StartsWith(name, text) then [] else [ValueMsg]);
        assert fab + [] == fab;
      }
    } else {
      assert Str(kind) != Str("reference") && Str(kind) != Str("value");
      assert RefValErrors(full, mod, fp) == Ok([]);
      var none: seq<string> := [];
      assert none + none + none == none;
    }
  }

  /** The lookups inside an fp_text built by kicad_mod.py find its own
      children when its type and text are non-empty. */
  lemma FpTextLayer(kind: string, text: string, at: seq<Node>, layer: Node, size: KicadMod.Point, thickness: Node)
    requires |kind| > 0 && |text| > 0
    ensures var t := KicadMod.FpText(Str(kind), Str(text), at, layer, size, thickness);
            Pick(t, "layer") == Ok(List([Str("layer"), layer]))
  {
    var cs := KicadMod.FpText(Str(kind), Str(text), at, layer, size, thickness).children;
    assert Testable(cs);
    assert HeadIs(cs[0], "layer") == Ok(false);
    assert HeadIs(cs[1], "layer") == Ok(false);
    assert HeadIs(cs[2], "layer") == Ok(false);
    assert HeadIs(cs[3], "layer") == Ok(false);
    PickFirst(cs, "layer", 4);
  }

  lemma FpTextEffects(kind: string, text: string, at: seq<Node>, layer: Node, size: KicadMod.Point, thickness: Node)
    requires |kind| > 0 && |text| > 0
    ensures var t := KicadMod.FpText(Str(kind), Str(text), at, layer, size, thickness);
            Pick(t, "effects") == Ok(t.children[5])
  {
    var cs := KicadMod.FpText(Str(kind), Str(text), at, layer, size, thickness).children;
    assert Testable(cs);
    assert HeadIs(cs[0], "effects") == Ok(false);
    assert HeadIs(cs[1], "effects") == Ok(false);
    assert HeadIs(cs[2], "effects") == Ok(false);
    assert HeadIs(cs[3], "effects") == Ok(false);
    assert HeadIs(cs[4], "effects") == Ok(false);
    PickFirst(cs, "effects", 5);
  }

  /** checkrefval on an fp_text built by kicad_mod.py: fpcheck.py's rule only
      asks for F.Fab, check_mod.py's rule also for REF** in the reference and
      a prefix of the module name in the value; other text types pass. */
  lemma RefValOnFpText(full: bool, mod: Node, name: string, kind: string, text: string, at: seq<Node>,
                       layer: string, size: KicadMod.Point, thickness: Node)
    requires |kind| > 0 && |text| > 0 && Index(mod, 1) == Ok(Str(name))
    ensures var t := KicadMod.FpText(Str(kind), Str(text), at, Str(layer), size, thickness);
            var isRef, isVal := kind == "reference", kind == "value";
            Visit(RefVal(full), mod, t)
              == Ok(((if (isRef || isVal) && layer != "F.Fab" then [FabMsg] else [])
                     + (if full && isRef && text != "REF**" then [RefMsg] else [])
                     + (if full && isVal && !StartsWith(name, text) then [ValueMsg] else []), false))
  {
    var t := KicadMod.FpText(Str(kind), Str(text), at, Str(layer), size, thickness);
    FpTextLayer(kind, text, at, Str(layer), size, thickness);
    RefValOf(full, mod, t, kind, text, layer, name);
    assert HeadIs(t, "fp_text") == Ok(true);
  }

  /** checkfont on an fp_text whose four lookups succeed. */
  lemma FontVisit(mod: Node, fp: Node, effects: Node, font: Node, size: Node, thickness: Node)
    requires HeadIs(fp, "fp_text") == Ok(true)
    requires Pick(fp, "effects") == Ok(effects) && Pick(effects, "font") == Ok(font)
    requires Pick(font, "size") == Ok(size) && Pick(font, "thickness") == Ok(thickness)
    requires FontValues(size, thickness).Ok?
    ensures Visit(Font, mod, fp) == Ok((FontValues(size, thickness).value, false))
  {
  }

  /** checkfont's comparisons on decimal text: the size and thickness tests
      are independent and compare exact values. */
  lemma FontValuesOf(w: string, h: string, th: string)
    requires DecimalOf(w).Some? && DecimalOf(h).Some? && DecimalOf(th).Some?
    ensures FontValues(KicadMod.Pair("size", (Str(w), Str(h))), List([Str("thickness"), Str(th)]))
              == Ok((if DecimalOf(w).value != 1.0 || DecimalOf(h).value != 1.0 then [FontSizeMsg] else [])
                    + (if DecimalOf(th).value != 0.15 then [FontThickMsg] else []))
  {
    PairDecimals("size", w, h);
    TagDecimal("thickness", th);
    FontValuesAre(KicadMod.Pair("size", (Str(w), Str(h))), List([Str("thickness"), Str(th)]),
                  DecimalOf(w).value, DecimalOf(h).value, DecimalOf(th).value);
  }

  /** The two coordinates of a pair of decimal texts read as their values. */
  lemma PairDecimals(tag: string, a: string, b: string)
    requires DecimalOf(a).Some? && DecimalOf(b).Some?
    ensures DecimalAt(KicadMod.Pair(tag, (Str(a), Str(b))), 1) == Ok(DecimalOf(a).value)
    ensures DecimalAt(KicadMod.Pair(tag, (Str(a), Str(b))), 2) == Ok(DecimalOf(b).value)
  {
    var p := KicadMod.Pair(tag, (Str(a), Str(b)));
    assert Index(p, 1) == Ok(Str(a)) && Index(p, 2) == Ok(Str(b));
  }

  lemma TagDecimal(tag: string, a: string)
    requires DecimalOf(a).Some?
    ensures DecimalAt(List([Str(tag), Str(a)]), 1) == Ok(DecimalOf(a).value)
  {
    assert Index(List([Str(tag), Str(a)]), 1) == Ok(Str(a));
  }

  /** checkfont's comparisons on the values its lookups read. */
  lemma FontValuesAre(size: Node, thickness: Node, w: real, h: real, th: real)
    requires DecimalAt(size, 1) == Ok(w) && DecimalAt(size, 2) == Ok(h) && DecimalAt(thickness, 1) == Ok(th)
    ensures FontValues(size, thickness)
              == Ok((if w != 1.0 || h != 1.0 then [FontSizeMsg] else []) + (if th != 0.15 then [FontThickMsg] else []))
  {
  }

  lemma FontPicks(size: KicadMod.Point, thickness: Node)
    ensures var font := List([Str("font"), KicadMod.Pair("size", size), List([Str("thickness"), thickness])]);
            var effects := List([Str("effects"), font]);
            Pick(effects, "font") == Ok(font)
            && Pick(font, "size") == Ok(KicadMod.Pair("size", size))
            && Pick(font, "thickness") == Ok(List([Str("thickness"), thickness]))
  {
    var font := List([Str("font"), KicadMod.Pair("size", size), List([Str("thickness"), thickness])]);
    var effects := List([Str("effects"), font]);
    assert HeadIs(effects.children[0], "font") == Ok(false);
    PickFirst(effects.children, "font", 1);
    assert HeadIs(font.children[0], "size") == Ok(false) && HeadIs(font.children[0], "thickness") == Ok(false);
    assert HeadIs(font.children[1], "thickness") == Ok(false);
    PickFirst(font.children, "size", 1);
    PickFirst(font.children, "thickness", 2);
  }

  /** checkfont on an fp_text built by kicad_mod.py: a size message iff either
      dimension differs from 1, a thickness message iff it differs from 0.15. */
  lemma FontOnFpText(mod: Node, kind: string, text: string, at: seq<Node>, layer: Node,
                     w: string, h: string, th: string)
    requires |kind| > 0 && |text| > 0
    requires DecimalOf(w).Some? && DecimalOf(h).Some? && DecimalOf(th).Some?
    ensures var t := KicadMod.FpText(Str(kind), Str(text), at, layer, (Str(w), Str(h)), Str(th));
            Visit(Font, mod, t)
              == Ok(((if DecimalOf(w).value != 1.0 || DecimalOf(h).value != 1.0 then [FontSizeMsg] else [])
                     + (if DecimalOf(th).value != 0.15 then [FontThickMsg] else []), false))
  {
    var size, thickness := KicadMod.Pair("size", (Str(w), Str(h))), List([Str("thickness"), Str(th)]);
    var font := List([Str("font"), size, thickness]);
    var t := KicadMod.FpText(Str(kind), Str(text), at, layer, (Str(w), Str(h)), Str(th));
    FpTextEffects(kind, text, at, layer, (Str(w), Str(h)), Str(th));
    FontPicks((Str(w), Str(h)), Str(th));
    FontValuesOf(w, h, th);
    assert HeadIs(t, "fp_text") == Ok(true);
    FontVisit(mod, t, List([Str("effects"), font]), font, size, thickness);
  }

  /** The lookups inside an fp_line built by kicad_mod.py find its children. */
  lemma FpLineEnds(start: KicadMod.Point, end: KicadMod.Point, layer: Node, width: Node)
    ensures var l := KicadMod.FpLine(start, end, layer, width);
            Pick(l, "start") == Ok(l.children[1]) && Pick(l, "end") == Ok(l.children[2])
  {
    var cs := KicadMod.FpLine(start, end, layer, width).children;
    assert Testable(cs);
    assert HeadIs(cs[0], "start") == Ok(false) && HeadIs(cs[0], "end") == Ok(false);
    assert HeadIs(cs[1], "end") == Ok(false);
    PickFirst(cs, "start", 1);
    PickFirst(cs, "end", 2);
  }

  lemma FpLineStyle(start: KicadMod.Point, end: KicadMod.Point, layer: Node, width: Node)
    ensures var l := KicadMod.FpLine(start, end, layer, width);
            Pick(l, "layer") == Ok(l.children[3]) && Pick(l, "width") == Ok(l.children[4])
  {
    var cs := KicadMod.FpLine(start, end, layer, width).children;
    assert Testable(cs);
    assert HeadIs(cs[0], "layer") == Ok(false) && HeadIs(cs[0], "width") == Ok(false);
    assert HeadIs(cs[1], "layer") == Ok(false) && HeadIs(cs[1], "width") == Ok(false);
    assert HeadIs(cs[2], "layer") == Ok(false) && HeadIs(cs[2], "width") == Ok(false);
    assert HeadIs(cs[3], "width") == Ok(false);
    PickFirst(cs, "layer", 3);
    PickFirst(cs, "width", 4);
  }

  /** checklines on a drawing whose two lookups succeed. */
  lemma LinesVisit(layers: seq<string>, limit: string, message: string, mod: Node, l: Node, layer: Node, width: Node)
    requires HeadIn(l, LineTypes) == Ok(true)
    requires Pick(l, "layer") == Ok(layer) && Pick(l, "width") == Ok(width) && Index(layer, 1).Ok?
    requires LineValues(layers, limit, message, Index(layer, 1).value, width).Ok?
    ensures Visit(Lines(layers, limit, message), mod, l)
              == Ok((LineValues(layers, limit, message, Index(layer, 1).value, width).value, false))
  {
  }

  /** checklines on an fp_line built by kicad_mod.py: a message iff the line is
      on one of the layers and its width differs in value from the limit. */
  lemma LinesOnFpLine(layers: seq<string>, limit: string, message: string, mod: Node,
                      start: KicadMod.Point, end: KicadMod.Point, layer: string, w: string)
    requires DecimalOf(w).Some? && DecimalOf(limit).Some?
    ensures Visit(Lines(layers, limit, message), mod, KicadMod.FpLine(start, end, Str(layer), Str(w)))
              == Ok((if layer in layers && DecimalOf(w).value != DecimalOf(limit).value then [message] else [], false))
  {
    var l := KicadMod.FpLine(start, end, Str(layer), Str(w));
    var layerNode, widthNode := List([Str("layer"), Str(layer)]), List([Str("width"), Str(w)]);
    FpLineStyle(start, end, Str(layer), Str(w));
    assert HeadIn(l, LineTypes) == Ok(true);
    assert Index(layerNode, 1) == Ok(Str(layer));
    assert DecimalAt(widthNode, 1) == Ok(DecimalOf(w).value);
    assert LineValues(layers, limit, message, Str(layer), widthNode)
             == Ok(if layer in layers && DecimalOf(w).value != DecimalOf(limit).value then [message] else []);
    LinesVisit(layers, limit, message, mod, l, layerNode, widthNode);
  }

  /** checkctyd's grid test on two points of decimal text. */
  lemma OffGridOf(a: string, b: string, c: string, d: string)
    requires DecimalOf(a).Some? && DecimalOf(b).Some? && DecimalOf(c).Some? && DecimalOf(d).Some?
    ensures OffGrid(KicadMod.Pair("start", (Str(a), Str(b))), KicadMod.Pair("end", (Str(c), Str(d))))
              == Ok(!(OnGrid(DecimalOf(a).value, 0.05) && OnGrid(DecimalOf(b).value, 0.05)
                      && OnGrid(DecimalOf(c).value, 0.05) && OnGrid(DecimalOf(d).value, 0.05)))
  {
    PairDecimals("start", a, b);
    PairDecimals("end", c, d);
    OffGridValues(KicadMod.Pair("start", (Str(a), Str(b))), KicadMod.Pair("end", (Str(c), Str(d))),
                  DecimalOf(a).value, DecimalOf(b).value, DecimalOf(c).value, DecimalOf(d).value);
  }

  /** The short-circuit `or` of the four grid tests is the negated `and`. */
  lemma OffGridValues(start: Node, end: Node, va: real, vb: real, vc: real, vd: real)
    requires DecimalAt(start, 1) == Ok(va) && DecimalAt(start, 2) == Ok(vb)
    requires DecimalAt(end, 1) == Ok(vc) && DecimalAt(end, 2) == Ok(vd)
    ensures OffGrid(start, end) == Ok(!(OnGrid(va, 0.05) && OnGrid(vb, 0.05) && OnGrid(vc, 0.05) && OnGrid(vd, 0.05)))
  {
  }

  /** checkctyd on an fp_line whose four lookups succeed. */
  lemma CourtyardVisit(mod: Node, l: Node, layer: Node, width: Node, start: Node, end: Node)
    requires HeadIs(l, "fp_line") == Ok(true)
    requires Pick(l, "layer") == Ok(layer) && Pick(l, "width") == Ok(width)
    requires Pick(l, "start") == Ok(start) && Pick(l, "end") == Ok(end) && Index(layer, 1).Ok?
    ensures Visit(Courtyard, mod, l) == CourtyardValues(Index(layer, 1).value, width, start, end)
  {
  }

  /** checkctyd on an fp_line built by kicad_mod.py: off the courtyard layers
      it is ignored; on them it counts as the courtyard, and the width and the
      0.05 grid of its four coordinates are tested independently. */
  lemma CourtyardOnFpLine(mod: Node, a: string, b: string, c: string, d: string, layer: string, w: string)
    requires DecimalOf(a).Some? && DecimalOf(b).Some? && DecimalOf(c).Some? && DecimalOf(d).Some?
    requires DecimalOf(w).Some?
    ensures var onGrid := OnGrid(DecimalOf(a).value, 0.05) && OnGrid(DecimalOf(b).value, 0.05)
                          && OnGrid(DecimalOf(c).value, 0.05) && OnGrid(DecimalOf(d).value, 0.05);
            Visit(Courtyard, mod, KicadMod.FpLine((Str(a), Str(b)), (Str(c), Str(d)), Str(layer), Str(w)))
              == if layer in CtydLayers
                 then Ok(((if DecimalOf(w).value != 0.01 then [CtydWidthMsg] else [])
                          + (if onGrid then [] else [CtydGridMsg]), true))
                 else Ok(([], false))
  {
    var p, q := (Str(a), Str(b)), (Str(c), Str(d));
    FpLineLookups(p, q, layer, w);
    OffGridOf(a, b, c, d);
    CourtyardOfParts(mod, KicadMod.FpLine(p, q, Str(layer), Str(w)), List([Str("layer"), Str(layer)]),
                     List([Str("width"), Str(w)]), KicadMod.Pair("start", p), KicadMod.Pair("end", q), layer,
                     DecimalOf(w).value,
                     !(OnGrid(DecimalOf(a).value, 0.05) && OnGrid(DecimalOf(b).value, 0.05)
                       && OnGrid(DecimalOf(c).value, 0.05) && OnGrid(DecimalOf(d).value, 0.05)));
  }

  /** The lookups checkctyd makes on an fp_line built by kicad_mod.py. */
  lemma FpLineLookups(p: KicadMod.Point, q: KicadMod.Point, layer: string, w: string)
    requires DecimalOf(w).Some?
    ensures var l := KicadMod.FpLine(p, q, Str(layer), Str(w));
            HeadIs(l, "fp_line") == Ok(true)
            && Pick(l, "layer") == Ok(List([Str("layer"), Str(layer)])) && Pick(l, "width") == Ok(List([Str("width"), Str(w)]))
            && Pick(l, "start") == Ok(KicadMod.Pair("start", p)) && Pick(l, "end") == Ok(KicadMod.Pair("end", q))
            && Index(List([Str("layer"), Str(layer)]), 1) == Ok(Str(layer))
            && DecimalAt(List([Str("width"), Str(w)]), 1) == Ok(DecimalOf(w).value)
  {
    FpLineEnds(p, q, Str(layer), Str(w));
    FpLineStyle(p, q, Str(layer), Str(w));
  }

  /** checkctyd on an fp_line whose lookups, width and grid test are known. */
  lemma CourtyardOfParts(mod: Node, l: Node, layerNode: Node, widthNode: Node, start: Node, end: Node,
                         layer: string, w: real, off: bool)
    requires HeadIs(l, "fp_line") == Ok(true)
    requires Pick(l, "layer") == Ok(layerNode) && Pick(l, "width") == Ok(widthNode)
    requires Pick(l, "start") == Ok(start) && Pick(l, "end") == Ok(end) && Index(layerNode, 1) == Ok(Str(layer))
    requires DecimalAt(widthNode, 1) == Ok(w) && OffGrid(start, end) == Ok(off)
    ensures Visit(Courtyard, mod, l)
              == if layer in CtydLayers
                 then Ok(((if w != 0.01 then [CtydWidthMsg] else []) + (if off then [CtydGridMsg] else []), true))
                 else Ok(([], false))
  {
    CourtyardVisit(mod, l, layerNode, widthNode, start, end);
    CourtyardValuesOf(Str(layer), widthNode, start, end, w, off);
  }

  /** checkctyd's body once the width and the grid test are known. */
  lemma CourtyardValuesOf(on: Node, width: Node, start: Node, end: Node, w: real, off: bool)
    requires DecimalAt(width, 1) == Ok(w) && OffGrid(start, end) == Ok(off)
    ensures CourtyardValues(on, width, start, end)
              == if on.Str? && on.s in CtydLayers
                 then Ok(((if w != 0.01 then [CtydWidthMsg] else []) + (if off then [CtydGridMsg] else []), true))
                 else Ok(([], false))
  {
  }

  /** What one step of a loop contributes, for any step function. */
  lemma {:induction false} SweepParts(visit: Node -> Outcome<(seq<string>, bool)>, cs: seq<Node>)
    requires Sweep(visit, cs).Ok?
    ensures forall k :: 0 <= k < |cs| ==> visit(cs[k]).Ok?
    ensures Sweep(visit, cs).value.found <==> exists k :: 0 <= k < |cs| && visit(cs[k]).value.1
    ensures forall m :: m in Sweep(visit, cs).value.errs ==> exists k :: 0 <= k < |cs| && m in visit(cs[k]).value.0
    decreases |cs|
  {
    if |cs| > 0 {
      var p := cs[..|cs| - 1];
      SweepParts(visit, p);
      assert forall k :: 0 <= k < |p| ==> p[k] == cs[k];
      var t, tp, v := Sweep(visit, cs).value, Sweep(visit, p).value, visit(cs[|cs| - 1]).value;
      assert t == Tally(tp.errs + v.0, tp.found || v.1);
      forall m | m in t.errs ensures exists k :: 0 <= k < |cs| && m in visit(cs[k]).value.0 {
        if m in tp.errs {
          var k :| 0 <= k < |p| && m in visit(p[k]).value.0;
          assert m in visit(cs[k]).value.0;
        } else {
          assert m in visit(cs[|cs| - 1]).value.0;
        }
      }
    }
  }

  /** A child that satisfies checkctyd's test: an fp_line on F.CrtYd or
      B.CrtYd whose lookups do not raise. Arcs and circles never qualify. */
  predicate CourtyardLine(n: Node)
  {
    HeadIs(n, "fp_line") == Ok(true) && CourtyardErrors(n).Ok? && CourtyardErrors(n).value.1
  }

  /** One step of checkctyd: it counts the child iff it is a courtyard line,
      and reports only width and grid messages. */
  lemma CourtyardStep(mod: Node, n: Node)
    requires Visit(Courtyard, mod, n).Ok?
    ensures Visit(Courtyard, mod, n).value.1 <==> CourtyardLine(n)
    ensures forall m :: m in Visit(Courtyard, mod, n).value.0 ==> m == CtydWidthMsg || m == CtydGridMsg
  {
    var hit := HeadIs(n, "fp_line");
    assert hit.Ok?;
    if hit.value {
      assert Visit(Courtyard, mod, n) == CourtyardErrors(n);
      var layer, width, start, end := Pick(n, "layer").value, Pick(n, "width").value, Pick(n, "start").value, Pick(n, "end").value;
      CourtyardValuesMessages(Index(layer, 1).value, width, start, end);
    } else {
      assert Visit(Courtyard, mod, n) == Ok(([], false));
    }
  }

  /** checkctyd's body reports only width and grid messages. */
  lemma CourtyardValuesMessages(on: Node, width: Node, start: Node, end: Node)
    requires CourtyardValues(on, width, start, end).Ok?
    ensures forall m :: m in CourtyardValues(on, width, start, end).value.0 ==> m == CtydWidthMsg || m == CtydGridMsg
  {
  }

  /** "No courtyard found" is reported iff no child is an fp_line on a
      courtyard layer. */
  lemma CourtyardMissing(mod: Node)
    requires Check(Courtyard, mod).Ok?
    ensures var cs := Elements(mod).value;
            NoCtydMsg in Check(Courtyard, mod).value <==> !exists k :: 0 <= k < |cs| && CourtyardLine(cs[k])
  {
    var cs := Elements(mod).value;
    var visit := Visitor(Courtyard, mod);
    SweepParts(visit, cs);
    var t := Sweep(visit, cs).value;
    forall k | 0 <= k < |cs| ensures visit(cs[k]).value.1 <==> CourtyardLine(cs[k]) {
      CourtyardStep(mod, cs[k]);
    }
    assert NoCtydMsg !in t.errs by {
      forall m | m in t.errs ensures m != NoCtydMsg {
        var k :| 0 <= k < |cs| && m in visit(cs[k]).value.0;
        CourtyardStep(mod, cs[k]);
      }
    }
  }
}
