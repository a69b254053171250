/**
 * scripts/fpcheck.py: the older footprint checker. It reads the file with the
 * parser of scripts/moddraw.py (the same function, character for character)
 * and runs four of check_mod.py's checks: the reference/value layer test
 * without the text tests, the font test, the silk width test under its own
 * message, and the courtyard test. There is no fab line test.
 */
module FpCheck {
  import opened Py
  import opened Sexp
  import opened PyTree
  import opened CheckMod
  import ModDraw

  const SilkMsg := "Silk lines must be 0.15mm wide"

  /** The checks of fpcheck.py's checkmod, in the order it runs them. */
  const FpRules := [RefVal(false), Font, Lines(SilkLayers, "0.15", SilkMsg), Courtyard]

  /** checkmod on a parsed module: the errors in order, and whether it passes. */
  method CheckModule(mod: Node) returns (r: Outcome<bool>, errs: seq<string>)
    ensures Chain(FpRules, mod).Ok? ==> r == Ok(|errs| == 0) && errs == Chain(FpRules, mod).value
    ensures Chain(FpRules, mod).Raise? ==> r == Raise(Chain(FpRules, mod).exc)
  {
    var o := RunChecks(FpRules, mod);
    if o.Raise? {
      return Raise(o.exc), [];
    }
    errs := o.value;
    return Ok(|errs| == 0), errs;
  }

  /** checkmod on the text of a footprint file, read with the parser that
      drops empty tokens. */
  method CheckText(text: string) returns (r: Outcome<bool>, errs: seq<string>)
    ensures ParseText(Dropping, text).Raise? ==> r == Raise(ParseText(Dropping, text).exc)
    ensures ParseText(Dropping, text).Ok? ==>
              var m := Chain(FpRules, ParseText(Dropping, text).value);
              (m.Ok? ==> r == Ok(|errs| == 0) && errs == m.value) && (m.Raise? ==> r == Raise(m.exc))
  {
    var tree := ModDraw.SexpParse(text);
    if tree.Raise? {
      return Raise(tree.exc), [];
    }
    r, errs := CheckModule(tree.value);
  }

  /** A step that reports nothing. */
  predicate Quiet(o: Outcome<(seq<string>, bool)>)
  {
    o.Ok? && o.value.0 == []
  }

  /** When every child that one step passes is passed by another step with
      the same courtyard flag, a loop the first passes is passed by the second. */
  lemma {:induction false} SweepQuiet(v1: Node -> Outcome<(seq<string>, bool)>, v2: Node -> Outcome<(seq<string>, bool)>,
                                      cs: seq<Node>)
    requires forall k :: 0 <= k < |cs| && Quiet(v1(cs[k])) ==> Quiet(v2(cs[k])) && v2(cs[k]).value.1 == v1(cs[k]).value.1
    requires Sweep(v1, cs).Ok? && Sweep(v1, cs).value.errs == []
    ensures Sweep(v2, cs) == Sweep(v1, cs)
    decreases |cs|
  {
    if |cs| > 0 {
      var p := cs[..|cs| - 1];
      var t1 := Sweep(v1, p);
      assert t1.Ok?;
      var x := v1(cs[|cs| - 1]);
      assert x.Ok?;
      assert t1.value.errs + x.value.0 == [];
      assert t1.value.errs == [] && x.value.0 == [];
      assert forall k :: 0 <= k < |p| ==> p[k] == cs[k];
      SweepQuiet(v1, v2, p);
    }
  }

  /** check_mod.py's reference/value test passes a child only if fpcheck.py's
      does: the F.Fab message is the first thing both add. */
  lemma RefValStricter(mod: Node, n: Node)
    requires Quiet(Visit(RefVal(true), mod, n))
    ensures Visit(RefVal(false), mod, n) == Visit(RefVal(true), mod, n)
  {
    var hit := HeadIs(n, "fp_text");
    if hit == Ok(true) {
      var kind := Index(n, 1).value;
      if kind == Str("reference") || kind == Str("value") {
        var on := Index(Pick(n, "layer").value, 1).value;
        var fab := if on != Str("F.Fab") then [FabMsg] else [];
        assert |RefValErrors(true, mod, n).value| >= |fab|;
      }
    }
  }

  /** The width tests differ only in their message. */
  lemma LinesMessageOnly(layers: seq<string>, width: string, m1: string, m2: string, mod: Node, n: Node)
    requires Quiet(Visit(Lines(layers, width, m1), mod, n))
    ensures Visit(Lines(layers, width, m2), mod, n) == Visit(Lines(layers, width, m1), mod, n)
  {
    var hit := HeadIn(n, LineTypes);
    if hit == Ok(true) {
      var on := Index(Pick(n, "layer").value, 1).value;
      var w := Pick(n, "width").value;
      assert LineErrors(layers, width, m1, n) == LineValues(layers, width, m1, on, w);
      assert LineErrors(layers, width, m2, n) == LineValues(layers, width, m2, on, w);
    }
  }

  /** One rule passes a module whenever another does that is stricter on
      every child. */
  lemma CheckQuiet(r1: Rule, r2: Rule, mod: Node)
    requires r1.Courtyard? == r2.Courtyard?
    requires Elements(mod).Ok?
    requires forall k :: 0 <= k < |Elements(mod).value| && Quiet(Visit(r1, mod, Elements(mod).value[k]))
               ==> Visit(r2, mod, Elements(mod).value[k]) == Visit(r1, mod, Elements(mod).value[k])
    requires Check(r1, mod) == Ok([])
    ensures Check(r2, mod) == Ok([])
  {
    var cs := Elements(mod).value;
    var v1, v2 := Visitor(r1, mod), Visitor(r2, mod);
    var t := Sweep(v1, cs);
    assert t.Ok? && t.value.errs + (if r1.Courtyard? && !t.value.found then [NoCtydMsg] else []) == [];
    assert t.value.errs == [];
    SweepQuiet(v1, v2, cs);
  }

  /** Every footprint check_mod.py passes, fpcheck.py passes too. */
  lemma ModPassImpliesFpPass(mod: Node)
    requires Chain(ModRules, mod) == Ok([])
    ensures Chain(FpRules, mod) == Ok([])
  {
    ChainEmpty(ModRules, mod);
    ChainEmpty(FpRules, mod);
    assert Check(ModRules[0], mod) == Ok([]) && Check(ModRules[1], mod) == Ok([]);
    assert Check(ModRules[2], mod) == Ok([]) && Check(ModRules[4], mod) == Ok([]);
    assert Elements(mod).Ok?;
    forall n | Quiet(Visit(RefVal(true), mod, n)) ensures Visit(RefVal(false), mod, n) == Visit(RefVal(true), mod, n) {
      RefValStricter(mod, n);
    }
    CheckQuiet(RefVal(true), RefVal(false), mod);
    forall n | Quiet(Visit(SilkRule, mod, n)) ensures Visit(FpRules[2], mod, n) == Visit(SilkRule, mod, n) {
      LinesMessageOnly(SilkLayers, "0.15", SilkRule.message, SilkMsg, mod, n);
    }
    CheckQuiet(SilkRule, FpRules[2], mod);
  }
}
