/**
 * scripts/set3d.py: point the 3D model of every passive footprint on a
 * board at the KiCad library's STEP file for its package. The board is its
 * list of lines; one pass carries the current reference and package from
 * line to line and rewrites lines in place.
 */
module Set3d {
  import opened Py

  // ===========================================================================
  // The table of models and the lines written

  /** A STEP file of KiCad's 3D model library. */
  function Shape(lib: string, name: string): string
  {
    "${KISYS3DMOD}/" + lib + ".3dshapes/" + name + ".step"
  }

  /** KiCad's name for a chip package: its imperial and metric size codes. */
  function Chip(kind: string, imperial: string, metric: string): string
  {
    kind + "_" + imperial + "_" + metric + "Metric"
  }

  const Models: map<char, map<string, string>> := map[
    'R' := map[
      "agg:0402" := Shape("Resistor_SMD", Chip("R", "0402", "1005")),
      "agg:0603" := Shape("Resistor_SMD", Chip("R", "0603", "1608")),
      "agg:0805" := Shape("Resistor_SMD", Chip("R", "0805", "2012"))],
    'C' := map[
      "agg:0402" := Shape("Capacitor_SMD", Chip("C", "0402", "1005")),
      "agg:0603" := Shape("Capacitor_SMD", Chip("C", "0603", "1608")),
      "agg:0805" := Shape("Capacitor_SMD", Chip("C", "0805", "2012")),
      "agg:1206" := Shape("Capacitor_SMD", Chip("C", "1206", "3216"))],
    'L' := map[
      "agg:0603" := Shape("Inductor_SMD", Chip("L", "0603", "1608")),
      "agg:0805" := Shape("Inductor_SMD", Chip("L", "0805", "2012"))],
    'D' := map[
      "agg:0603-LED" := Shape("LED_SMD", Chip("LED", "0603", "1608") + "_Castellated")]]

  /** The texts the script looks for in a line: "(module", "(fp_text
      reference" and "(model". */
  const ModuleTag := "(module"
  const FpText := "(fp_text"
  const ReferenceTag := FpText + " " + "reference"
  const ModelTag := "(model"

  /** The line that closes a footprint. */
  const Close := "  )\n"

  /** The line that replaces an outdated model line. */
  function ModelLine(m: string): string
  {
    "    (model " + m + "\n"
  }

  /** ADD_MODEL_SPEC: a model block followed by the footprint's closing line. */
  function AddModelSpec(m: string): string
  {
    "    (model " + m + "\n      (at (xyz 0 0 0))\n      (scale (xyz 1 1 1))\n      (rotate (xyz 0 0 0))\n    )\n" + Close
  }

  /** MODELS[ref[0]][pkg], when both keys are there; ref[0] of an empty
      reference raises. */
  function Lookup(ref: string, pkg: Option<string>): Outcome<Option<string>>
  {
    if |ref| == 0 then Raise(IndexError)
    else if ref[0] in Models && pkg.Some? && pkg.value in Models[ref[0]] then Ok(Some(Models[ref[0]][pkg.value]))
    else Ok(None)
  }

  // ===========================================================================
  // One line

  /** The script clears ref after a model line it handled but not after a
      model it adds; Corrected clears it after both. */
  datatype Variant = AsWritten | Corrected

  /** The loop's variables between lines. */
  datatype State = State(ref: Option<string>, pkg: Option<string>, changed: bool)

  const Start := State(None, None, false)

  /** A "(module" line starts a footprint: no reference yet, the package is
      its second word. */
  function ModuleRule(st: State, line: string): Outcome<State>
  {
    if !Contains(line, ModuleTag) then Ok(st)
    else
      var words := SplitWs(line);
      if |words| < 2 then Raise(IndexError) else Ok(State(None, Some(words[1]), st.changed))
  }

  /** A "(fp_text reference" line names the footprint: its third word. */
  function ReferenceRule(st: State, line: string): Outcome<State>
  {
    if !Contains(line, ReferenceTag) then Ok(st)
    else
      var words := SplitWs(line);
      if |words| < 3 then Raise(IndexError) else Ok(State(Some(words[2]), st.pkg, st.changed))
  }

  /** A "(model" line of a known part is rewritten when it names another
      file, and the reference is then forgotten. Without a reference ref[0]
      is None[0], a TypeError. */
  function ModelRule(st: State, line: string): Outcome<(State, string)>
  {
    if !Contains(line, ModelTag) then Ok((st, line))
    else if st.ref.None? then Raise(TypeError)
    else
      var known :- Lookup(st.ref.value, st.pkg);
      if known.None? then Ok((st, line))
      else
        var words := SplitWs(line);
        if |words| < 2 then Raise(IndexError)
        else if words[1] != known.value then Ok((State(None, st.pkg, true), ModelLine(known.value)))
        else Ok((State(None, st.pkg, st.changed), line))
  }

  /** The closing line of a known part that still has its reference gets a
      model block. */
  function CloseRule(st: State, line: string, out: string, v: Variant): Outcome<(State, string)>
  {
    if st.ref.None? || line != Close then Ok((st, out))
    else
      var known :- Lookup(st.ref.value, st.pkg);
      if known.None? then Ok((st, out))
      else Ok((State(if v == Corrected then None else st.ref, st.pkg, true), AddModelSpec(known.value)))
  }

  /** The first two tests: which footprint the line belongs to. */
  function Tagged(st: State, line: string): Outcome<State>
  {
    var s1 :- ModuleRule(st, line);
    ReferenceRule(s1, line)
  }

  /** The four tests of the loop body, in order, on one line. */
  function Step(st: State, line: string, v: Variant): Outcome<(State, string)>
  {
    var s2 :- Tagged(st, line);
    var m :- ModelRule(s2, line);
    CloseRule(m.0, line, m.1, v)
  }

  /** The loop over the lines: the state after them and the rewritten lines.
      The first exception ends the pass. */
  function Run(ls: seq<string>, v: Variant): (r: Outcome<(State, seq<string>)>)
    ensures r.Ok? ==> |r.value.1| == |ls|
  {
    if |ls| == 0 then Ok((Start, []))
    else
      var p :- Run(ls[..|ls| - 1], v);
      var q :- Step(p.0, ls[|ls| - 1], v);
      Ok((q.0, p.1 + [q.1]))
  }

  // ===========================================================================
  // process_pcb

  /** The loop body on the loop's variables: the module and reference
      tests here, the model and closing-line tests in their own methods. */
  method RewriteLine(ref: Option<string>, pkg: Option<string>, changed: bool, line: string, v: Variant)
    returns (r: Outcome<(State, string)>)
    ensures r == Step(State(ref, pkg, changed), line, v)
  {
    ghost var st0 := State(ref, pkg, changed);
    var ref, pkg := ref, pkg;
    if Contains(line, ModuleTag) {
      var words := SplitWs(line);
      if |words| < 2 {
        return Raise(IndexError);
      }
      ref, pkg := None, Some(words[1]);
    }
    if Contains(line, ReferenceTag) {
      var words := SplitWs(line);
      if |words| < 3 {
        return Raise(IndexError);
      }
      ref := Some(words[2]);
    }
    assert Tagged(st0, line) == Ok(State(ref, pkg, changed));
    var m := ModelLineStep(State(ref, pkg, changed), line);
    if m.Raise? {
      return Raise(m.exc);
    }
    r := CloseLineStep(m.value.0, line, m.value.1, v);
  }

  /** The "(model" test of the loop body. */
  method ModelLineStep(st: State, line: string) returns (r: Outcome<(State, string)>)
    ensures r == ModelRule(st, line)
  {
    var ref, changed, out := st.ref, st.changed, line;
    if Contains(line, ModelTag) {
      if ref.None? {
        return Raise(TypeError);
      }
      var known := Lookup(ref.value, st.pkg);
      if known.Raise? {
        return Raise(known.exc);
      }
      if known.value.Some? {
        var words := SplitWs(line);
        if |words| < 2 {
          return Raise(IndexError);
        }
        if words[1] != known.value.value {
          out := ModelLine(known.value.value);
          changed := true;
        }
        ref := None;
      }
    }
    r := Ok((State(ref, st.pkg, changed), out));
  }

  /** The closing-line test of the loop body. */
  method CloseLineStep(st: State, line: string, out: string, v: Variant) returns (r: Outcome<(State, string)>)
    ensures r == CloseRule(st, line, out, v)
  {
    var ref, changed, out := st.ref, st.changed, out;
    if ref.Some? && line == Close {
      var known := Lookup(ref.value, st.pkg);
      if known.Raise? {
        return Raise(known.exc);
      }
      if known.value.Some? {
        out := AddModelSpec(known.value.value);
        changed := true;
        if v == Corrected {
          ref := None;
        }
      }
    }
    r := Ok((State(ref, st.pkg, changed), out));
  }

  /** process_pcb's loop over the board's lines, rewriting them in place;
      the result is `changed`, which decides whether the file is written. */
  method ProcessPcb(lines: array<string>, v: Variant) returns (r: Outcome<bool>)
    modifies lines
    ensures Run(old(lines[..]), v).Ok? ==>
              r == Ok(Run(old(lines[..]), v).value.0.changed) && lines[..] == Run(old(lines[..]), v).value.1
    ensures Run(old(lines[..]), v).Raise? ==> r == Raise(Run(old(lines[..]), v).exc)
  {
    ghost var orig := lines[..];
    var ref: Option<string> := None;
    var pkg: Option<string> := None;
    var changed := false;
    var idx := 0;
    while idx < lines.Length
      invariant 0 <= idx <= lines.Length && |orig| == lines.Length
      invariant Run(orig[..idx], v).Ok?
      invariant Run(orig[..idx], v).value.0 == State(ref, pkg, changed)
      invariant lines[..idx] == Run(orig[..idx], v).value.1 && lines[idx..] == orig[idx..]
    {
      assert orig[..idx + 1][..idx] == orig[..idx];
      assert lines[idx] == orig[idx] by {
        assert lines[idx..][0] == orig[idx..][0];
      }
      var step := RewriteLine(ref, pkg, changed, lines[idx], v);
      if step.Raise? {
        RunStops(orig, idx, v);
        return Raise(step.exc);
      }
      lines[idx] := step.value.1;
      ref, pkg, changed := step.value.0.ref, step.value.0.pkg, step.value.0.changed;
      assert lines[idx + 1..] == orig[idx + 1..] by {
        assert lines[idx + 1..] == old(lines[..])[idx + 1..];
      }
      idx := idx + 1;
    }
    assert orig[..idx] == orig;
    r := Ok(changed);
  }

  /** An exception at line k ends the pass with it. */
  lemma {:induction false} RunStops(ls: seq<string>, k: nat, v: Variant)
    requires k < |ls| && Run(ls[..k], v).Ok? && Step(Run(ls[..k], v).value.0, ls[k], v).Raise?
    ensures Run(ls, v) == Raise(Step(Run(ls[..k], v).value.0, ls[k], v).exc)
    decreases |ls|
  {
    if k < |ls| - 1 {
      assert ls[..|ls| - 1][..k] == ls[..k];
      RunStops(ls[..|ls| - 1], k, v);
    } else {
      assert ls[..k] == ls[..|ls| - 1];
    }
  }

  // ===========================================================================
  // What the pass does to a board

  /** The pass over a longer board extends the pass over its prefix. */
  lemma {:induction false} RunPrefix(ls: seq<string>, k: nat, v: Variant)
    requires k <= |ls| && Run(ls, v).Ok?
    ensures Run(ls[..k], v).Ok? && Run(ls[..k], v).value.1 == Run(ls, v).value.1[..k]
    decreases |ls|
  {
    if k < |ls| {
      assert ls[..|ls| - 1][..k] == ls[..k];
      RunPrefix(ls[..|ls| - 1], k, v);
    } else {
      assert ls[..k] == ls;
    }
  }

  /** Line k of the result is the step on line k from the state after the
      lines before it. */
  lemma RunAt(ls: seq<string>, k: nat, v: Variant)
    requires k < |ls| && Run(ls, v).Ok?
    ensures Run(ls[..k], v).Ok? && Step(Run(ls[..k], v).value.0, ls[k], v).Ok?
    ensures Run(ls[..k + 1], v).Ok? && Run(ls[..k + 1], v).value.0 == Step(Run(ls[..k], v).value.0, ls[k], v).value.0
    ensures Run(ls, v).value.1[k] == Step(Run(ls[..k], v).value.0, ls[k], v).value.1
  {
    RunPrefix(ls, k + 1, v);
    assert ls[..k + 1][..k] == ls[..k];
    assert ls[..k + 1][k] == ls[k];
  }

  /** Every model file in the table. */
  ghost predicate KnownModel(m: string)
  {
    exists c :: c in Models && m in Models[c].Values
  }

  /** A model file is one word: split() gives it back whole. */
  predicate IsWord(w: string)
  {
    |w| > 0 && forall i :: 0 <= i < |w| ==> !IsSpace(w[i])
  }

  /** Visible ASCII characters: none of those split() breaks on. */
  predicate Printable(w: string)
  {
    forall c :: c in w ==> '!' <= c <= '~'
  }

  lemma ShapePrintable(lib: string, name: string)
    requires Printable(lib) && Printable(name)
    ensures Printable(Shape(lib, name))
  {
    assert Printable("${KISYS3DMOD}/") && Printable(".3dshapes/") && Printable(".step");
  }

  lemma ChipPrintable(kind: string, imperial: string, metric: string)
    requires Printable(kind) && Printable(imperial) && Printable(metric)
    ensures Printable(Chip(kind, imperial, metric))
  {
    assert Printable("_") && Printable("Metric");
  }

  /** Each file of the table is printable, one class of part at a time. */
  lemma ResistorsPrintable(p: string)
    requires p in Models['R']
    ensures Printable(Models['R'][p])
  {
    assert Printable("Resistor_SMD") && Printable("R");
    var imperial := p[4..];
    assert Printable(imperial);
    var metric := if imperial == "0402" then "1005" else if imperial == "0603" then "1608" else "2012";
    ChipPrintable("R", imperial, metric);
    ShapePrintable("Resistor_SMD", Chip("R", imperial, metric));
  }

  lemma CapacitorsPrintable(p: string)
    requires p in Models['C']
    ensures Printable(Models['C'][p])
  {
    assert Printable("Capacitor_SMD") && Printable("C");
    var imperial := p[4..];
    assert Printable(imperial);
    var metric :=
      if imperial == "0402" then "1005" else if imperial == "0603" then "1608"
      else if imperial == "0805" then "2012" else "3216";
    ChipPrintable("C", imperial, metric);
    ShapePrintable("Capacitor_SMD", Chip("C", imperial, metric));
  }

  lemma InductorsPrintable(p: string)
    requires p in Models['L']
    ensures Printable(Models['L'][p])
  {
    assert Printable("Inductor_SMD") && Printable("L");
    var imperial := p[4..];
    assert Printable(imperial);
    var metric := if imperial == "0603" then "1608" else "2012";
    ChipPrintable("L", imperial, metric);
    ShapePrintable("Inductor_SMD", Chip("L", imperial, metric));
  }

  lemma DiodesPrintable(p: string)
    requires p in Models['D']
    ensures Printable(Models['D'][p])
  {
    assert Printable("LED_SMD") && Printable("LED") && Printable("0603") && Printable("1608");
    ChipPrintable("LED", "0603", "1608");
    assert Printable("_Castellated");
    ShapePrintable("LED_SMD", Chip("LED", "0603", "1608") + "_Castellated");
  }

  /** A printable string is one word. */
  lemma PrintableWord(w: string)
    requires |w| > 0 && Printable(w)
    ensures IsWord(w)
  {
    forall i | 0 <= i < |w|
      ensures !IsSpace(w[i])
    {
      assert w[i] in w;
    }
  }

  /** Every file of the table is a single word. */
  lemma KnownModelsAreWords(m: string)
    requires KnownModel(m)
    ensures IsWord(m)
  {
    var c :| c in Models && m in Models[c].Values;
    var p :| p in Models[c] && Models[c][p] == m;
    if c == 'R' {
      ResistorsPrintable(p);
    } else if c == 'C' {
      CapacitorsPrintable(p);
    } else if c == 'L' {
      InductorsPrintable(p);
    } else {
      DiodesPrintable(p);
    }
    PrintableWord(m);
  }

  /** A line the pass rewrote is a model line pointed at a file of the table,
      or a closing line that became a model block for such a file. */
  ghost predicate Edit(line: string, out: string)
  {
    exists m :: KnownModel(m) &&
      ((Contains(line, ModelTag) && out == ModelLine(m)) || (line == Close && out == AddModelSpec(m)))
  }

  lemma LookupKnown(ref: string, pkg: Option<string>)
    requires Lookup(ref, pkg).Ok? && Lookup(ref, pkg).value.Some?
    ensures KnownModel(Lookup(ref, pkg).value.value)
  {
    assert Models[ref[0]][pkg.value] in Models[ref[0]].Values;
  }

  /** The word that ends where a space begins. */
  lemma WordAtSpace(w: string, t: string)
    requires IsWord(w) && |t| > 0 && IsSpace(t[0])
    ensures WordAt(w + t) == w
  {
    assert (w + t)[..|w|] == w;
  }

  /** Leading spaces do not make words. */
  lemma {:induction false} SplitSkip(s: string, n: nat)
    requires n <= |s| && forall i :: 0 <= i < n ==> IsSpace(s[i])
    ensures SplitWs(s) == SplitWs(s[n..])
    decreases n
  {
    if n > 0 {
      SplitSkip(s[1..], n - 1);
      assert s[1..][n - 1..] == s[n..];
    }
  }

  /** The rewritten model line reads back as "(model" and the new file. */
  lemma SplitModelLine(m: string)
    requires IsWord(m)
    ensures SplitWs(ModelLine(m)) == [ModelTag, m]
  {
    var l := ModelLine(m);
    var rest := " " + m + "\n";
    assert l[4..] == ModelTag + rest;
    SplitSkip(l, 4);
    WordAtSpace(ModelTag, rest);
    assert (ModelTag + rest)[6..] == rest;
    assert rest[1..] == m + "\n";
    WordAtSpace(m, "\n");
    assert (m + "\n")[|m|..] == "\n";
    assert SplitWs("\n"[1..]) == [];
    assert SplitWs("\n") == [];
    assert SplitWs(m + "\n") == [m] + SplitWs("\n");
    assert SplitWs(rest) == SplitWs(m + "\n");
    assert SplitWs(ModelTag + rest) == [ModelTag] + SplitWs(rest);
  }

  /** A step edits its line exactly when it turns `changed` on, once on
      stays on, and every edit is one of the two kinds. */
  lemma StepChange(st: State, line: string, v: Variant)
    requires Step(st, line, v).Ok?
    ensures st.changed ==> Step(st, line, v).value.0.changed
    ensures !st.changed ==> (Step(st, line, v).value.0.changed <==> Step(st, line, v).value.1 != line)
    ensures Step(st, line, v).value.1 != line ==> Edit(line, Step(st, line, v).value.1)
  {
    var s2 := Tagged(st, line).value;
    var m := ModelRule(s2, line).value;
    if Contains(line, ModelTag) && Lookup(s2.ref.value, s2.pkg).value.Some? {
      var known := Lookup(s2.ref.value, s2.pkg).value.value;
      LookupKnown(s2.ref.value, s2.pkg);
      KnownModelsAreWords(known);
      if SplitWs(line)[1] != known {
        SplitModelLine(known);
        assert m.1 == ModelLine(known) != line;
      }
    }
    if m.0.ref.Some? && line == Close && Lookup(m.0.ref.value, m.0.pkg).value.Some? {
      LookupKnown(m.0.ref.value, m.0.pkg);
      assert |AddModelSpec(Lookup(m.0.ref.value, m.0.pkg).value.value)| > |Close|;
    }
  }

  /** Every line the pass rewrites is one of the two kinds of edit, and
      nothing else changes: the board keeps its length. */
  lemma RunEdits(ls: seq<string>, v: Variant)
    requires Run(ls, v).Ok?
    ensures |Run(ls, v).value.1| == |ls|
    ensures forall k :: 0 <= k < |ls| && Run(ls, v).value.1[k] != ls[k] ==> Edit(ls[k], Run(ls, v).value.1[k])
  {
    forall k | 0 <= k < |ls| && Run(ls, v).value.1[k] != ls[k]
      ensures Edit(ls[k], Run(ls, v).value.1[k])
    {
      RunAt(ls, k, v);
      StepChange(Run(ls[..k], v).value.0, ls[k], v);
    }
  }

  /** process_pcb writes the file exactly when some line was replaced. */
  lemma {:induction false} ChangedIffEdited(ls: seq<string>, v: Variant)
    requires Run(ls, v).Ok?
    ensures Run(ls, v).value.0.changed <==> Run(ls, v).value.1 != ls
    decreases |ls|
  {
    if |ls| > 0 {
      var init := ls[..|ls| - 1];
      ChangedIffEdited(init, v);
      var p := Run(init, v).value;
      StepChange(p.0, ls[|ls| - 1], v);
      var q := Step(p.0, ls[|ls| - 1], v).value;
      assert ls == init + [ls[|ls| - 1]];
      ChangedSnoc(init, p.1, ls[|ls| - 1], q.1, p.0.changed, q.0.changed);
    }
  }

  /** The flag after one more line follows the lines so far and the last one. */
  lemma ChangedSnoc(init: seq<string>, out: seq<string>, line: string, last: string, before: bool, after: bool)
    requires |out| == |init| && (before <==> out != init)
    requires before ==> after
    requires !before ==> (after <==> last != line)
    ensures after <==> out + [last] != init + [line]
  {
    if out != init {
      assert (out + [last])[..|init|] == out;
    } else if last != line {
      assert (out + [last])[|init|] == last;
    }
  }

  /** A reference set after line k2 but not after line k1 was read from a
      "(fp_text reference" line between them. */
  lemma {:induction false} RefOrigin(ls: seq<string>, k1: nat, k2: nat, v: Variant)
    requires k1 <= k2 <= |ls| && Run(ls[..k2], v).Ok? && Run(ls[..k1], v).Ok?
    requires Run(ls[..k1], v).value.0.ref.None? && Run(ls[..k2], v).value.0.ref.Some?
    ensures exists j :: k1 <= j < k2 && Contains(ls[j], ReferenceTag)
    decreases k2
  {
    var pre := ls[..k2];
    assert k1 < k2;
    RunAt(pre, k2 - 1, v);
    assert pre[..k2 - 1] == ls[..k2 - 1] && pre[..k2] == pre;
    if !Contains(ls[k2 - 1], ReferenceTag) {
      RefOrigin(ls, k1, k2 - 1, v);
    }
  }

  /** A "(model" line met before any "(fp_text reference" line ends the pass
      with a TypeError (a line that also holds "(module" may raise an
      IndexError first). */
  lemma NoReferenceRaises(ls: seq<string>, k: nat, v: Variant)
    requires k < |ls| && Run(ls[..k], v).Ok? && Contains(ls[k], ModelTag) && !Contains(ls[k], ModuleTag)
    requires forall j :: 0 <= j <= k ==> !Contains(ls[j], ReferenceTag)
    ensures Run(ls, v) == Raise(TypeError)
  {
    assert ls[..0] == [];
    if Run(ls[..k], v).value.0.ref.Some? {
      RefOrigin(ls, 0, k, v);
    }
    assert Tagged(Run(ls[..k], v).value.0, ls[k]) == Ok(Run(ls[..k], v).value.0);
    RunStops(ls, k, v);
  }

  /** The state entering the model test names a part of the table. */
  predicate KnownPart(st: State)
  {
    st.ref.Some? && Lookup(st.ref.value, st.pkg).Ok? && Lookup(st.ref.value, st.pkg).value.Some?
  }

  /** A model line of a known part: rewritten or confirmed, it is handled. */
  predicate Handles(st: State, line: string)
  {
    Contains(line, ModelTag) && Tagged(st, line).Ok? && KnownPart(Tagged(st, line).value)
  }

  /** A closing line the pass turned into a model block. */
  predicate Added(ls: seq<string>, out: seq<string>, k: int)
  {
    0 <= k < |ls| && k < |out| && ls[k] == Close && out[k] != ls[k]
  }

  /** The closing line passes the first three tests untouched, so only the
      last one acts on it. */
  lemma CloseOnlyLast(st: State, v: Variant)
    ensures Step(st, Close, v) == CloseRule(st, Close, Close, v)
  {
    assert !Contains(Close, ModuleTag) && !Contains(Close, ReferenceTag) && !Contains(Close, ModelTag);
  }

  /** A handled model line clears the reference. */
  lemma HandledClears(ls: seq<string>, k: nat, v: Variant)
    requires k < |ls| && Run(ls, v).Ok? && Run(ls[..k], v).Ok? && Handles(Run(ls[..k], v).value.0, ls[k])
    ensures Run(ls[..k + 1], v).Ok? && Run(ls[..k + 1], v).value.0.ref.None?
  {
    RunAt(ls, k, v);
  }

  /** A model block is only added while a reference is set. */
  lemma AddedNeedsRef(ls: seq<string>, k: nat, v: Variant)
    requires k < |ls| && Run(ls, v).Ok? && Added(ls, Run(ls, v).value.1, k)
    ensures Run(ls[..k], v).Ok? && Run(ls[..k], v).value.0.ref.Some?
  {
    RunAt(ls, k, v);
    CloseOnlyLast(Run(ls[..k], v).value.0, v);
  }

  /** A footprint whose model line was handled is not given a second model:
      a model block added later belongs to a footprint named by a later
      reference line. */
  lemma ModelThenAdd(ls: seq<string>, k1: nat, k2: nat, v: Variant)
    requires k1 < k2 < |ls| && Run(ls, v).Ok? && Run(ls[..k1], v).Ok?
    requires Handles(Run(ls[..k1], v).value.0, ls[k1]) && Added(ls, Run(ls, v).value.1, k2)
    ensures exists j :: k1 < j < k2 && Contains(ls[j], ReferenceTag)
  {
    HandledClears(ls, k1, v);
    AddedNeedsRef(ls, k2, v);
    RunPrefix(ls, k2, v);
    RefOrigin(ls, k1 + 1, k2, v);
  }

  /** With the reference cleared after an addition, two model blocks always
      belong to two reference lines. */
  lemma CorrectedAddsOnce(ls: seq<string>, k1: nat, k2: nat)
    requires k1 < k2 < |ls| && Run(ls, Corrected).Ok?
    requires Added(ls, Run(ls, Corrected).value.1, k1) && Added(ls, Run(ls, Corrected).value.1, k2)
    ensures exists j :: k1 < j < k2 && Contains(ls[j], ReferenceTag)
  {
    RunAt(ls, k1, Corrected);
    CloseOnlyLast(Run(ls[..k1], Corrected).value.0, Corrected);
    AddedNeedsRef(ls, k2, Corrected);
    RunPrefix(ls, k2, Corrected);
    RefOrigin(ls, k1 + 1, k2, Corrected);
  }

  // ===========================================================================
  // The reference kept after an added model

  /** The pass over one more line. */
  lemma RunSnoc(ls: seq<string>, l: string, v: Variant)
    requires Run(ls, v).Ok? && Step(Run(ls, v).value.0, l, v).Ok?
    ensures Run(ls + [l], v) == Ok((Step(Run(ls, v).value.0, l, v).value.0, Run(ls, v).value.1 + [Step(Run(ls, v).value.0, l, v).value.1]))
  {
    assert (ls + [l])[..|ls|] == ls;
  }

  /** A pattern whose first character appears only at the head of s, and
      does not match there, is not in s. */
  lemma NotAfterHead(s: string, sub: string, k: nat)
    requires 0 < |sub| && 0 < |s| && sub[0] !in s[1..] && k < |sub| && (|s| <= k || s[k] != sub[k])
    ensures !Contains(s, sub)
  {
  }

  /** A word followed by a space, and what follows. */
  lemma SplitCons(w: string, t: string)
    requires IsWord(w) && |t| > 0 && IsSpace(t[0])
    ensures SplitWs(w + t) == [w] + SplitWs(t[1..])
  {
    WordAtSpace(w, t);
    assert (w + t)[|w|..] == t;
  }

  /** A word that ends its line. */
  lemma SplitLast(w: string)
    requires IsWord(w)
    ensures SplitWs(w + "\n") == [w]
  {
    SplitCons(w, "\n");
    assert "\n"[1..] == [];
  }

  /** The line that opens a footprint of a package. */
  function ModuleOf(pkg: string): string { ModuleTag + (" " + (pkg + "\n")) }

  /** The line that names a footprint. */
  function ReferenceOf(ref: string): string { FpText + (" " + ("reference" + (" " + (ref + "\n")))) }

  /** The line that opens a zone. */
  const ZoneLine := "(zone\n"

  /** A word that opens no item of its own. */
  predicate Plain(w: string) { IsWord(w) && '(' !in w }

  /** How the script reads a footprint's opening line. */
  lemma ModuleWords(pkg: string)
    requires Plain(pkg)
    ensures SplitWs(ModuleOf(pkg)) == [ModuleTag, pkg]
  {
    assert Printable(ModuleTag);
    PrintableWord(ModuleTag);
    SplitLast(pkg);
    SplitCons(ModuleTag, " " + (pkg + "\n"));
  }

  lemma ModuleText(pkg: string)
    requires Plain(pkg)
    ensures SplitWs(ModuleOf(pkg)) == [ModuleTag, pkg]
    ensures Contains(ModuleOf(pkg), ModuleTag)
    ensures !Contains(ModuleOf(pkg), ReferenceTag) && !Contains(ModuleOf(pkg), ModelTag)
  {
    ModuleWords(pkg);
    var l := ModuleOf(pkg);
    var t := " " + (pkg + "\n");
    assert l[..|ModuleTag|] == ModuleTag;
    assert OccursAt(l, ModuleTag, 0);
    assert '(' !in l[1..] by {
      assert l[1..] == ModuleTag[1..] + t;
      assert '(' !in ModuleTag[1..];
    }
    NotAfterHead(l, ReferenceTag, 1);
    NotAfterHead(l, ModelTag, 4);
  }

  lemma ModuleLineStep(st: State, pkg: string, v: Variant)
    requires Plain(pkg)
    ensures Step(st, ModuleOf(pkg), v) == Ok((State(None, Some(pkg), st.changed), ModuleOf(pkg)))
  {
    ModuleText(pkg);
    assert |ModuleOf(pkg)| > |Close|;
  }

  /** How the script splits a footprint's reference line. */
  lemma ReferenceWords(ref: string)
    requires Plain(ref)
    ensures SplitWs(ReferenceOf(ref)) == [FpText, "reference", ref]
  {
    SplitLast(ref);
    assert Printable(FpText) && Printable("reference");
    PrintableWord(FpText);
    PrintableWord("reference");
    var t2 := " " + (ref + "\n");
    SplitCons("reference", t2);
    var t1 := " " + ("reference" + t2);
    SplitCons(FpText, t1);
  }

  /** Three pieces in front of the rest. */
  lemma PrefixOf3(a: string, b: string, c: string, d: string)
    ensures (a + (b + (c + d)))[..|a + b + c|] == a + b + c
  {
  }

  /** How the script reads a footprint's reference line. */
  lemma ReferenceText(ref: string)
    requires Plain(ref)
    ensures SplitWs(ReferenceOf(ref)) == [FpText, "reference", ref]
    ensures Contains(ReferenceOf(ref), ReferenceTag)
    ensures !Contains(ReferenceOf(ref), ModuleTag) && !Contains(ReferenceOf(ref), ModelTag)
  {
    ReferenceWords(ref);
    var l := ReferenceOf(ref);
    var t1 := " " + ("reference" + (" " + (ref + "\n")));
    PrefixOf3(FpText, " ", "reference", " " + (ref + "\n"));
    assert OccursAt(l, ReferenceTag, 0);
    assert '(' !in l[1..] by {
      assert l[1..] == FpText[1..] + t1;
      assert '(' !in FpText[1..] && '(' !in "reference";
    }
    NotAfterHead(l, ModuleTag, 1);
    NotAfterHead(l, ModelTag, 1);
  }

  lemma ReferenceLineStep(st: State, ref: string, v: Variant)
    requires Plain(ref)
    ensures Step(st, ReferenceOf(ref), v) == Ok((State(Some(ref), st.pkg, st.changed), ReferenceOf(ref)))
  {
    ReferenceText(ref);
    assert |ReferenceOf(ref)| > |Close|;
  }

  lemma ZoneLineStep(st: State, v: Variant)
    ensures Step(st, ZoneLine, v) == Ok((st, ZoneLine))
    ensures !Contains(ZoneLine, ReferenceTag)
  {
    assert '(' !in ZoneLine[1..];
    NotAfterHead(ZoneLine, ModuleTag, 1);
    NotAfterHead(ZoneLine, ReferenceTag, 1);
    NotAfterHead(ZoneLine, ModelTag, 1);
  }

  /** A footprint of a known part without a model line, followed by a zone
      whose closing line also reads "  )". */
  function BoardOf(ref: string, pkg: string): seq<string>
  {
    [ModuleOf(pkg), ReferenceOf(ref), Close, ZoneLine, Close]
  }

  /** The pass up to the footprint's reference line. */
  lemma BoardHead(ref: string, pkg: string, v: Variant)
    requires Plain(ref) && Plain(pkg)
    ensures Run([ModuleOf(pkg), ReferenceOf(ref)], v) == Ok((State(Some(ref), Some(pkg), false), [ModuleOf(pkg), ReferenceOf(ref)]))
  {
    var p0: seq<string> := [];
    assert Run(p0, v) == Ok((Start, []));
    ModuleLineStep(Start, pkg, v);
    RunSnoc(p0, ModuleOf(pkg), v);
    ReferenceLineStep(State(None, Some(pkg), false), ref, v);
    RunSnoc([ModuleOf(pkg)], ReferenceOf(ref), v);
    assert [ModuleOf(pkg)] + [ReferenceOf(ref)] == [ModuleOf(pkg), ReferenceOf(ref)];
  }

  /** The pass up to the footprint's closing line, which gets the model. */
  lemma BoardClose(ref: string, pkg: string, v: Variant)
    requires Plain(ref) && Plain(pkg) && Lookup(ref, Some(pkg)).Ok? && Lookup(ref, Some(pkg)).value.Some?
    ensures Run([ModuleOf(pkg), ReferenceOf(ref), Close], v)
         == Ok((State(if v == Corrected then None else Some(ref), Some(pkg), true),
                [ModuleOf(pkg), ReferenceOf(ref), AddModelSpec(Lookup(ref, Some(pkg)).value.value)]))
  {
    var hd := [ModuleOf(pkg), ReferenceOf(ref)];
    BoardHead(ref, pkg, v);
    CloseOnlyLast(State(Some(ref), Some(pkg), false), v);
    RunSnoc(hd, Close, v);
    assert hd + [Close] == [ModuleOf(pkg), ReferenceOf(ref), Close];
    assert hd + [AddModelSpec(Lookup(ref, Some(pkg)).value.value)]
        == [ModuleOf(pkg), ReferenceOf(ref), AddModelSpec(Lookup(ref, Some(pkg)).value.value)];
  }

  /** The pass over such a board, in either variant: the zone's closing line
      gets a model block as written, and stays as it is when corrected. */
  lemma BoardRun(ref: string, pkg: string, v: Variant)
    requires Plain(ref) && Plain(pkg) && Lookup(ref, Some(pkg)).Ok? && Lookup(ref, Some(pkg)).value.Some?
    ensures var m := Lookup(ref, Some(pkg)).value.value;
      Run(BoardOf(ref, pkg), v) == Ok((State(if v == Corrected then None else Some(ref), Some(pkg), true),
                                       [ModuleOf(pkg), ReferenceOf(ref), AddModelSpec(m), ZoneLine,
                                        if v == Corrected then Close else AddModelSpec(m)]))
  {
    var m := Lookup(ref, Some(pkg)).value.value;
    var st := State(if v == Corrected then None else Some(ref), Some(pkg), true);
    var p4 := [ModuleOf(pkg), ReferenceOf(ref), Close] + [ZoneLine];
    var last := if v == Corrected then Close else AddModelSpec(m);
    BoardZone(ref, pkg, v);
    CloseAgain(ref, pkg, v);
    RunSnoc(p4, Close, v);
    ThreeThenTwo(ModuleOf(pkg), ReferenceOf(ref), Close, ZoneLine, Close);
    ThreeThenTwo(ModuleOf(pkg), ReferenceOf(ref), AddModelSpec(m), ZoneLine, last);
  }

  /** The pass up to the zone's closing line. */
  lemma BoardZone(ref: string, pkg: string, v: Variant)
    requires Plain(ref) && Plain(pkg) && Lookup(ref, Some(pkg)).Ok? && Lookup(ref, Some(pkg)).value.Some?
    ensures Run([ModuleOf(pkg), ReferenceOf(ref), Close] + [ZoneLine], v)
         == Ok((State(if v == Corrected then None else Some(ref), Some(pkg), true),
                [ModuleOf(pkg), ReferenceOf(ref), AddModelSpec(Lookup(ref, Some(pkg)).value.value)] + [ZoneLine]))
  {
    BoardClose(ref, pkg, v);
    ZoneLineStep(State(if v == Corrected then None else Some(ref), Some(pkg), true), v);
    RunSnoc([ModuleOf(pkg), ReferenceOf(ref), Close], ZoneLine, v);
  }

  /** The second closing line: a model block again as written, unchanged when corrected. */
  lemma CloseAgain(ref: string, pkg: string, v: Variant)
    requires Lookup(ref, Some(pkg)).Ok? && Lookup(ref, Some(pkg)).value.Some?
    ensures var st := State(if v == Corrected then None else Some(ref), Some(pkg), true);
            Step(st, Close, v) == Ok((st, if v == Corrected then Close else AddModelSpec(Lookup(ref, Some(pkg)).value.value)))
  {
    CloseOnlyLast(State(if v == Corrected then None else Some(ref), Some(pkg), true), v);
  }

  lemma ThreeThenTwo<T>(a: T, b: T, c: T, d: T, e: T)
    ensures [a, b, c] + [d] + [e] == [a, b, c, d, e]
  {
  }

  /** As written, R1 in an 0402 package followed by a zone gets two model
      blocks with no reference line between them, which CorrectedAddsOnce
      rules out. */
  lemma AsWrittenAddsTwice()
    ensures Run(BoardOf("R1", "agg:0402"), AsWritten).Ok?
    ensures Added(BoardOf("R1", "agg:0402"), Run(BoardOf("R1", "agg:0402"), AsWritten).value.1, 2)
    ensures Added(BoardOf("R1", "agg:0402"), Run(BoardOf("R1", "agg:0402"), AsWritten).value.1, 4)
    ensures !Contains(BoardOf("R1", "agg:0402")[3], ReferenceTag)
  {
    assert Printable("R1") && Printable("agg:0402");
    PrintableWord("R1");
    PrintableWord("agg:0402");
    BoardRun("R1", "agg:0402", AsWritten);
    ZoneLineStep(Start, AsWritten);
    assert |AddModelSpec(Models['R']["agg:0402"])| > |Close|;
  }
}
