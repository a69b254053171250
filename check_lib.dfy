/**
 * scripts/check_lib.py: the consistency rules for one-symbol legacy
 * libraries. Each check appends to the caller's error list; checklib passes
 * iff the list stays empty. The existence of the .dcm file and of an `agg:`
 * footprint are inputs.
 */
module CheckLib {
  import opened Py
  import opened LibText

  /** The text checklib prints for an error. The two set messages list their
      items in an order Python leaves open, so only their fixed words are
      given here. */
  function Text(e: Err): string
  {
    match e
    case NoDcm => "No corresponding DCM found"
    case ManyDefs => "Found more than one component in library"
    case NoDefs => "Did not find any components in library"
    case NameMismatch(part, lib) => "Part name '" + part + "' does not match library name '" + lib + "'"
    case OffGrid(pin) => "Pin '" + pin + "' not on 100mil grid"
    case BadLength(pin) => "Pin '" + pin + "' not 100 or 150mil long, but part is IC or U"
    case BadFontSize(pin) => "Pin '" + pin + "' font size not 50mil"
    case MissingPins(_) => "Missing pins "
    case DuplicatedPins(_) => "Duplicated pins "
    case NoFilledBox => "No background-filled box/poly found, but part is IC"
    case FieldHidden(f) => "Field " + f + " not visible"
    case FieldShown(f) => "Field " + f + " visible"
    case FieldVertical(f) => "Field " + f + " not horizontal"
    case FieldSize(f) => "Field " + f + " font size not 50"
    case RefNotAbove => "Component reference not above component name"
    case MissingFootprint(file) => "Component references non-existent footprint " + file
    case NoFootprintLibrary(fp) => "Footprint '" + fp + "' does not specify a library name"
  }

  // ---------------------------------------------------------------------------
  // checkpins

  predicate IcOrU(designator: string) { designator == "IC" || designator == "U" }

  /** The three rules for one pin. Each `or` and `and` short-circuits, so a
      later int() is only reached, and can only raise, when the earlier test
      did not decide. */
  function PinErrors(p: Pin, designator: string): Outcome<seq<Err>>
  {
    var x :- ParseInt(p.x);
    var offGrid :- if x % 100 != 0 then Ok(true) else (var y :- ParseInt(p.y); Ok(y % 100 != 0));
    var badLength :- if IcOrU(designator) then (var l :- ParseInt(p.length); Ok(l != 100 && l != 150)) else Ok(false);
    var nameSize :- ParseInt(p.nameSize);
    var badFont :- if nameSize != 50 then Ok(true) else (var numSize :- ParseInt(p.numSize); Ok(numSize != 50 && IsDigits(p.num)));
    Ok((if offGrid then [OffGrid(p.name)] else []) + (if badLength then [BadLength(p.name)] else [])
       + (if badFont then [BadFontSize(p.name)] else []))
  }

  /** `set([x for x in nums if nums.count(x) > 1])`: the numbers at two
      positions. */
  function Duplicates(nums: seq<nat>): (r: set<nat>)
    ensures forall k :: k in r <==> exists i, j :: 0 <= i < j < |nums| && nums[i] == k && nums[j] == k
  {
    var d := set x | x in nums && multiset(nums)[x] > 1;
    assert forall k :: k in d <==> multiset(nums)[k] > 1 by {
      forall k ensures k in d <==> multiset(nums)[k] > 1 {
        if multiset(nums)[k] > 1 {
          assert k in multiset(nums);
        }
      }
    }
    forall k ensures multiset(nums)[k] > 1 <==> exists i, j :: 0 <= i < j < |nums| && nums[i] == k && nums[j] == k {
      CountTwo(nums, k);
    }
    d
  }

  /** The closing tests of checkpins on the collected numbers. */
  function NumberErrors(nums: seq<nat>): seq<Err>
  {
    if |nums| == 0 then []
    else
      var expected := Range(SeqMin(nums), SeqMax(nums));
      var present := Present(nums);
      (if present != expected then [MissingPins(expected - present)] else [])
      + (if Duplicates(nums) != {} then [DuplicatedPins(Duplicates(nums))] else [])
  }

  /** The per-pin rule for a part, as a value the loop applies. */
  function PinRule(designator: string): Pin -> Outcome<seq<Err>>
  {
    p => PinErrors(p, designator)
  }

  function PinsErrors(pins: seq<Pin>, designator: string): Outcome<seq<Err>>
  {
    var (errs, nums) :- PinScan(pins, PinRule(designator));
    Ok(errs + NumberErrors(nums))
  }

  /** checkpins: the loop over the pin lines, then the numbering tests. */
  method CheckPins(contents: string, designator: string, errs: seq<Err>) returns (r: Outcome<seq<Err>>)
    ensures r == After(errs, PinsErrors(FindAll(Lines(contents), PinOf), designator))
  {
    var pins := FindAll(Lines(contents), PinOf);
    var scanned := ScanPins(pins, PinRule(designator), errs);
    if scanned.Raise? {
      return Raise(scanned.exc);
    }
    var (acc, nums) := scanned.value;
    ghost var found := PinScan(pins, PinRule(designator)).value;
    assert acc == errs + found.0 && nums == found.1;
    assert acc + NumberErrors(nums) == errs + (found.0 + NumberErrors(found.1));
    return Ok(acc + NumberErrors(nums));
  }

  /** Each pin rule, stated on the pin's fields. */
  lemma PinRules(p: Pin, designator: string)
    requires PinErrors(p, designator).Ok?
    ensures var e := PinErrors(p, designator).value;
            var x := ParseInt(p.x).value;
            (OffGrid(p.name) in e <==> x % 100 != 0 || ParseInt(p.y).value % 100 != 0)
            && (BadLength(p.name) in e <==> IcOrU(designator) && ParseInt(p.length).value !in {100, 150})
            && (BadFontSize(p.name) in e
                <==> ParseInt(p.nameSize).value != 50 || (ParseInt(p.numSize).value != 50 && IsDigits(p.num)))
            && |e| <= 3
  {
  }

  /** A count above one means two positions hold the value. */
  lemma {:induction false} CountTwo(s: seq<nat>, x: nat)
    ensures multiset(s)[x] > 1 <==> exists i, j :: 0 <= i < j < |s| && s[i] == x && s[j] == x
    decreases |s|
  {
    if |s| > 0 {
      var t := s[..|s| - 1];
      assert s == t + [s[|s| - 1]];
      CountTwo(t, x);
      if s[|s| - 1] == x && multiset(t)[x] == 1 {
        assert x in multiset(t);
        var i :| 0 <= i < |t| && t[i] == x;
        assert s[i] == x && s[|s| - 1] == x;
      }
      if exists i, j :: 0 <= i < j < |s| && s[i] == x && s[j] == x {
        var i, j :| 0 <= i < j < |s| && s[i] == x && s[j] == x;
        if j < |s| - 1 {
          assert t[i] == x && t[j] == x;
        } else {
          assert t[i] == x;
          assert x in multiset(t);
        }
      }
    }
  }

  lemma NoGaps(nums: seq<nat>)
    requires |nums| > 0
    ensures Gaps(nums) == {} <==> forall k :: SeqMin(nums) <= k <= SeqMax(nums) ==> k in nums
  {
    if Gaps(nums) != {} {
      var x :| x in Gaps(nums);
    }
  }

  lemma NoDuplicates(nums: seq<nat>)
    ensures Duplicates(nums) == {} <==> forall i, j :: 0 <= i < j < |nums| ==> nums[i] != nums[j]
  {
    if Duplicates(nums) != {} {
      var x :| x in Duplicates(nums);
    }
    forall i, j | 0 <= i < j < |nums| && nums[i] == nums[j] ensures nums[i] in Duplicates(nums) {
    }
  }

  /** No numbering message iff the numeric pins are each min..max exactly once. */
  lemma NumberingPasses(nums: seq<nat>)
    requires |nums| > 0
    ensures NumberErrors(nums) == [] <==>
              (forall k :: SeqMin(nums) <= k <= SeqMax(nums) ==> k in nums)
              && (forall i, j :: 0 <= i < j < |nums| ==> nums[i] != nums[j])
  {
    NoGaps(nums);
    NoDuplicates(nums);
  }

  /** The missing set is exactly the gaps, and the duplicated set exactly
      the numbers that occur twice. */
  lemma NumberMessages(nums: seq<nat>)
    requires |nums| > 0
    ensures forall e :: e in NumberErrors(nums) ==> e.MissingPins? || e.DuplicatedPins?
    ensures forall m :: MissingPins(m) in NumberErrors(nums) ==> m == Gaps(nums)
    ensures forall d :: DuplicatedPins(d) in NumberErrors(nums) ==> d == Duplicates(nums)
  {
    assert Range(SeqMin(nums), SeqMax(nums)) - Present(nums) == Gaps(nums);
  }

  // ---------------------------------------------------------------------------
  // checkboxes

  /** checkboxes: an IC needs a box or polyline whose fill is "f". */
  function CheckBoxes(contents: string, designator: string): (r: seq<Err>)
    ensures r == [] || r == [NoFilledBox]
    ensures r == [NoFilledBox] <==>
              designator == "IC" && forall k :: 0 <= k < |Lines(contents)| ==> FillOf(Lines(contents)[k]) != Some('f')
  {
    var boxes := FindAll(Lines(contents), FillOf);
    FindAllMembers(Lines(contents), FillOf, 'f');
    if designator == "IC" && 'f' !in boxes then [NoFilledBox] else []
  }

  // ---------------------------------------------------------------------------
  // checkfields

  /** The rules for one field line named fn. */
  function FieldErrors(fn: string, f: Field, contents: string): (r: seq<Err>)
  {
    (if fn == "reference" || fn == "name"
     then (if f.visible != 'V' && !Contains(contents, "#invisible" + fn) then [FieldHidden(fn)] else [])
     else (if f.visible != 'I' then [FieldShown(fn)] else []))
    + (if f.orient != 'H' then [FieldVertical(fn)] else [])
    + (if f.size != "50" then [FieldSize(fn)] else [])
  }

  /** The rule for the lines of one field kind, as a value the loop applies. */
  function FieldRule(fn: string, contents: string): Field -> seq<Err>
  {
    f => FieldErrors(fn, f, contents)
  }

  function Rows(fs: seq<Field>, rule: Field -> seq<Err>): seq<Err>
    decreases |fs|
  {
    if |fs| == 0 then [] else Rows(fs[..|fs| - 1], rule) + rule(fs[|fs| - 1])
  }

  /** The five field kinds, with the matches of each, in checkfields' order. */
  function FieldGroups(contents: string): seq<(seq<Field>, string)>
  {
    var lines := Lines(contents);
    [(FindAll(lines, l => FieldOf(RefTags, l)), "reference"), (FindAll(lines, l => FieldOf(NameTags, l)), "name"),
     (FindAll(lines, l => FieldOf(FootprintTags, l)), "footprint"),
     (FindAll(lines, l => FieldOf(DatasheetTags, l)), "datasheet"),
     (FindAll(lines, l => FieldOf(OrderCodeTags, l)), "order code")]
  }

  function Groups(gs: seq<(seq<Field>, string)>, contents: string): seq<Err>
    decreases |gs|
  {
    if |gs| == 0 then [] else Groups(gs[..|gs| - 1], contents) + Rows(gs[|gs| - 1].0, FieldRule(gs[|gs| - 1].1, contents))
  }

  /** The inner loop of checkfields over the lines of one kind. */
  method CheckRows(rows: seq<Field>, rule: Field -> seq<Err>, errs: seq<Err>) returns (acc: seq<Err>)
    ensures acc == errs + Rows(rows, rule)
  {
    acc := errs;
    var i := 0;
    while i < |rows|
      invariant 0 <= i <= |rows|
      invariant acc == errs + Rows(rows[..i], rule)
    {
      assert rows[..i + 1][..i] == rows[..i];
      acc := acc + rule(rows[i]);
      i := i + 1;
    }
    assert rows[..i] == rows;
  }

  /** `s[1:-1]`. */
  function Unquote(s: string): (r: string)
    ensures |s| >= 2 ==> r == s[1..|s| - 1]
    ensures |s| < 2 ==> r == ""
  {
    if |s| >= 2 then s[1..|s| - 1] else ""
  }

  /** The footprint rule: an `agg:` footprint must exist in the footprint
      directory; any other non-empty one must name its library. */
  function FootprintErrors(fp: string, footprintExists: string -> bool): (r: seq<Err>)
  {
    if StartsWith(fp, "agg:") then
      // fp.split(":")[1]: the text between the first colon, at index 3, and the next
      var file := Before(fp[4..], ':') + ".kicad_mod";
      if !footprintExists(file) then [MissingFootprint(file)] else []
    else if |fp| > 0 && ':' !in fp then [NoFootprintLibrary(fp)]
    else []
  }

  /** The end of checkfields: the first reference, name and footprint lines
      must exist and their numbers must parse. */
  function FieldTail(contents: string, footprintExists: string -> bool): Outcome<seq<Err>>
  {
    var gs := FieldGroups(contents);
    var refs, names, foots := gs[0].0, gs[1].0, gs[2].0;
    if |refs| == 0 then Raise(IndexError)
    else
      var refY :- ParseInt(refs[0].y);
      if |names| == 0 then Raise(IndexError)
      else
        var nameY :- ParseInt(names[0].y);
        if |foots| == 0 then Raise(IndexError)
        else Ok((if refY <= nameY then [RefNotAbove] else []) + FootprintErrors(Unquote(foots[0].value), footprintExists))
  }

  function FieldsErrors(contents: string, footprintExists: string -> bool): Outcome<seq<Err>>
  {
    var tail :- FieldTail(contents, footprintExists);
    Ok(Groups(FieldGroups(contents), contents) + tail)
  }

  /** The outer loop of checkfields over the field kinds. */
  method CheckGroups(gs: seq<(seq<Field>, string)>, contents: string, errs: seq<Err>) returns (acc: seq<Err>)
    ensures acc == errs + Groups(gs, contents)
  {
    acc := errs;
    var g := 0;
    while g < |gs|
      invariant 0 <= g <= |gs|
      invariant acc == errs + Groups(gs[..g], contents)
    {
      assert gs[..g + 1][..g] == gs[..g];
      acc := CheckRows(gs[g].0, FieldRule(gs[g].1, contents), acc);
      g := g + 1;
    }
    assert gs[..g] == gs;
  }

  /** checkfields: the loops over the field kinds and their lines, then the
      closing tests. */
  method CheckFields(contents: string, errs: seq<Err>, footprintExists: string -> bool) returns (r: Outcome<seq<Err>>)
    ensures r == After(errs, FieldsErrors(contents, footprintExists))
  {
    var acc := CheckGroups(FieldGroups(contents), contents, errs);
    var tail := FieldTail(contents, footprintExists);
    if tail.Raise? {
      return Raise(tail.exc);
    }
    assert acc + tail.value == errs + (Groups(FieldGroups(contents), contents) + tail.value);
    return Ok(acc + tail.value);
  }

  /** Visibility: reference and name must show unless the text marks them
      invisible; the other fields must be hidden. Every field must be
      horizontal with size "50". */
  lemma FieldRules(fn: string, f: Field, contents: string)
    ensures var e := FieldErrors(fn, f, contents);
            (fn == "reference" || fn == "name" ==>
               (FieldHidden(fn) in e <==> f.visible != 'V' && !Contains(contents, "#invisible" + fn)) && FieldShown(fn) !in e)
            && (fn != "reference" && fn != "name" ==> (FieldShown(fn) in e <==> f.visible != 'I') && FieldHidden(fn) !in e)
            && (FieldVertical(fn) in e <==> f.orient != 'H')
            && (FieldSize(fn) in e <==> f.size != "50")
  {
  }

  /** A footprint without a library name is reported iff it is non-empty,
      not under `agg:` and has no colon. */
  lemma FootprintRule(fp: string, footprintExists: string -> bool)
    ensures NoFootprintLibrary(fp) in FootprintErrors(fp, footprintExists) <==> |fp| > 0 && !StartsWith(fp, "agg:") && ':' !in fp
    ensures StartsWith(fp, "agg:") ==>
              FootprintErrors(fp, footprintExists) == (var file := Before(fp[4..], ':') + ".kicad_mod";
                                              if footprintExists(file) then [] else [MissingFootprint(file)])
  {
  }

  // ---------------------------------------------------------------------------
  // checklib

  /** Every message checklib collects, in order. */
  function LibErrors(contents: string, libf: string, dcmExists: bool, footprintExists: string -> bool): Outcome<seq<Err>>
  {
    var (defErrs, def) :- CheckDefs(contents, libf);
    var pinErrs :- PinsErrors(FindAll(Lines(contents), PinOf), def.designator);
    var fieldErrs :- FieldsErrors(contents, footprintExists);
    Ok((if dcmExists then [] else [NoDcm]) + defErrs + pinErrs + CheckBoxes(contents, def.designator) + fieldErrs)
  }

  /** checklib on the text of one library: passes iff no message. */
  method CheckLibrary(contents: string, libf: string, dcmExists: bool, footprintExists: string -> bool)
    returns (r: Outcome<bool>, errs: seq<Err>)
    ensures LibErrors(contents, libf, dcmExists, footprintExists).Raise? ==> r == Raise(LibErrors(contents, libf, dcmExists, footprintExists).exc)
    ensures LibErrors(contents, libf, dcmExists, footprintExists).Ok? ==>
              errs == LibErrors(contents, libf, dcmExists, footprintExists).value && r == Ok(|errs| == 0)
  {
    errs := if dcmExists then [] else [NoDcm];
    var defs := CheckDefs(contents, libf);
    if defs.Raise? {
      return Raise(defs.exc), [];
    }
    errs := errs + defs.value.0;
    var designator := defs.value.1.designator;
    var pinned := CheckPins(contents, designator, errs);
    if pinned.Raise? {
      return Raise(pinned.exc), [];
    }
    errs := pinned.value + CheckBoxes(contents, designator);
    var fielded := CheckFields(contents, errs, footprintExists);
    if fielded.Raise? {
      return Raise(fielded.exc), [];
    }
    errs := fielded.value;
    return Ok(|errs| == 0), errs;
  }

  /** The reference must be strictly above the name. */
  lemma ReferenceAbove(contents: string, footprintExists: string -> bool)
    requires FieldTail(contents, footprintExists).Ok?
    ensures var gs := FieldGroups(contents);
            (RefNotAbove in FieldTail(contents, footprintExists).value
             <==> ParseInt(gs[0].0[0].y).value <= ParseInt(gs[1].0[0].y).value)
  {
  }
}
