/**
 * scripts/libcheck.py: the older library checker. checkdefs and the field
 * rules for the reference and name are check_lib.py's; the pin length rule
 * allows only 100, pin numbers are gathered into a set so repeats go
 * unreported, and there is no footprint, datasheet or order code test.
 */
module LibCheck {
  import opened Py
  import opened LibText
  import CheckLib

  /** The text libcheck prints, for the errors it can raise. */
  function Text(e: Err): string
  {
    match e
    case BadLength(pin) => "Pin '" + pin + "' not 100mil long, but part is IC or U"
    case FieldHidden(f) => "Component " + f + " field not visible"
    case FieldVertical(f) => "Component " + f + " field not horizontal"
    case FieldSize(f) => "Component " + f + " field font size not 50"
    case _ => CheckLib.Text(e)
  }

  /** The three rules for one pin; only the length rule differs from
      check_lib.py's. */
  function PinErrors(p: Pin, designator: string): Outcome<seq<Err>>
  {
    var x :- ParseInt(p.x);
    var offGrid :- if x % 100 != 0 then Ok(true) else (var y :- ParseInt(p.y); Ok(y % 100 != 0));
    var badLength :- if CheckLib.IcOrU(designator) then (var l :- ParseInt(p.length); Ok(l != 100)) else Ok(false);
    var nameSize :- ParseInt(p.nameSize);
    var badFont :- if nameSize != 50 then Ok(true) else (var numSize :- ParseInt(p.numSize); Ok(numSize != 50 && IsDigits(p.num)));
    Ok((if offGrid then [OffGrid(p.name)] else []) + (if badLength then [BadLength(p.name)] else [])
       + (if badFont then [BadFontSize(p.name)] else []))
  }

  function PinRule(designator: string): Pin -> Outcome<seq<Err>>
  {
    p => PinErrors(p, designator)
  }

  /** The closing test on the set of numbers: gaps only. `min` and `max` of
      the set are the least and greatest of the numbers gathered. */
  function NumberErrors(nums: seq<nat>): seq<Err>
  {
    if |nums| == 0 then []
    else
      var expected := Range(SeqMin(nums), SeqMax(nums));
      if Present(nums) != expected then [MissingPins(expected - Present(nums))] else []
  }

  function PinsErrors(pins: seq<Pin>, designator: string): Outcome<seq<Err>>
  {
    var (errs, nums) :- PinScan(pins, PinRule(designator));
    Ok(errs + NumberErrors(nums))
  }

  /** checkpins: the loop over the pin lines, then the gap test. */
  method CheckPins(contents: string, designator: string, errs: seq<Err>) returns (r: Outcome<seq<Err>>)
    ensures r == After(errs, PinsErrors(FindAll(Lines(contents), PinOf), designator))
  {
    var pins := FindAll(Lines(contents), PinOf);
    var scanned := ScanPins(pins, PinRule(designator), errs);
    if scanned.Raise? {
      return Raise(scanned.exc);
    }
    var (acc, nums) := scanned.value;
    ghost var found := PinScan(pins, PinRule(designator)).value;
    assert acc == errs + found.0 && nums == found.1;
    assert acc + NumberErrors(nums) == errs + (found.0 + NumberErrors(found.1));
    return Ok(acc + NumberErrors(nums));
  }

  /** A designator IC or U needs pins exactly 100 long; 150 is refused. */
  lemma LengthRule(p: Pin, designator: string)
    requires PinErrors(p, designator).Ok?
    ensures (BadLength(p.name) in PinErrors(p, designator).value
             <==> CheckLib.IcOrU(designator) && ParseInt(p.length).value != 100)
  {
  }

  /** The gap message is check_lib.py's; the repeat message never appears. */
  lemma GapsOnly(nums: seq<nat>)
    ensures forall e :: e in NumberErrors(nums) <==> e in CheckLib.NumberErrors(nums) && !e.DuplicatedPins?
  {
  }

  /** A repeated pin number passes unnoticed when the numbers have no gap. */
  lemma RepeatUnreported()
    ensures NumberErrors([1, 1, 2]) == []
    ensures CheckLib.NumberErrors([1, 1, 2]) == [DuplicatedPins({1})]
  {
    var nums: seq<nat> := [1, 1, 2];
    assert SeqMin(nums) == 1 && SeqMax(nums) == 2;
    assert Present(nums) == {1, 2} == Range(1, 2);
    assert CheckLib.Duplicates(nums) == {1} by {
      assert nums[0] == 1 && nums[1] == 1;
      forall k | k in CheckLib.Duplicates(nums) ensures k == 1 {
        var i, j :| 0 <= i < j < |nums| && nums[i] == k && nums[j] == k;
      }
    }
  }

  // ---------------------------------------------------------------------------
  // checkfields

  /** The closing tests: the first reference and name lines must exist and
      their y must parse. */
  function FieldTail(contents: string): Outcome<seq<Err>>
  {
    var gs := CheckLib.FieldGroups(contents);
    var refs, names := gs[0].0, gs[1].0;
    if |refs| == 0 then Raise(IndexError)
    else
      var refY :- ParseInt(refs[0].y);
      if |names| == 0 then Raise(IndexError)
      else
        var nameY :- ParseInt(names[0].y);
        Ok(if refY <= nameY then [RefNotAbove] else [])
  }

  /** Only the reference and name kinds are checked. */
  function FieldsErrors(contents: string): Outcome<seq<Err>>
  {
    var tail :- FieldTail(contents);
    Ok(CheckLib.Groups(CheckLib.FieldGroups(contents)[..2], contents) + tail)
  }

  method CheckFields(contents: string, errs: seq<Err>) returns (r: Outcome<seq<Err>>)
    ensures r == After(errs, FieldsErrors(contents))
  {
    var acc := CheckLib.CheckGroups(CheckLib.FieldGroups(contents)[..2], contents, errs);
    var tail := FieldTail(contents);
    if tail.Raise? {
      return Raise(tail.exc);
    }
    assert acc + tail.value == errs + (CheckLib.Groups(CheckLib.FieldGroups(contents)[..2], contents) + tail.value);
    return Ok(acc + tail.value);
  }

  /** The field kinds checked are the reference and the name, in that order. */
  lemma FieldKinds(contents: string)
    ensures var gs := CheckLib.FieldGroups(contents)[..2];
            |gs| == 2 && gs[0].1 == "reference" && gs[1].1 == "name"
  {
  }

  // ---------------------------------------------------------------------------
  // checklib

  function LibErrors(contents: string, libf: string, dcmExists: bool): Outcome<seq<Err>>
  {
    var (defErrs, def) :- CheckDefs(contents, libf);
    var pinErrs :- PinsErrors(FindAll(Lines(contents), PinOf), def.designator);
    var fieldErrs :- FieldsErrors(contents);
    Ok((if dcmExists then [] else [NoDcm]) + defErrs + pinErrs + CheckLib.CheckBoxes(contents, def.designator) + fieldErrs)
  }

  /** checklib on the text of one library: passes iff no message. */
  method CheckLibrary(contents: string, libf: string, dcmExists: bool) returns (r: Outcome<bool>, errs: seq<Err>)
    ensures LibErrors(contents, libf, dcmExists).Raise? ==> r == Raise(LibErrors(contents, libf, dcmExists).exc)
    ensures LibErrors(contents, libf, dcmExists).Ok? ==> errs == LibErrors(contents, libf, dcmExists).value && r == Ok(|errs| == 0)
  {
    errs := if dcmExists then [] else [NoDcm];
    var defs := CheckDefs(contents, libf);
    if defs.Raise? {
      return Raise(defs.exc), [];
    }
    errs := errs + defs.value.0;
    var designator := defs.value.1.designator;
    var pinned := CheckPins(contents, designator, errs);
    if pinned.Raise? {
      return Raise(pinned.exc), [];
    }
    errs := pinned.value + CheckLib.CheckBoxes(contents, designator);
    var fielded := CheckFields(contents, errs);
    if fielded.Raise? {
      return Raise(fielded.exc), [];
    }
    errs := fielded.value;
    return Ok(|errs| == 0), errs;
  }
}
