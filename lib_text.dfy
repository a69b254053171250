/**
 * The legacy EESchema library text as scripts/check_lib.py and
 * scripts/libcheck.py read it: each `re.MULTILINE` pattern anchored by `^`
 * matches at most once per line, so `findall` becomes a scan over the lines
 * with a per-line recogniser. Each recogniser splits the line on single
 * spaces: a `[^ ]*` group followed by a space is exactly one piece, and a
 * character class followed by a space must cover its whole piece.
 * The checkdefs rule, identical in both checkers, lives here too.
 */
module LibText {
  import opened Py

  /** An error a library checker appends; each checker gives the text it
      prints. The two that join a set with ", " carry the set, since Python
      does not fix the order of its items. */
  datatype Err =
    | NoDcm
    | ManyDefs | NoDefs | NameMismatch(part: string, lib: string)
    | OffGrid(pin: string) | BadLength(pin: string) | BadFontSize(pin: string)
    | MissingPins(missing: set<nat>) | DuplicatedPins(duplicated: set<nat>)
    | NoFilledBox
    | FieldHidden(field: string) | FieldShown(field: string) | FieldVertical(field: string) | FieldSize(field: string)
    | RefNotAbove
    | MissingFootprint(file: string) | NoFootprintLibrary(footprint: string)

  /** The caller's list after a check: its messages appended, or the raise. */
  function After(errs: seq<Err>, o: Outcome<seq<Err>>): Outcome<seq<Err>>
  {
    var e :- o;
    Ok(errs + e)
  }

  /** The lines `^` can start a match on. */
  function Lines(contents: string): seq<string>
  {
    SplitOn(contents, '\n')
  }

  /** `findall`: the match of every line that has one, in order. */
  function FindAll<T>(lines: seq<string>, recognise: string -> Option<T>): (r: seq<T>)
    ensures |r| <= |lines|
    decreases |lines|
  {
    if |lines| == 0 then []
    else
      var rest := FindAll(lines[1..], recognise);
      match recognise(lines[0])
      case Some(t) => [t] + rest
      case None => rest
  }

  /** Something is found iff some line yields it. */
  lemma {:induction false} FindAllMembers<T>(lines: seq<string>, recognise: string -> Option<T>, t: T)
    ensures t in FindAll(lines, recognise) <==> exists k :: 0 <= k < |lines| && recognise(lines[k]) == Some(t)
    decreases |lines|
  {
    if |lines| > 0 {
      FindAllMembers(lines[1..], recognise, t);
      if exists k :: 0 <= k < |lines| && recognise(lines[k]) == Some(t) {
        var k :| 0 <= k < |lines| && recognise(lines[k]) == Some(t);
        if k > 0 {
          assert lines[1..][k - 1] == lines[k];
        }
      }
      if exists k :: 0 <= k < |lines[1..]| && recognise(lines[1..][k]) == Some(t) {
        var k :| 0 <= k < |lines[1..]| && recognise(lines[1..][k]) == Some(t);
        assert lines[k + 1] == lines[1..][k];
      }
    }
  }

  /** `[0-9\-]*`. */
  predicate CoordChars(s: string)
  {
    forall i :: 0 <= i < |s| ==> IsDigit(s[i]) || s[i] == '-'
  }

  /** The longest prefix of s whose characters satisfy the class, at most
      `limit` of them. */
  function ClassPrefix(s: string, inClass: char -> bool, limit: nat): (r: string)
    ensures |r| <= |s| && |r| <= limit && s[..|r|] == r
    ensures forall i :: 0 <= i < |r| ==> inClass(r[i])
    ensures |r| < |s| && |r| < limit ==> !inClass(s[|r|])
    decreases limit
  {
    if |s| == 0 || limit == 0 || !inClass(s[0]) then [] else [s[0]] + ClassPrefix(s[1..], inClass, limit - 1)
  }

  // ---------------------------------------------------------------------------
  // `^DEF (?P<name>[^ ]*) (?P<des>[^ ]*) `

  datatype Def = Def(name: string, designator: string)

  function DefOf(line: string): (r: Option<Def>)
    ensures r.Some? <==> |SplitOn(line, ' ')| >= 4 && SplitOn(line, ' ')[0] == "DEF"
  {
    var p := SplitOn(line, ' ');
    if |p| >= 4 && p[0] == "DEF" then Some(Def(p[1], p[2])) else None
  }

  // ---------------------------------------------------------------------------
  // `^X name num x y len [A-Z] numsize namesize`

  datatype Pin = Pin(name: string, num: string, x: string, y: string, length: string, numSize: string, nameSize: string)

  function PinOf(line: string): (r: Option<Pin>)
    ensures r.Some? ==> CoordChars(r.value.x) && CoordChars(r.value.y) && AllDigits(r.value.length)
                        && AllDigits(r.value.numSize) && AllDigits(r.value.nameSize)
                        && ' ' !in r.value.name && ' ' !in r.value.num
  {
    var p := SplitOn(line, ' ');
    if |p| >= 9 && p[0] == "X" && CoordChars(p[3]) && CoordChars(p[4]) && AllDigits(p[5])
       && |p[6]| == 1 && IsUpper(p[6][0]) && AllDigits(p[7])
    then Some(Pin(p[1], p[2], p[3], p[4], p[5], p[7], ClassPrefix(p[8], IsDigit, |p[8]|)))
    else None
  }

  // ---------------------------------------------------------------------------
  // `^F<tag> value x y size [VH] [IV] [LRC] [TBC]{1,3}`

  datatype Field = Field(value: string, x: string, y: string, size: string, orient: char, visible: char,
                         hjust: char, vjust: string)

  predicate IsVJust(c: char) { c == 'T' || c == 'B' || c == 'C' }

  /** The field line whose first piece is one of the tags. */
  function FieldOf(tags: seq<string>, line: string): (r: Option<Field>)
    ensures r.Some? ==> CoordChars(r.value.x) && CoordChars(r.value.y) && AllDigits(r.value.size)
                        && (r.value.orient == 'V' || r.value.orient == 'H')
                        && (r.value.visible == 'I' || r.value.visible == 'V')
                        && 1 <= |r.value.vjust| <= 3
  {
    var p := SplitOn(line, ' ');
    if |p| >= 9 && p[0] in tags && CoordChars(p[2]) && CoordChars(p[3]) && AllDigits(p[4])
       && p[5] in ["V", "H"] && p[6] in ["I", "V"] && p[7] in ["L", "R", "C"]
       && |p[8]| > 0 && IsVJust(p[8][0])
    then Some(Field(p[1], p[2], p[3], p[4], p[5][0], p[6][0], p[7][0], ClassPrefix(p[8], IsVJust, 3)))
    else None
  }

  const RefTags := ["F0"]
  const NameTags := ["F1"]
  const FootprintTags := ["F2"]
  const DatasheetTags := ["F3"]
  const OrderCodeTags := ["F4", "F5", "F6", "F7", "F8", "F9"]

  // ---------------------------------------------------------------------------
  // `^[SP] .* (?P<fill>[NfF])$`

  function FillOf(line: string): (r: Option<char>)
    ensures r.Some? <==> |line| >= 4 && (line[0] == 'S' || line[0] == 'P') && line[1] == ' '
                         && line[|line| - 2] == ' ' && line[|line| - 1] in "NfF"
    ensures r.Some? ==> r.value == line[|line| - 1]
  {
    if |line| >= 4 && (line[0] == 'S' || line[0] == 'P') && line[1] == ' '
       && line[|line| - 2] == ' ' && line[|line| - 1] in "NfF"
    then Some(line[|line| - 1]) else None
  }

  // ---------------------------------------------------------------------------
  // checkdefs, the same in both checkers

  /** findall over two runs of lines finds the first run's matches, then the
      second's. */
  lemma {:induction false} FindAllConcat<T>(a: seq<string>, b: seq<string>, recognise: string -> Option<T>)
    ensures FindAll(a + b, recognise) == FindAll(a, recognise) + FindAll(b, recognise)
    decreases |a|
  {
    if |a| == 0 {
      assert a + b == b;
    } else {
      assert (a + b)[1..] == a[1..] + b;
      FindAllConcat(a[1..], b, recognise);
    }
  }

  /** findall finds nothing in lines none of which matches. */
  lemma {:induction false} FindAllNone<T>(lines: seq<string>, recognise: string -> Option<T>)
    requires forall k :: 0 <= k < |lines| ==> recognise(lines[k]).None?
    ensures FindAll(lines, recognise) == []
    decreases |lines|
  {
    if |lines| > 0 {
      assert forall k :: 0 <= k < |lines[1..]| ==> lines[1..][k] == lines[k + 1];
      FindAllNone(lines[1..], recognise);
    }
  }

  /** A line that does not start with D holds no DEF. */
  lemma NoDefUnlessD(line: string)
    requires |line| == 0 || line[0] != 'D'
    ensures DefOf(line).None?
  {
    var k := IndexOf(line, ' ');
    assert SplitOn(line, ' ')[0] == line[..k];
  }

  /** `os.path.split(libf)[-1].split(".")[0]`. */
  function LibName(libf: string): (r: string)
    ensures '/' !in r && '.' !in r
  {
    Before(AfterLast(libf, '/'), '.')
  }

  /** checkdefs: the messages it appends and the first definition's name and
      designator; with no definition it raises at `n_defs[0]`. */
  function CheckDefs(contents: string, libf: string): (r: Outcome<(seq<Err>, Def)>)
    ensures var defs := FindAll(Lines(contents), DefOf);
            (r.Raise? <==> |defs| == 0) && (r.Raise? ==> r.exc == IndexError)
    ensures var defs := FindAll(Lines(contents), DefOf);
            r.Ok? ==> r.value.1 == defs[0]
                      && (ManyDefs in r.value.0 <==> |defs| > 1)
                      && (NameMismatch(defs[0].name, LibName(libf)) in r.value.0 <==> Lower(defs[0].name) != LibName(libf))
                      && (forall e :: e in r.value.0 ==> e == ManyDefs || e == NameMismatch(defs[0].name, LibName(libf)))
  {
    var defs := FindAll(Lines(contents), DefOf);
    var count := if |defs| > 1 then [ManyDefs] else if |defs| == 0 then [NoDefs] else [];
    if |defs| == 0 then Raise(IndexError)
    else
      var part := defs[0].name;
      var lib := LibName(libf);
      Ok((count + if Lower(part) != lib then [NameMismatch(part, lib)] else [], defs[0]))
  }

  // ---------------------------------------------------------------------------
  // The pin loop shared by both checkers

  /** The number a pin contributes to `nums`: only all-digit numbers count. */
  function PinNumber(p: Pin): seq<nat>
  {
    if IsDigits(p.num) then [DigitsValue(p.num)] else []
  }

  /** The loop of checkpins under a per-pin rule: the messages and the
      numeric pin numbers, in order; the first raise ends it. */
  function PinScan(pins: seq<Pin>, rule: Pin -> Outcome<seq<Err>>): Outcome<(seq<Err>, seq<nat>)>
    decreases |pins|
  {
    if |pins| == 0 then Ok(([], []))
    else
      var (errs, nums) :- PinScan(pins[..|pins| - 1], rule);
      var e :- rule(pins[|pins| - 1]);
      Ok((errs + e, nums + PinNumber(pins[|pins| - 1])))
  }

  lemma {:induction false} PinScanRaiseStays(pins: seq<Pin>, rule: Pin -> Outcome<seq<Err>>, n: nat, e: Exc)
    requires n <= |pins| && PinScan(pins[..n], rule) == Raise(e)
    ensures PinScan(pins, rule) == Raise(e)
    decreases |pins| - n
  {
    if n < |pins| {
      assert pins[..n + 1][..n] == pins[..n];
      PinScanRaiseStays(pins, rule, n + 1, e);
    } else {
      assert pins[..n] == pins;
    }
  }

  /** The for loop over the pins, appending to the caller's list. */
  method ScanPins(pins: seq<Pin>, rule: Pin -> Outcome<seq<Err>>, errs: seq<Err>)
    returns (r: Outcome<(seq<Err>, seq<nat>)>)
    ensures PinScan(pins, rule).Raise? ==> r == Raise(PinScan(pins, rule).exc)
    ensures PinScan(pins, rule).Ok? ==> r == Ok((errs + PinScan(pins, rule).value.0, PinScan(pins, rule).value.1))
  {
    var acc := errs;
    var nums: seq<nat> := [];
    ghost var added: seq<Err> := [];
    var i := 0;
    while i < |pins|
      invariant 0 <= i <= |pins|
      invariant acc == errs + added
      invariant PinScan(pins[..i], rule) == Ok((added, nums))
    {
      assert pins[..i + 1][..i] == pins[..i];
      var e := rule(pins[i]);
      if e.Raise? {
        PinScanRaiseStays(pins, rule, i + 1, e.exc);
        return Raise(e.exc);
      }
      acc := acc + e.value;
      added := added + e.value;
      nums := nums + PinNumber(pins[i]);
      i := i + 1;
    }
    assert pins[..i] == pins;
    return Ok((acc, nums));
  }

  function SeqMin(s: seq<nat>): (m: nat)
    requires |s| > 0
    ensures m in s && forall x :: x in s ==> m <= x
  {
    if |s| == 1 then s[0]
    else
      var m := SeqMin(s[1..]);
      assert forall x :: x in s ==> x == s[0] || x in s[1..];
      if s[0] <= m then s[0] else m
  }

  function SeqMax(s: seq<nat>): (m: nat)
    requires |s| > 0
    ensures m in s && forall x :: x in s ==> x <= m
  {
    if |s| == 1 then s[0]
    else
      var m := SeqMax(s[1..]);
      assert forall x :: x in s ==> x == s[0] || x in s[1..];
      if s[0] >= m then s[0] else m
  }

  /** `set(range(lo, hi + 1))`. */
  function Range(lo: nat, hi: nat): (r: set<nat>)
    ensures forall k :: k in r <==> lo <= k <= hi
    decreases hi
  {
    if hi < lo then {} else if hi == lo then {lo} else Range(lo, hi - 1) + {hi}
  }

  /** `set(nums)`. */
  function Present(nums: seq<nat>): (r: set<nat>)
    ensures forall k :: k in r <==> k in nums
  {
    set x | x in nums
  }

  /** The numbers a sequence between its least and greatest misses. */
  function Gaps(nums: seq<nat>): (r: set<nat>)
    requires |nums| > 0
    ensures forall k :: k in r <==> SeqMin(nums) <= k <= SeqMax(nums) && k !in nums
    ensures r == {} <==> Present(nums) == Range(SeqMin(nums), SeqMax(nums))
  {
    var gaps := Range(SeqMin(nums), SeqMax(nums)) - Present(nums);
    assert gaps == {} <==> Present(nums) == Range(SeqMin(nums), SeqMax(nums)) by {
      if gaps == {} {
        assert Range(SeqMin(nums), SeqMax(nums)) <= Present(nums);
      }
    }
    gaps
  }
}
