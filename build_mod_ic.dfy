/**
 * scripts/build_mod_ic.py: the discrete part of the IC footprint generator —
 * skip-pin specifiers, BGA pad naming, the pin-centre rows of quad and dual
 * packages, pad numbering that survives skipped positions, the dispatch in
 * main, and the comparison main uses to decide whether a footprint changed.
 */
module BuildModIc {
  import opened Py
  import opened Sexp
  import opened PyTree
  import KicadMod
  import IcMod

  // ===========================================================================
  // expand_skips

  /** An entry of skip_pins: YAML gives ints or strings. */
  datatype SkipPin = Num(n: int) | Text(t: string)

  /** str(skip). */
  function SkipText(p: SkipPin): string
  {
    match p
    case Num(n) => IntText(n)
    case Text(t) => t
  }

  /** `[A-Z]+`. */
  predicate UpperRun(s: string) { |s| > 0 && forall i :: 0 <= i < |s| ==> IsUpper(s[i]) }

  /** `[A-Z]+(?:-[A-Z]+)?`: one run, or two joined by a single '-'. */
  predicate LetterPart(s: string)
  {
    var d := IndexOf(s, '-');
    if d == |s| then UpperRun(s) else UpperRun(s[..d]) && UpperRun(s[d + 1..])
  }

  /** `[0-9]+(?:-[0-9]+)?`. */
  predicate NumberPart(s: string)
  {
    var d := IndexOf(s, '-');
    if d == |s| then IsDigits(s) else IsDigits(s[..d]) && IsDigits(s[d + 1..])
  }

  /** The index of the first digit of s, or |s|. */
  function FirstDigit(s: string): (k: nat)
    ensures k <= |s|
    ensures k < |s| ==> IsDigit(s[k])
    ensures forall i :: 0 <= i < k ==> !IsDigit(s[i])
  {
    if |s| == 0 then 0 else if IsDigit(s[0]) then 0 else 1 + FirstDigit(s[1..])
  }

  /** re.search(r"^([A-Z]+(?:-[A-Z]+)?)?([0-9]+(?:-[0-9]+)?)$", t).groups():
      the letter group (None when it did not take part) and the number group.
      `$` also matches in front of a final newline. The letter group holds no
      digit, so the number group starts at the first digit. */
  function SkipMatch(t: string): (r: Option<(Option<string>, string)>)
    ensures r.Some? ==> NumberPart(r.value.1) && (r.value.0.Some? ==> LetterPart(r.value.0.value))
  {
    var body := if |t| > 0 && t[|t| - 1] == '\n' then t[..|t| - 1] else t;
    var k := FirstDigit(body);
    var letters := body[..k];
    var number := body[k..];
    if (letters == "" || LetterPart(letters)) && NumberPart(number)
    then Some((if letters == "" then None else Some(letters), number))
    else None
  }

  /** str(i) for i in range(a, b + 1). */
  function NumberRange(a: int, b: int): (r: seq<string>)
    ensures |r| == if b - a + 1 > 0 then b - a + 1 else 0
  {
    seq(if b - a + 1 > 0 then b - a + 1 else 0, i => IntText(a + i))
  }

  /** The numbers a number group stands for: an inclusive range, or the group's
      own text. */
  function Numbers(number: string): seq<string>
    requires NumberPart(number)
  {
    var d := IndexOf(number, '-');
    if d == |number| then [number]
    else NumberRange(DigitsValue(number[..d]), DigitsValue(number[d + 1..]))
  }

  /** list.index: the first position of x, or None where it raises ValueError. */
  function ListIndex(xs: seq<string>, x: string): (r: Option<nat>)
    ensures r.Some? <==> x in xs
    ensures r.Some? ==> r.value < |xs| && xs[r.value] == x && forall i :: 0 <= i < r.value ==> xs[i] != x
  {
    if |xs| == 0 then None
    else if xs[0] == x then Some(0)
    else match ListIndex(xs[1..], x)
      case None => None
      case Some(i) => Some(i + 1)
  }

  /** letters[a:b] with Python's clamping, for 0 <= a and b <= |letters|. */
  function Slice(xs: seq<string>, a: nat, b: nat): seq<string>
    requires a <= |xs| && b <= |xs|
  {
    if b <= a then [] else xs[a..b]
  }

  /** The letters a letter group stands for: an inclusive slice of `letters`
      between the two ends' first positions, or the group itself. */
  function Letters(group: string, letters: seq<string>): (r: Option<seq<string>>)
    ensures IndexOf(group, '-') == |group| ==> r == Some([group])
  {
    var d := IndexOf(group, '-');
    if d == |group| then Some([group])
    else match (ListIndex(letters, group[..d]), ListIndex(letters, group[d + 1..]))
      case (Some(a), Some(b)) => Some(Slice(letters, a, b + 1))
      case _ => None
  }

  /** Every letter followed by every number, letter-major. */
  function Cross(lets: seq<string>, nums: seq<string>): seq<string>
  {
    if |lets| == 0 then [] else Cross(lets[..|lets| - 1], nums) + Prefixed(lets[|lets| - 1], nums)
  }

  function Prefixed(l: string, nums: seq<string>): (r: seq<string>)
    ensures |r| == |nums| && forall j :: 0 <= j < |nums| ==> r[j] == l + nums[j]
  {
    seq(|nums|, j requires 0 <= j < |nums| => l + nums[j])
  }

  /** The pins one specifier names. */
  function ExpandOne(t: string, letters: seq<string>): (r: Outcome<seq<string>>)
    ensures '-' !in t ==> r == Ok([t])
    ensures r.Raise? ==> '-' in t && (r.exc == ValueError || r.exc == TypeError)
  {
    if '-' !in t then Ok([t])
    else match SkipMatch(t)
      case None => Raise(ValueError)
      case Some((group, number)) =>
        var nums := Numbers(number);
        if group.None? then Raise(TypeError)   // `"-" in None`
        else match Letters(group.value, letters)
          case None => Raise(ValueError)
          case Some(lets) => Ok(Cross(lets, nums))
  }

  /** The pins a list of specifiers names, in order; the first failing
      specifier's exception otherwise. */
  function ExpandAll(skips: seq<SkipPin>, letters: seq<string>): Outcome<seq<string>>
    decreases |skips|
  {
    if |skips| == 0 then Ok([])
    else match ExpandAll(skips[..|skips| - 1], letters)
      case Raise(e) => Raise(e)
      case Ok(out) =>
        match ExpandOne(SkipText(skips[|skips| - 1]), letters)
        case Raise(e) => Raise(e)
        case Ok(more) => Ok(out + more)
  }

  /** expand_skips: the loop over the specifiers. */
  method ExpandSkips(skips: seq<SkipPin>, letters: seq<string>) returns (r: Outcome<seq<string>>)
    ensures r == ExpandAll(skips, letters)
  {
    var out: seq<string> := [];
    for s := 0 to |skips|
      invariant ExpandAll(skips[..s], letters) == Ok(out)
    {
      assert skips[..s + 1][..s] == skips[..s];
      var skip := SkipText(skips[s]);
      if '-' !in skip {
        out := out + [skip];
        continue;
      }
      var m := SkipMatch(skip);
      if m.None? {
        RaiseStays(skips, letters, s + 1, ValueError);
        return Raise(ValueError);
      }
      var (group, number) := m.value;
      var nums := Numbers(number);
      if group.None? {
        RaiseStays(skips, letters, s + 1, TypeError);
        return Raise(TypeError);
      }
      var lets := Letters(group.value, letters);
      if lets.None? {
        RaiseStays(skips, letters, s + 1, ValueError);
        return Raise(ValueError);
      }
      out := AppendCross(out, lets.value, nums);
    }
    assert skips[..|skips|] == skips;
    return Ok(out);
  }

  /** The two nested loops of one range specifier. */
  method AppendCross(out: seq<string>, lets: seq<string>, nums: seq<string>) returns (out': seq<string>)
    ensures out' == out + Cross(lets, nums)
  {
    out' := out;
    for i := 0 to |lets|
      invariant out' == out + Cross(lets[..i], nums)
    {
      assert lets[..i + 1][..i] == lets[..i];
      for j := 0 to |nums|
        invariant out' == out + Cross(lets[..i], nums) + Prefixed(lets[i], nums[..j])
      {
        assert Prefixed(lets[i], nums[..j + 1]) == Prefixed(lets[i], nums[..j]) + [lets[i] + nums[j]];
        out' := out' + [lets[i] + nums[j]];
      }
      assert nums[..|nums|] == nums;
    }
    assert lets[..|lets|] == lets;
  }

  /** Once a prefix of the specifiers raises, the whole expansion raises the same. */
  lemma {:induction false} RaiseStays(skips: seq<SkipPin>, letters: seq<string>, n: nat, e: Exc)
    requires n <= |skips|
    requires ExpandAll(skips[..n], letters) == Raise(e)
    ensures ExpandAll(skips, letters) == Raise(e)
    decreases |skips| - n
  {
    if n < |skips| {
      assert skips[..n + 1][..n] == skips[..n];
      RaiseStays(skips, letters, n + 1, e);
    } else {
      assert skips[..n] == skips;
    }
  }

  /** Specifiers without a '-' pass through as their text, in order. */
  lemma {:induction false} ExpandPlain(skips: seq<SkipPin>, letters: seq<string>)
    requires forall k :: 0 <= k < |skips| ==> '-' !in SkipText(skips[k])
    ensures ExpandAll(skips, letters) == Ok(seq(|skips|, k requires 0 <= k < |skips| => SkipText(skips[k])))
    decreases |skips|
  {
    if |skips| > 0 {
      var p, last := skips[..|skips| - 1], skips[|skips| - 1];
      assert forall k :: 0 <= k < |p| ==> p[k] == skips[k];
      ExpandPlain(p, letters);
      var texts := seq(|p|, k requires 0 <= k < |p| => SkipText(p[k]));
      assert ExpandOne(SkipText(last), letters) == Ok([SkipText(last)]);
      assert ExpandAll(skips, letters) == Ok(texts + [SkipText(last)]);
      assert seq(|skips|, k requires 0 <= k < |skips| => SkipText(skips[k])) == texts + [SkipText(last)];
    } else {
      assert seq(|skips|, k requires 0 <= k < |skips| => SkipText(skips[k])) == [];
    }
  }

  /** Cross lists lets[i] + nums[j] at position i * |nums| + j: letter-major,
      number-minor. */
  lemma {:induction false} CrossAt(lets: seq<string>, nums: seq<string>)
    ensures |Cross(lets, nums)| == |lets| * |nums|
    ensures forall i, j :: 0 <= i < |lets| && 0 <= j < |nums| ==> Cross(lets, nums)[i * |nums| + j] == lets[i] + nums[j]
  {
    CrossLength(lets, nums);
    forall i, j | 0 <= i < |lets| && 0 <= j < |nums|
      ensures i * |nums| + j < |Cross(lets, nums)| && Cross(lets, nums)[i * |nums| + j] == lets[i] + nums[j]
    {
      IndexBound(i, j, |lets|, |nums|);
      CrossIndex(lets, nums, i, j);
    }
  }

  lemma {:induction false} CrossIndex(lets: seq<string>, nums: seq<string>, i: nat, j: nat)
    requires i < |lets| && j < |nums|
    ensures |Cross(lets, nums)| == |lets| * |nums| && i * |nums| + j < |lets| * |nums|
            && Cross(lets, nums)[i * |nums| + j] == lets[i] + nums[j]
    decreases |lets|
  {
    var n, w := |lets| - 1, |nums|;
    var p := lets[..n];
    CrossLength(p, nums);
    var c := Cross(lets, nums);
    assert c == Cross(p, nums) + Prefixed(lets[n], nums);
    MulSucc(n, w);
    if i < n {
      CrossIndex(p, nums, i, j);
      IndexBound(i, j, n, w);
      assert lets[i] == p[i];
      assert c[i * w + j] == Cross(p, nums)[i * w + j];
    } else {
      assert i * w + j == n * w + j;
      assert c[n * w + j] == Prefixed(lets[n], nums)[j];
    }
  }

  lemma MulSucc(n: nat, w: nat)
    ensures (n + 1) * w == n * w + w
  {
  }


  lemma {:induction false} CrossLength(lets: seq<string>, nums: seq<string>)
    ensures |Cross(lets, nums)| == |lets| * |nums|
    decreases |lets|
  {
    if |lets| > 0 {
      CrossLength(lets[..|lets| - 1], nums);
      assert |lets| * |nums| == (|lets| - 1) * |nums| + |nums|;
    }
  }

  /** With one number, Cross appends it to every letter in turn. */
  lemma {:induction false} CrossOne(lets: seq<string>, n: string)
    ensures Cross(lets, [n]) == seq(|lets|, i requires 0 <= i < |lets| => lets[i] + n)
    decreases |lets|
  {
    if |lets| > 0 {
      var p := lets[..|lets| - 1];
      CrossOne(p, n);
      assert Prefixed(lets[|lets| - 1], [n]) == [lets[|lets| - 1] + n];
      assert seq(|lets|, i requires 0 <= i < |lets| => lets[i] + n)
          == seq(|p|, i requires 0 <= i < |p| => p[i] + n) + [lets[|lets| - 1] + n];
    }
  }

  lemma {:induction false} FirstDigitAfter(l: string, n: string)
    requires forall i :: 0 <= i < |l| ==> !IsDigit(l[i])
    requires |n| > 0 && IsDigit(n[0])
    ensures FirstDigit(l + n) == |l|
    decreases |l|
  {
    if |l| > 0 {
      assert (l + n)[1..] == l[1..] + n;
      FirstDigitAfter(l[1..], n);
    }
  }

  lemma DashAfterDigits(d: string, e: string)
    requires IsDigits(d)
    ensures IndexOf(d + "-" + e, '-') == |d|
  {
    assert (d + "-" + e)[|d|] == '-';
    assert forall k :: 0 <= k < |d| ==> (d + "-" + e)[k] == d[k];
  }

  /** The pieces of `d-e`. */
  lemma DashParts(d: string, e: string)
    requires |e| > 0
    ensures var t := d + "-" + e;
            t[..|d|] == d && t[|d|] == '-' && t[|d| + 1..] == e && t[0] == (if |d| > 0 then d[0] else '-')
            && t[|t| - 1] == e[|e| - 1]
  {
  }

  lemma DashAfterUpper(d: string, e: string)
    requires UpperRun(d)
    ensures IndexOf(d + "-" + e, '-') == |d|
  {
    assert (d + "-" + e)[|d|] == '-';
    assert forall k :: 0 <= k < |d| ==> (d + "-" + e)[k] == d[k];
  }

  lemma NoDashInUpper(d: string)
    requires UpperRun(d)
    ensures IndexOf(d, '-') == |d|
  {
  }

  lemma NoDashInDigits(d: string)
    requires IsDigits(d)
    ensures IndexOf(d, '-') == |d| && '-' !in d
  {
  }

  /** How the specifier regex splits text made of a letter part and a number
      part ending in a digit. */
  lemma SkipMatchSplit(l: string, n: string)
    requires l == "" || LetterPart(l)
    requires forall i :: 0 <= i < |l| ==> !IsDigit(l[i])
    requires NumberPart(n) && IsDigit(n[0]) && IsDigit(n[|n| - 1])
    ensures SkipMatch(l + n) == Some((if l == "" then None else Some(l), n))
  {
    var t := l + n;
    assert t[|t| - 1] == n[|n| - 1];
    FirstDigitAfter(l, n);
    assert t[..|l|] == l && t[|l|..] == n;
  }

  /** A number range is inclusive at both ends: `<a>-<b>` stands for a, a+1,
      ..., b (nothing when b < a). */
  lemma NumberRangeInclusive(da: string, db: string)
    requires IsDigits(da) && IsDigits(db)
    ensures var nums := Numbers(da + "-" + db);
            var a, b := DigitsValue(da), DigitsValue(db);
            |nums| == (if b - a + 1 > 0 then b - a + 1 else 0)
            && forall i :: 0 <= i < |nums| ==> nums[i] == IntText(a + i)
  {
    NumbersOfRange(da, db);
  }

  /** The number group `<a>-<b>` and the numbers it stands for. */
  lemma NumbersOfRange(da: string, db: string)
    requires IsDigits(da) && IsDigits(db)
    ensures var number := da + "-" + db;
            NumberPart(number) && IsDigit(number[0]) && IsDigit(number[|number| - 1]) && '-' in number
            && Numbers(number) == NumberRange(DigitsValue(da), DigitsValue(db))
  {
    var number := da + "-" + db;
    DashAfterDigits(da, db);
    NoDashInDigits(db);
    assert number[..|da|] == da && number[|da| + 1..] == db;
    assert number[|number| - 1] == db[|db| - 1];
    assert number[|da|] == '-';
  }

  /** One letter run in front of a number range: the letter, then each number. */
  lemma SingleLetterRange(l: string, number: string, letters: seq<string>)
    requires UpperRun(l) && '-' in number
    requires NumberPart(number) && IsDigit(number[0]) && IsDigit(number[|number| - 1])
    ensures ExpandOne(l + number, letters) == Ok(Prefixed(l, Numbers(number)))
  {
    NoDashInUpper(l);
    SkipMatchSplit(l, number);
    assert '-' in l + number by {
      var k :| 0 <= k < |number| && number[k] == '-';
      assert (l + number)[|l| + k] == '-';
    }
    assert Cross([l], Numbers(number)) == Prefixed(l, Numbers(number)) by {
      assert [l][..0] == [];
    }
  }

  /** A letter range `X-Y` is the inclusive slice of `letters` between the
      first positions of X and Y; a letter missing from `letters` raises
      ValueError, as list.index does. */
  lemma LettersInclusive(x: string, y: string, letters: seq<string>)
    requires UpperRun(x) && UpperRun(y)
    ensures var r := Letters(x + "-" + y, letters);
            (r.Some? <==> x in letters && y in letters)
            && (r.Some? ==> var a, b := ListIndex(letters, x).value, ListIndex(letters, y).value;
                              r.value == if b < a then [] else letters[a..b + 1])
  {
    var group := x + "-" + y;
    DashAfterUpper(x, y);
    assert group[..|x|] == x && group[|x| + 1..] == y;
  }

  /** A letter range in front of a number group: each letter, then each number. */
  lemma LetterRangeExpands(x: string, y: string, number: string, letters: seq<string>)
    requires UpperRun(x) && UpperRun(y)
    requires NumberPart(number) && IsDigit(number[0]) && IsDigit(number[|number| - 1])
    ensures var lets := Letters(x + "-" + y, letters);
            ExpandOne(x + "-" + y + number, letters) == if lets.None? then Raise(ValueError) else Ok(Cross(lets.value, Numbers(number)))
  {
    var group := x + "-" + y;
    assert LetterPart(group) by {
      DashAfterUpper(x, y);
      assert group[..|x|] == x && group[|x| + 1..] == y;
    }
    assert forall i :: 0 <= i < |group| ==> !IsDigit(group[i]) by {
      forall i | 0 <= i < |group| ensures !IsDigit(group[i]) {
        if i < |x| { assert group[i] == x[i]; }
        else if i > |x| { assert group[i] == y[i - |x| - 1]; }
      }
    }
    SkipMatchSplit(group, number);
    assert '-' in group + number by { assert (group + number)[|x|] == '-'; }
  }

  /** The two ranges together: `X-Y<n>` names each letter of the slice
      followed by n. */
  lemma LetterRangeInclusive(x: string, y: string, n: string, letters: seq<string>)
    requires UpperRun(x) && UpperRun(y) && IsDigits(n)
    requires x in letters && y in letters
    ensures var a := ListIndex(letters, x).value;
            var b := ListIndex(letters, y).value;
            var lets := if b < a then [] else letters[a..b + 1];
            ExpandOne(x + "-" + y + n, letters) == Ok(seq(|lets|, i requires 0 <= i < |lets| => lets[i] + n))
  {
    NoDashInDigits(n);
    LettersInclusive(x, y, letters);
    LetterRangeExpands(x, y, n, letters);
    assert Numbers(n) == [n];
    CrossOne(Letters(x + "-" + y, letters).value, n);
  }

  /** A range without a letter part never returns: the missing group is None
      and `"-" in None` raises TypeError. */
  lemma NoLetterPartRaises(a: nat, b: nat, letters: seq<string>)
    ensures ExpandOne(NatText(a) + "-" + NatText(b), letters) == Raise(TypeError)
  {
    var t := NatText(a) + "-" + NatText(b);
    assert NumberPart(t) && IsDigit(t[0]) && IsDigit(t[|t| - 1]) by {
      DashAfterDigits(NatText(a), NatText(b));
      NoDashInDigits(NatText(b));
      DashParts(NatText(a), NatText(b));
    }
    assert SkipMatch(t) == Some((None, t)) by {
      SkipMatchSplit("", t);
      assert "" + t == t;
    }
    assert '-' in t by { DashParts(NatText(a), NatText(b)); }
  }

  /** A malformed range is refused with ValueError. */
  lemma MalformedRaises(letters: seq<string>)
    ensures ExpandOne("A-", letters) == Raise(ValueError)
    ensures ExpandOne("A1-2x", letters) == Raise(ValueError)
  {
    assert "A-"[1] == '-';
    assert SkipMatch("A-") == None by {
      assert FirstDigit("A-") == 2 by {
        assert "A-"[1..] == "-" && "-"[1..] == "";
      }
      assert "A-"[2..] == "";
    }
    assert "A1-2x"[2] == '-';
    assert SkipMatch("A1-2x") == None by {
      assert FirstDigit("A1-2x") == 1 by {
        assert "A1-2x"[1..] == "1-2x";
      }
      var number := "A1-2x"[1..];
      assert number == "1-2x";
      assert IndexOf(number, '-') == 1 by {
        assert number[1..] == "-2x";
      }
      assert number[2..] == "2x";
      assert !IsDigit("2x"[1]);
    }
  }

  // ===========================================================================
  // bga_pin_centres

  const DefaultLetters: string := "ABCDEFGHJKLMNPRTUVWY"

  /** The default row letters skip I, O, Q, S, X and Z. */
  lemma DefaultLettersOmit()
    ensures |DefaultLetters| == 20
    ensures forall i :: 0 <= i < |DefaultLetters| ==> IsUpper(DefaultLetters[i]) && DefaultLetters[i] !in "IOQSXZ"
    ensures forall i, j :: 0 <= i < j < |DefaultLetters| ==> DefaultLetters[i] < DefaultLetters[j]
  {
  }

  /** list(letters): each character as a one-character string. */
  function Chars(s: string): (r: seq<string>)
    ensures |r| == |s| && forall i :: 0 <= i < |s| ==> r[i] == [s[i]]
  {
    seq(|s|, i requires 0 <= i < |s| => [s[i]])
  }

  /** The row names: the letters, then every pair of letters, first-letter-major. */
  function BgaLetters(letters: string): seq<string>
  {
    Chars(letters) + Cross(Chars(letters), Chars(letters))
  }

  /** The single letters come first, then the pair (i, j) at n + i * n + j. */
  lemma BgaLettersLayout(letters: string)
    ensures var r, n := BgaLetters(letters), |letters|;
            |r| == n + n * n
            && (forall i :: 0 <= i < n ==> r[i] == [letters[i]])
            && forall i, j :: 0 <= i < n && 0 <= j < n ==> i * n + j < n * n && r[n + i * n + j] == [letters[i], letters[j]]
  {
    BgaLettersLength(letters);
    forall i | 0 <= i < |letters| ensures BgaLetters(letters)[i] == [letters[i]] {
      BgaLettersLength(letters);
      BgaSingleAt(letters, i);
    }
    forall i, j | 0 <= i < |letters| && 0 <= j < |letters|
      ensures i * |letters| + j < |letters| * |letters|
              && BgaLetters(letters)[|letters| + i * |letters| + j] == [letters[i], letters[j]]
    {
      BgaPairAt(letters, i, j);
    }
  }

  lemma BgaLettersLength(letters: string)
    ensures |BgaLetters(letters)| == |letters| + |letters| * |letters|
  {
    CrossLength(Chars(letters), Chars(letters));
  }

  lemma BgaSingleAt(letters: string, i: nat)
    requires i < |letters|
    ensures i < |BgaLetters(letters)| && BgaLetters(letters)[i] == [letters[i]]
  {
    assert BgaLetters(letters) == Chars(letters) + Cross(Chars(letters), Chars(letters));
  }

  lemma BgaPairAt(letters: string, i: nat, j: nat)
    requires i < |letters| && j < |letters|
    ensures var n := |letters|;
            0 <= i * n + j < n * n && |BgaLetters(letters)| == n + n * n
            && BgaLetters(letters)[n + i * n + j] == [letters[i], letters[j]]
  {
    var cs := Chars(letters);
    var pairs := Cross(cs, cs);
    var n := |letters|;
    var k := i * n + j;
    assert 0 <= k < n * n by {
      IndexBound(i, j, n, n);
    }
    assert |pairs| == n * n && pairs[k] == cs[i] + cs[j] by {
      CrossAt(cs, cs);
    }
    assert BgaLetters(letters) == cs + pairs;
    assert (cs + pairs)[n + k] == pairs[k];
    assert cs[i] + cs[j] == [letters[i], letters[j]];
  }


  /** Row i, column j of an n-by-w grid lies before its end. */
  lemma IndexBound(i: int, j: int, n: int, w: int)
    requires 0 <= i < n && 0 <= j < w
    ensures 0 <= i * w + j < n * w
  {
    assert (i + 1) * w <= n * w;
  }

  /** A centre with its pad id. */
  type Cell = (string, real, real)

  /** The offset of column (or row) col of cols, centred on 0. */
  function GridX(col: int, cols: int, pitch: real): real
  {
    (col as real) * pitch - ((cols - 1) as real) / 2.0 * pitch
  }

  lemma GridCentred(col: int, cols: int, pitch: real)
    ensures GridX(col, cols, pitch) + GridX(cols - 1 - col, cols, pitch) == 0.0
  {
    assert (col as real) * pitch + ((cols - 1 - col) as real) * pitch == ((cols - 1) as real) * pitch;
  }

  function PadId(ls: seq<string>, row: nat, col: nat): string
    requires row < |ls|
  {
    ls[row] + IntText(col + 1)
  }

  /** The first c cells of a row, skipped ids left out. */
  function GridRow(ls: seq<string>, skips: seq<string>, pitch: real, rows: int, cols: int, row: nat, c: nat): seq<Cell>
    requires row < |ls| || c == 0
  {
    if c == 0 then []
    else
      var id := PadId(ls, row, c - 1);
      GridRow(ls, skips, pitch, rows, cols, row, c - 1)
      + (if id in skips then [] else [(id, GridX(c - 1, cols, pitch), GridX(row, rows, pitch))])
  }

  /** The cells of the first n rows, row-major. */
  function GridRows(ls: seq<string>, skips: seq<string>, pitch: real, rows: int, cols: int, n: nat): seq<Cell>
    requires n <= |ls| || cols <= 0
  {
    if n == 0 then []
    else GridRows(ls, skips, pitch, rows, cols, n - 1)
         + GridRow(ls, skips, pitch, rows, cols, n - 1, if cols > 0 then cols else 0)
  }

  /** No cell of a row has a skipped id. */
  lemma {:induction false} RowOmitsSkipped(ls: seq<string>, skips: seq<string>, pitch: real, rows: int, cols: int,
                                           row: nat, c: nat)
    requires row < |ls| || c == 0
    ensures forall k :: 0 <= k < |GridRow(ls, skips, pitch, rows, cols, row, c)| ==>
              GridRow(ls, skips, pitch, rows, cols, row, c)[k].0 !in skips
    decreases c
  {
    if c > 0 {
      RowOmitsSkipped(ls, skips, pitch, rows, cols, row, c - 1);
      var prev: seq<Cell> := GridRow(ls, skips, pitch, rows, cols, row, c - 1);
      var id := PadId(ls, row, c - 1);
      var tail: seq<Cell> := if id in skips then [] else [(id, GridX(c - 1, cols, pitch), GridX(row, rows, pitch))];
      assert GridRow(ls, skips, pitch, rows, cols, row, c) == prev + tail;
      forall k | 0 <= k < |prev + tail| ensures (prev + tail)[k].0 !in skips {
        if k < |prev| {
          assert (prev + tail)[k] == prev[k];
        } else {
          assert (prev + tail)[k] == tail[0] && tail[0].0 == id && id !in skips;
        }
      }
    }
  }

  /** No cell of the grid has a skipped id. */
  lemma {:induction false} GridOmitsSkipped(ls: seq<string>, skips: seq<string>, pitch: real, rows: int, cols: int, n: nat)
    requires n <= |ls| || cols <= 0
    ensures forall k :: 0 <= k < |GridRows(ls, skips, pitch, rows, cols, n)| ==>
              GridRows(ls, skips, pitch, rows, cols, n)[k].0 !in skips
    decreases n
  {
    if n > 0 {
      var c := if cols > 0 then cols else 0;
      GridOmitsSkipped(ls, skips, pitch, rows, cols, n - 1);
      RowOmitsSkipped(ls, skips, pitch, rows, cols, n - 1, c);
      var prev: seq<Cell>, last: seq<Cell> := GridRows(ls, skips, pitch, rows, cols, n - 1), GridRow(ls, skips, pitch, rows, cols, n - 1, c);
      assert GridRows(ls, skips, pitch, rows, cols, n) == prev + last;
      forall k | 0 <= k < |prev + last| ensures (prev + last)[k].0 !in skips {
        if k < |prev| {
          assert (prev + last)[k] == prev[k];
          assert prev[k].0 !in skips;
        } else {
          assert (prev + last)[k] == last[k - |prev|];
          assert last[k - |prev|].0 !in skips;
        }
      }
    }
  }

  /** The whole grid; the row name lookup raises IndexError past the last
      name, but only once a cell of that row is visited. */
  function BgaCells(ls: seq<string>, skips: seq<string>, pitch: real, rows: int, cols: int): Outcome<seq<Cell>>
  {
    if cols > 0 && rows > |ls| then Raise(IndexError)
    else Ok(GridRows(ls, skips, pitch, rows, cols, if rows > 0 then rows else 0))
  }

  function BgaPinCentresOf(letters: string, skipPins: seq<SkipPin>, pitch: real, rows: int, cols: int): Outcome<seq<Cell>>
  {
    var ls := BgaLetters(letters);
    match ExpandAll(skipPins, ls)
    case Raise(e) => Raise(e)
    case Ok(skips) => BgaCells(ls, skips, pitch, rows, cols)
  }

  /** bga_pin_centres: row-major nested loops, skipping the expanded skip ids. */
  method BgaPinCentres(letters: string, skipPins: seq<SkipPin>, pitch: real, rows: int, cols: int)
    returns (r: Outcome<seq<Cell>>)
    ensures r == BgaPinCentresOf(letters, skipPins, pitch, rows, cols)
  {
    var ls := BgaLetters(letters);
    var expanded := ExpandSkips(skipPins, ls);
    if expanded.Raise? {
      return Raise(expanded.exc);
    }
    var skips := expanded.value;
    var nrows := if rows > 0 then rows else 0;
    var ncols := if cols > 0 then cols else 0;
    var out: seq<Cell> := [];
    for row := 0 to nrows
      invariant row <= |ls| || ncols == 0
      invariant out == GridRows(ls, skips, pitch, rows, cols, row)
    {
      if ncols > 0 && row >= |ls| {
        return Raise(IndexError);
      }
      out := AppendGridRow(out, ls, skips, pitch, rows, cols, row, ncols);
    }
    return Ok(out);
  }

  /** The column loop of one row. */
  method AppendGridRow(out: seq<Cell>, ls: seq<string>, skips: seq<string>, pitch: real, rows: int, cols: int,
                       row: nat, ncols: nat) returns (out': seq<Cell>)
    requires row < |ls| || ncols == 0
    ensures out' == out + GridRow(ls, skips, pitch, rows, cols, row, ncols)
  {
    out' := out;
    for col := 0 to ncols
      invariant out' == out + GridRow(ls, skips, pitch, rows, cols, row, col)
    {
      var padid := ls[row] + IntText(col + 1);
      assert padid == PadId(ls, row, col);
      if padid in skips {
        continue;
      }
      var x := (col as real) * pitch - ((cols - 1) as real) / 2.0 * pitch;
      var y := (row as real) * pitch - ((rows - 1) as real) / 2.0 * pitch;
      assert x == GridX(col, cols, pitch) && y == GridX(row, rows, pitch);
      out' := out' + [(padid, x, y)];
    }
  }

  /** Every cell of the grid whose id is not skipped is present, at its place. */
  lemma GridComplete(ls: seq<string>, skips: seq<string>, pitch: real, rows: int, cols: int,
                      n: nat, row: nat, col: nat)
    requires n <= |ls| && row < n && col < cols
    requires PadId(ls, row, col) !in skips
    ensures (PadId(ls, row, col), GridX(col, cols, pitch), GridX(row, rows, pitch)) in GridRows(ls, skips, pitch, rows, cols, n)
  {
    RowComplete(ls, skips, pitch, rows, cols, row, cols, col);
    RowInGrid(ls, skips, pitch, rows, cols, n, row, (PadId(ls, row, col), GridX(col, cols, pitch), GridX(row, rows, pitch)));
  }

  /** A cell of a row is a cell of every grid that includes the row. */
  lemma {:induction false} RowInGrid(ls: seq<string>, skips: seq<string>, pitch: real, rows: int, cols: int,
                                     n: nat, row: nat, x: Cell)
    requires n <= |ls| && row < n && cols > 0
    requires x in GridRow(ls, skips, pitch, rows, cols, row, cols)
    ensures x in GridRows(ls, skips, pitch, rows, cols, n)
    decreases n
  {
    GridRowsLast(ls, skips, pitch, rows, cols, n);
    var before, last := GridRows(ls, skips, pitch, rows, cols, n - 1), GridRow(ls, skips, pitch, rows, cols, n - 1, cols);
    if row < n - 1 {
      RowInGrid(ls, skips, pitch, rows, cols, n - 1, row, x);
      InConcat(x, before, last);
    } else {
      InConcat(x, before, last);
    }
  }


  lemma GridRowsLast(ls: seq<string>, skips: seq<string>, pitch: real, rows: int, cols: int, n: nat)
    requires 0 < n <= |ls| && cols > 0
    ensures GridRows(ls, skips, pitch, rows, cols, n)
            == GridRows(ls, skips, pitch, rows, cols, n - 1) + GridRow(ls, skips, pitch, rows, cols, n - 1, cols)
  {
  }

  lemma InConcat<T>(x: T, a: seq<T>, b: seq<T>)
    requires x in a || x in b
    ensures x in a + b
  {
  }

  lemma {:induction false} RowComplete(ls: seq<string>, skips: seq<string>, pitch: real, rows: int, cols: int,
                                       row: nat, c: nat, col: nat)
    requires row < |ls| && col < c
    requires PadId(ls, row, col) !in skips
    ensures (PadId(ls, row, col), GridX(col, cols, pitch), GridX(row, rows, pitch)) in GridRow(ls, skips, pitch, rows, cols, row, c)
    decreases c
  {
    if col < c - 1 {
      RowComplete(ls, skips, pitch, rows, cols, row, c - 1, col);
    }
  }

  // ===========================================================================
  // pin_centres

  type Centre = IcMod.Centre

  /** The row pitch: one value for all rows, or, with pins_first_row, the
      number of pins on the left and right rows and a pitch for each pair of
      rows. */
  datatype RowLayout = Uniform(rowPitch: real) | FirstRow(pinsFirstRow: int, rowPitchH: real, rowPitchV: real)

  /** Pins on the left and right rows. */
  function VPins(pins: int, rows: int, layout: RowLayout): int
    requires rows > 0
  {
    if layout.FirstRow? then layout.pinsFirstRow else pins / rows
  }

  /** Pins on the bottom and top rows: what is left, halved (rounding down). */
  function HPins(pins: int, rows: int, layout: RowLayout): int
    requires rows > 0
  {
    if layout.FirstRow? then (pins - 2 * layout.pinsFirstRow) / 2 else pins / rows
  }

  /** range(n) is empty for n <= 0. */
  function Count(n: int): nat { if n > 0 then n else 0 }

  function HalfH(layout: RowLayout): real
  {
    if layout.FirstRow? then layout.rowPitchH / 2.0 else layout.rowPitch / 2.0
  }

  function HalfV(layout: RowLayout): real
  {
    if layout.FirstRow? then layout.rowPitchV / 2.0 else layout.rowPitch / 2.0
  }

  /** The four rows (left, bottom, right, top). */
  function Centres(pins: int, rows: int, pinPitch: real, layout: RowLayout)
    : (seq<Centre>, seq<Centre>, seq<Centre>, seq<Centre>)
    requires rows > 0
  {
    var v := VPins(pins, rows, layout);
    var h := HPins(pins, rows, layout);
    var yv := IcMod.RowStart(v, pinPitch);
    var yh := IcMod.RowStart(h, pinPitch);
    (IcMod.LeftRow(Count(v), HalfH(layout), yv, pinPitch), IcMod.BottomRow(Count(h), HalfV(layout), yh, pinPitch),
     IcMod.RightRow(Count(v), HalfH(layout), yv, pinPitch), IcMod.TopRow(Count(h), HalfV(layout), yh, pinPitch))
  }

  /** The first loop of pin_centres: down the left row, and up the right row
      by inserting each centre at the front. */
  method SideRows(n: nat, x: real, y0: real, pitch: real) returns (left: seq<Centre>, right: seq<Centre>)
    ensures left == IcMod.LeftRow(n, x, y0, pitch) && right == IcMod.RightRow(n, x, y0, pitch)
  {
    left, right := [], [];
    var y := y0;
    for pin := 0 to n
      invariant y == IcMod.RowY(y0, pitch, pin)
      invariant left == IcMod.LeftRow(pin, x, y0, pitch)
      invariant right == IcMod.RightRow(pin, x, y0, pitch)
    {
      left := left + [(-x, y)];
      right := [(x, y)] + right;
      IcMod.RowYNext(y0, pitch, pin);
      y := y + pitch;
    }
  }

  /** The second loop: along the bottom row, and back along the top row. */
  method EndRows(n: nat, x: real, y0: real, pitch: real) returns (bottom: seq<Centre>, top: seq<Centre>)
    ensures bottom == IcMod.BottomRow(n, x, y0, pitch) && top == IcMod.TopRow(n, x, y0, pitch)
  {
    bottom, top := [], [];
    var y := y0;
    for pin := 0 to n
      invariant y == IcMod.RowY(y0, pitch, pin)
      invariant top == IcMod.TopRow(pin, x, y0, pitch)
      invariant bottom == IcMod.BottomRow(pin, x, y0, pitch)
    {
      top := [(y, -x)] + top;
      bottom := bottom + [(y, x)];
      IcMod.RowYNext(y0, pitch, pin);
      y := y + pitch;
    }
  }

  /** pin_centres: a loop down the left and right rows, then one along the
      bottom and top rows; right and top are built by inserting at the front. */
  method PinCentres(pins: int, rows: int, pinPitch: real, layout: RowLayout)
    returns (left: seq<Centre>, bottom: seq<Centre>, right: seq<Centre>, top: seq<Centre>)
    requires rows > 0
    ensures (left, bottom, right, top) == Centres(pins, rows, pinPitch, layout)
  {
    var v, h, hx, vx;
    if layout.FirstRow? {
      v := layout.pinsFirstRow;
      h := (pins - 2 * v) / 2;
      hx := layout.rowPitchH / 2.0;
      vx := layout.rowPitchV / 2.0;
    } else {
      v := pins / rows;
      h := v;
      hx := layout.rowPitch / 2.0;
      vx := hx;
    }
    var hLength := ((h - 1) as real) * pinPitch;
    var vLength := ((v - 1) as real) * pinPitch;
    left, right := SideRows(Count(v), hx, -vLength / 2.0, pinPitch);
    bottom, top := EndRows(Count(h), vx, -hLength / 2.0, pinPitch);
    ghost var yv, yh := -vLength / 2.0, -hLength / 2.0;
    assert v == VPins(pins, rows, layout) && h == HPins(pins, rows, layout);
    assert hx == HalfH(layout) && vx == HalfV(layout);
    assert yv == IcMod.RowStart(v, pinPitch) && yh == IcMod.RowStart(h, pinPitch);
  }

  /** Left and right rows have pins_first_row entries (pins / rows without
      it), bottom and top the rest halved; right is left reversed with x
      negated, top is bottom reversed with y negated. */
  lemma CentresMirror(pins: int, rows: int, pinPitch: real, layout: RowLayout)
    requires rows > 0
    ensures var (left, bottom, right, top) := Centres(pins, rows, pinPitch, layout);
            var v, h := Count(VPins(pins, rows, layout)), Count(HPins(pins, rows, layout));
            |left| == v && |right| == v && |bottom| == h && |top| == h
            && (forall i :: 0 <= i < v ==> right[i] == (-left[v - 1 - i].0, left[v - 1 - i].1))
            && (forall i :: 0 <= i < h ==> top[i] == (bottom[h - 1 - i].0, -bottom[h - 1 - i].1))
            && (forall i :: 0 <= i < v - 1 ==> left[i + 1].1 - left[i].1 == pinPitch)
            && (forall i :: 0 <= i < h - 1 ==> bottom[i + 1].0 - bottom[i].0 == pinPitch)
  {
    var (left, bottom, right, top) := Centres(pins, rows, pinPitch, layout);
    var v, h := VPins(pins, rows, layout), HPins(pins, rows, layout);
    forall i | 0 <= i < Count(v) - 1 ensures left[i + 1].1 - left[i].1 == pinPitch {
      IcMod.RowYNext(IcMod.RowStart(v, pinPitch), pinPitch, i);
    }
    forall i | 0 <= i < Count(h) - 1 ensures bottom[i + 1].0 - bottom[i].0 == pinPitch {
      IcMod.RowYNext(IcMod.RowStart(h, pinPitch), pinPitch, i);
    }
  }

  /** Without pins_first_row the rows are those of scripts/icmod.py. */
  lemma UniformIsIcMod(pins: nat, rows: nat, pinPitch: real, rowPitch: real)
    requires rows > 0
    ensures Centres(pins, rows, pinPitch, Uniform(rowPitch)) == IcMod.Centres(pins, rows, pinPitch, rowPitch)
  {
  }

  // ===========================================================================
  // pad_row and pads

  const PadLayers: seq<Node> := [Str("F.Cu"), Str("F.Mask"), Str("F.Paste")]

  function SmdPad(num: int, at: Centre, size: Centre): Node
  {
    KicadMod.Pad(Int(num), Str("smd"), Str("rect"), KicadMod.At(at), [Flt(size.0), Flt(size.1)], PadLayers,
                 None, None, None, None)
  }

  /** The offsets i < n whose 1-based position idx + i is not in skip, in
      increasing order: `idx - 1 in skip` after `idx += 1` tests the position
      before the increment, and an int never equals a str entry. */
  function Kept(idx: int, n: nat, skip: seq<SkipPin>): (r: seq<nat>)
    ensures forall k :: 0 <= k < |r| ==> r[k] < n
    ensures forall k, l :: 0 <= k < l < |r| ==> r[k] < r[l]
    ensures forall i :: 0 <= i < n ==> (i in r <==> Num(idx + i) !in skip)
  {
    if n == 0 then [] else Kept(idx, n - 1, skip) + (if Num(idx + n - 1) in skip then [] else [n - 1])
  }

  predicate Skipped(skip: seq<SkipPin>, p: int) { Num(p) in skip }

  function Shift(s: seq<nat>, d: nat): (r: seq<nat>)
    ensures |r| == |s| && forall k :: 0 <= k < |s| ==> r[k] == s[k] + d
  {
    seq(|s|, k requires 0 <= k < |s| => s[k] + d)
  }

  /** The positions kept over two rows in a row are those of the first row
      followed by those of the second, counted on from where the first ended. */
  lemma {:induction false} KeptConcat(idx: int, n1: nat, n2: nat, skip: seq<SkipPin>)
    ensures Kept(idx, n1 + n2, skip) == Kept(idx, n1, skip) + Shift(Kept(idx + n1, n2, skip), n1)
    decreases n2
  {
    if n2 > 0 {
      KeptConcat(idx, n1, n2 - 1, skip);
      var tail := if Num(idx + n1 + n2 - 1) in skip then [] else [n2 - 1];
      assert Kept(idx + n1, n2, skip) == Kept(idx + n1, n2 - 1, skip) + tail;
      assert Shift(Kept(idx + n1, n2 - 1, skip) + tail, n1) == Shift(Kept(idx + n1, n2 - 1, skip), n1) + Shift(tail, n1);
    }
  }

  /** With nothing skipped, every position is kept. */
  lemma {:induction false} KeptAll(idx: int, n: nat, skip: seq<SkipPin>)
    requires forall p :: idx <= p < idx + n ==> !Skipped(skip, p)
    ensures Kept(idx, n, skip) == seq(n, i => i)
    decreases n
  {
    if n > 0 {
      assert !Skipped(skip, idx + n - 1);
      KeptAll(idx, n - 1, skip);
      assert seq(n, i => i) == seq(n - 1, i => i) + [n - 1];
    }
  }

  /** The pads pad_row emits: the kept centres, numbered on from num. */
  function RowPads(centres: seq<Centre>, num: int, idx: int, size: Centre, skip: seq<SkipPin>): seq<Node>
  {
    var kept := Kept(idx, |centres|, skip);
    seq(|kept|, k requires 0 <= k < |kept| => SmdPad(num + k, centres[kept[k]], size))
  }

  /** One more centre of a row: a pad for it exactly when its position is not skipped. */
  lemma RowPadsSnoc(centres: seq<Centre>, c: Centre, num: int, idx: int, size: Centre, skip: seq<SkipPin>, out: seq<Node>)
    requires out == RowPads(centres, num, idx, size, skip)
    ensures Num(idx + |centres|) in skip ==> RowPads(centres + [c], num, idx, size, skip) == out
    ensures Num(idx + |centres|) !in skip ==> RowPads(centres + [c], num, idx, size, skip) == out + [SmdPad(num + |out|, c, size)]
  {
    var cs := centres + [c];
    var k0, k1 := Kept(idx, |centres|, skip), Kept(idx, |cs|, skip);
    var tail := if Num(idx + |centres|) in skip then [] else [|centres|];
    assert k1 == k0 + tail;
    var b := RowPads(cs, num, idx, size, skip);
    var pads := if Num(idx + |centres|) in skip then [] else [SmdPad(num + |out|, c, size)];
    assert |b| == |out| + |pads|;
    forall k | 0 <= k < |b| ensures b[k] == (out + pads)[k] {
      if k < |k0| {
        assert k1[k] == k0[k] && cs[k0[k]] == centres[k0[k]];
      } else {
        assert k1[k] == |centres| && cs[|centres|] == c;
      }
    }
    assert b == out + pads;
  }

  lemma RowPadsNone(centres: seq<Centre>, num: int, idx: int, size: Centre, skip: seq<SkipPin>)
    ensures RowPads(centres[..0], num, idx, size, skip) == []
  {
    assert Kept(idx, 0, skip) == [];
  }

  /** One step of pad_row, stated on the pads emitted so far. */
  lemma RowPadsNext(centres: seq<Centre>, i: nat, num: int, idx: int, size: Centre, skip: seq<SkipPin>, out: seq<Node>)
    requires i < |centres| && out == RowPads(centres[..i], num, idx, size, skip)
    ensures Num(idx + i) in skip ==> RowPads(centres[..i + 1], num, idx, size, skip) == out
    ensures Num(idx + i) !in skip ==> RowPads(centres[..i + 1], num, idx, size, skip) == out + [SmdPad(num + |out|, centres[i], size)]
  {
    var pre, c := centres[..i], centres[i];
    assert centres[..i + 1] == pre + [c];
    assert |pre| == i;
    RowPadsSnoc(pre, c, num, idx, size, skip, out);
  }

  /** pad_row: idx advances once per centre; a pad is emitted, and num
      advanced, only for a position that is not skipped. */
  method PadRow(centres: seq<Centre>, num: int, idx: int, size: Centre, skip: seq<SkipPin>)
    returns (num': int, idx': int, out: seq<Node>)
    ensures out == RowPads(centres, num, idx, size, skip)
    ensures idx' == idx + |centres| && num' == num + |out|
  {
    num', idx', out := num, idx, [];
    RowPadsNone(centres, num, idx, size, skip);
    for i := 0 to |centres|
      invariant idx' == idx + i
      invariant out == RowPads(centres[..i], num, idx, size, skip)
      invariant num' == num + |out|
    {
      idx' := idx' + 1;
      out, num' := PadAt(centres, i, num, idx, size, skip, out, num');
    }
    assert centres[..|centres|] == centres;
  }

  /** One pass of pad_row's loop: the pad for centre i and the next number,
      or nothing when position idx + i is skipped. */
  method PadAt(centres: seq<Centre>, i: nat, num: int, idx: int, size: Centre, skip: seq<SkipPin>, out: seq<Node>, n: int)
    returns (out': seq<Node>, n': int)
    requires i < |centres| && out == RowPads(centres[..i], num, idx, size, skip) && n == num + |out|
    ensures out' == RowPads(centres[..i + 1], num, idx, size, skip) && n' == num + |out'|
  {
    RowPadsNext(centres, i, num, idx, size, skip, out);
    if Num(idx + i) in skip {
      return out, n;
    }
    out', n' := out + [SmdPad(n, centres[i], size)], n + 1;
  }

  /** out numbers the kept centres of cs consecutively from num, each at its
      centre. */
  predicate Numbered(out: seq<Node>, cs: seq<Centre>, num: int, idx: int, skip: seq<SkipPin>)
  {
    var kept := Kept(idx, |cs|, skip);
    |out| == |kept|
    && forall k :: 0 <= k < |kept| ==> IcMod.PadNumber(out[k]) == Int(num + k)
                                       && KicadMod.PointOf(out[k], 4) == [Flt(cs[kept[k]].0), Flt(cs[kept[k]].1)]
  }

  lemma RowPadsNumbered(centres: seq<Centre>, num: int, idx: int, size: Centre, skip: seq<SkipPin>)
    ensures Numbered(RowPads(centres, num, idx, size, skip), centres, num, idx, skip)
  {
    var kept := Kept(idx, |centres|, skip);
    var out := RowPads(centres, num, idx, size, skip);
    forall k | 0 <= k < |kept|
      ensures IcMod.PadNumber(out[k]) == Int(num + k)
              && KicadMod.PointOf(out[k], 4) == [Flt(centres[kept[k]].0), Flt(centres[kept[k]].1)]
    {
      assert out[k] == SmdPad(num + k, centres[kept[k]], size);
      SmdPadFields(num + k, centres[kept[k]], size);
    }
  }

  /** An SMD pad carries its number and its centre. */
  lemma SmdPadFields(num: int, at: Centre, size: Centre)
    ensures IcMod.PadNumber(SmdPad(num, at, size)) == Int(num)
    ensures KicadMod.PointOf(SmdPad(num, at, size), 4) == [Flt(at.0), Flt(at.1)]
  {
    var p := SmdPad(num, at, size);
    assert p.children[1] == Int(num) && p.children[4] == KicadMod.Pair("at", KicadMod.At(at));
  }

  /** Two rows numbered one after the other make one numbered row. */
  lemma NumberedConcat(o1: seq<Node>, c1: seq<Centre>, o2: seq<Node>, c2: seq<Centre>, num: int, idx: int, skip: seq<SkipPin>)
    requires Numbered(o1, c1, num, idx, skip)
    requires Numbered(o2, c2, num + |o1|, idx + |c1|, skip)
    ensures Numbered(o1 + o2, c1 + c2, num, idx, skip)
  {
    KeptConcat(idx, |c1|, |c2|, skip);
    var k1 := Kept(idx, |c1|, skip);
    var k2 := Kept(idx + |c1|, |c2|, skip);
    var kept := Kept(idx, |c1 + c2|, skip);
    assert kept == k1 + Shift(k2, |c1|);
    forall k | 0 <= k < |kept|
      ensures IcMod.PadNumber((o1 + o2)[k]) == Int(num + k)
              && KicadMod.PointOf((o1 + o2)[k], 4) == [Flt((c1 + c2)[kept[k]].0), Flt((c1 + c2)[kept[k]].1)]
    {
      if k >= |k1| {
        var m := k - |k1|;
        assert (o1 + o2)[k] == o2[m];
        assert kept[k] == k2[m] + |c1|;
        assert (c1 + c2)[kept[k]] == c2[k2[m]];
      } else {
        assert (c1 + c2)[kept[k]] == c1[k1[k]];
      }
    }
  }

  /** The centres in the order pads visits them. */
  function PadOrder(pins: int, rows: int, pinPitch: real, layout: RowLayout): seq<Centre>
    requires rows > 0
  {
    var (l, b, r, t) := Centres(pins, rows, pinPitch, layout);
    if rows == 4 then l + b + r + t else l + r
  }

  /** pads: num and idx run on from row to row (left, bottom, right, top, the
      bottom and top rows only for four rows), so pads are numbered 1, 2, ...
      over the kept positions and a skip entry is a 1-based position counted
      across all rows; the exposed-pad pads, when there are any, come last. */
  method Pads(pins: int, rows: int, pinPitch: real, layout: RowLayout, padShape: Centre,
              skip: seq<SkipPin>, exposed: Option<seq<Node>>) returns (out: seq<Node>)
    requires rows > 0
    ensures var order := PadOrder(pins, rows, pinPitch, layout);
            var kept := Kept(1, |order|, skip);
            var ep := if exposed.Some? then exposed.value else [];
            |out| == |kept| + |ep| && out[|kept|..] == ep
            && forall k :: 0 <= k < |kept| ==> IcMod.PadNumber(out[k]) == Int(1 + k)
                                               && KicadMod.PointOf(out[k], 4) == [Flt(order[kept[k]].0), Flt(order[kept[k]].1)]
  {
    var body := RowsPads(pins, rows, pinPitch, layout, padShape, skip);
    out := body;
    if exposed.Some? {
      out := out + exposed.value;
    }
    NumberedThenExposed(body, if exposed.Some? then exposed.value else [], PadOrder(pins, rows, pinPitch, layout), skip, out);
  }

  /** The pads of all rows, before any exposed pad. */
  method RowsPads(pins: int, rows: int, pinPitch: real, layout: RowLayout, padShape: Centre,
                  skip: seq<SkipPin>) returns (out: seq<Node>)
    requires rows > 0
    ensures Numbered(out, PadOrder(pins, rows, pinPitch, layout), 1, 1, skip)
  {
    var sizeLR := padShape;
    var sizeTB := (padShape.1, padShape.0);
    var leftr, btmr, rightr, topr := PinCentres(pins, rows, pinPitch, layout);
    var num, idx;
    num, idx, out := PadRow(leftr, 1, 1, sizeLR, skip);
    RowPadsNumbered(leftr, 1, 1, sizeLR, skip);
    ghost var order := leftr;
    if rows == 4 {
      out, order, num, idx := AppendRow(out, order, btmr, sizeTB, skip, num, idx);
    }
    out, order, num, idx := AppendRow(out, order, rightr, sizeLR, skip, num, idx);
    if rows == 4 {
      out, order, num, idx := AppendRow(out, order, topr, sizeTB, skip, num, idx);
    }
    PadOrderOf(pins, rows, pinPitch, layout, leftr, btmr, rightr, topr);
  }

  lemma PadOrderOf(pins: int, rows: int, pinPitch: real, layout: RowLayout, l: seq<Centre>, b: seq<Centre>, r: seq<Centre>, t: seq<Centre>)
    requires rows > 0 && (l, b, r, t) == Centres(pins, rows, pinPitch, layout)
    ensures PadOrder(pins, rows, pinPitch, layout) == if rows == 4 then l + b + r + t else l + r
  {
  }

  /** One pad_row call of pads, numbering on from the rows before it. */
  method AppendRow(out: seq<Node>, ghost order: seq<Centre>, centres: seq<Centre>, size: Centre, skip: seq<SkipPin>,
                   num: int, idx: int) returns (out': seq<Node>, ghost order': seq<Centre>, num': int, idx': int)
    requires Numbered(out, order, 1, 1, skip) && num == 1 + |out| && idx == 1 + |order|
    ensures order' == order + centres && Numbered(out', order', 1, 1, skip)
    ensures num' == 1 + |out'| && idx' == 1 + |order'|
  {
    var row;
    num', idx', row := PadRow(centres, num, idx, size, skip);
    RowPadsNumbered(centres, num, idx, size, skip);
    NumberedConcat(out, order, row, centres, 1, 1, skip);
    out', order' := out + row, order + centres;
  }

  lemma NumberedThenExposed(body: seq<Node>, ep: seq<Node>, order: seq<Centre>, skip: seq<SkipPin>, out: seq<Node>)
    requires Numbered(body, order, 1, 1, skip) && out == body + ep
    ensures var kept := Kept(1, |order|, skip);
            |out| == |kept| + |ep| && out[|kept|..] == ep
            && forall k :: 0 <= k < |kept| ==> IcMod.PadNumber(out[k]) == Int(1 + k)
                                               && KicadMod.PointOf(out[k], 4) == [Flt(order[kept[k]].0), Flt(order[kept[k]].1)]
  {
    assert out[|body|..] == ep;
    forall k | 0 <= k < |body| ensures out[k] == body[k] { }
  }

  /** With no position skipped, pads 1..n sit at the n centres in order. */
  lemma NoSkipAllPads(pins: int, rows: int, pinPitch: real, layout: RowLayout, skip: seq<SkipPin>)
    requires rows > 0
    requires forall p :: 1 <= p <= |PadOrder(pins, rows, pinPitch, layout)| ==> !Skipped(skip, p)
    ensures Kept(1, |PadOrder(pins, rows, pinPitch, layout)|, skip) == seq(|PadOrder(pins, rows, pinPitch, layout)|, i => i)
  {
    KeptAll(1, |PadOrder(pins, rows, pinPitch, layout)|, skip);
  }

  // ===========================================================================
  // main

  datatype Package = Quad | Grid

  /** The configuration dispatch of main: rows with pins is a dual or quad
      package, after asserting rows is 2 or 4 and divides pins; rows with
      cols is a BGA; anything else is refused. */
  function Dispatch(rows: Option<int>, pins: Option<int>, cols: Option<int>): (r: Outcome<Package>)
    ensures r == Ok(Quad) <==> rows.Some? && pins.Some? && (rows.value == 2 || rows.value == 4)
                               && pins.value % rows.value == 0
    ensures r == Ok(Grid) <==> rows.Some? && pins.None? && cols.Some?
    ensures r.Raise? ==> (r.exc == AssertionError <==> rows.Some? && pins.Some?)
                         && (r.exc == ValueError <==> !(rows.Some? && (pins.Some? || cols.Some?)))
  {
    if rows.Some? && pins.Some? then
      if !(rows.value == 2 || rows.value == 4) then Raise(AssertionError)
      else if pins.value % rows.value != 0 then Raise(AssertionError)
      else Ok(Quad)
    else if rows.Some? && cols.Some? then Ok(Grid)
    else Raise(ValueError)
  }

  /** A dual or quad package that passes main's checks has one pad per pin
      when nothing is skipped and pins_first_row is not given. */
  lemma QuadPadCount(rows: nat, pins: nat, pinPitch: real, rowPitch: real)
    requires Dispatch(Some(rows), Some(pins), None) == Ok(Quad)
    ensures |PadOrder(pins, rows, pinPitch, Uniform(rowPitch))| == pins
  {
    UniformIsIcMod(pins, rows, pinPitch, rowPitch);
    IcMod.PadCountIsPins(pins, rows, pinPitch, rowPitch);
    assert PadOrder(pins, rows, pinPitch, Uniform(rowPitch)) == IcMod.PadOrder(pins, rows, pinPitch, rowPitch);
  }

  // ---------------------------------------------------------------------------
  // The verify comparison: `[n for n in sexp_parse(x) if n[0] != "tedit"]`

  /** `n[0] == "tedit"`: n[0] raises IndexError on an empty str or list and
      TypeError on a number; a str's first character is never "tedit", and
      a list's first element is "tedit" only when it is that str. */
  function IsTedit(n: Node): Outcome<bool>
  {
    match n
    case Str(s) => if |s| == 0 then Raise(IndexError) else Ok(false)
    case List(cs) => if |cs| == 0 then Raise(IndexError) else Ok(cs[0] == Str("tedit"))
    case _ => Raise(TypeError)
  }

  /** The filtering comprehension, evaluated left to right. */
  function DropTedit(cs: seq<Node>): Outcome<seq<Node>>
  {
    if |cs| == 0 then Ok([])
    else match IsTedit(cs[0])
      case Raise(e) => Raise(e)
      case Ok(t) =>
        match DropTedit(cs[1..])
        case Raise(e) => Raise(e)
        case Ok(rest) => Ok(if t then rest else [cs[0]] + rest)
  }

  /** The children of one footprint text, parsed and filtered. */
  function Untimed(text: string): Outcome<seq<Node>>
  {
    match ParseText(Placeholder, text)
    case Raise(e) => Raise(e)
    case Ok(tree) =>
      match Elements(tree)
      case Raise(e) => Raise(e)
      case Ok(cs) => DropTedit(cs)
  }

  /** Whether the footprint on disk equals the one just generated once their
      tedit stamps are dropped; the one on disk is parsed first. */
  function Unchanged(onDisk: string, generated: string): Outcome<bool>
  {
    match Untimed(onDisk)
    case Raise(e) => Raise(e)
    case Ok(o) =>
      match Untimed(generated)
      case Raise(e) => Raise(e)
      case Ok(n) => Ok(n == o)
  }

  /** No top-level element whose `[0]` could raise. */
  predicate Indexable(cs: seq<Node>)
  {
    forall k :: 0 <= k < |cs| ==> (cs[k].Str? && |cs[k].s| > 0) || (cs[k].List? && |cs[k].children| > 0)
  }

  /** The reference filter: every element kept except lists headed "tedit". */
  function WithoutTedit(cs: seq<Node>): (r: seq<Node>)
    ensures forall k :: 0 <= k < |r| ==> r[k] in cs && !(r[k].List? && |r[k].children| > 0 && r[k].children[0] == Str("tedit"))
  {
    if |cs| == 0 then []
    else
      var rest := WithoutTedit(cs[1..]);
      assert forall k :: 0 <= k < |rest| ==> rest[k] in cs by {
        forall k | 0 <= k < |rest| ensures rest[k] in cs {
          assert rest[k] in cs[1..];
        }
      }
      if cs[0].List? && |cs[0].children| > 0 && cs[0].children[0] == Str("tedit") then rest
      else [cs[0]] + rest
  }

  lemma {:induction false} DropTeditFilters(cs: seq<Node>)
    requires Indexable(cs)
    ensures DropTedit(cs) == Ok(WithoutTedit(cs))
    decreases |cs|
  {
    if |cs| > 0 {
      assert Indexable(cs[1..]) by {
        forall k | 0 <= k < |cs[1..]|
          ensures (cs[1..][k].Str? && |cs[1..][k].s| > 0) || (cs[1..][k].List? && |cs[1..][k].children| > 0)
        {
          assert cs[1..][k] == cs[k + 1];
        }
      }
      DropTeditFilters(cs[1..]);
    }
  }

  lemma {:induction false} WithoutTeditConcat(a: seq<Node>, b: seq<Node>)
    ensures WithoutTedit(a + b) == WithoutTedit(a) + WithoutTedit(b)
    decreases |a|
  {
    if |a| > 0 {
      assert (a + b)[1..] == a[1..] + b;
      WithoutTeditConcat(a[1..], b);
    } else {
      assert a + b == b;
    }
  }

  lemma {:induction false} NormSeqAt(cs: seq<Node>)
    ensures forall k :: 0 <= k < |cs| ==> NormSeq(cs)[k] == Norm(cs[k])
    decreases |cs|
  {
    if |cs| > 0 {
      NormSeqAt(cs[1..]);
      forall k | 1 <= k < |cs| ensures NormSeq(cs)[k] == Norm(cs[k]) {
        assert NormSeq(cs)[k] == NormSeq(cs[1..])[k - 1];
      }
    }
  }

  lemma NormSeqConcat(a: seq<Node>, b: seq<Node>)
    ensures NormSeq(a + b) == NormSeq(a) + NormSeq(b)
  {
    NormSeqAt(a + b);
    NormSeqAt(a);
    NormSeqAt(b);
    forall k | |a| <= k < |a| + |b| ensures NormSeq(a + b)[k] == (NormSeq(a) + NormSeq(b))[k] {
      assert (a + b)[k] == b[k - |a|];
    }
  }

  /** Every top-level element is an atom or a non-empty list. */
  predicate NoEmptyList(cs: seq<Node>)
  {
    forall k :: 0 <= k < |cs| ==> cs[k].List? ==> |cs[k].children| > 0
  }

  lemma NormIndexable(cs: seq<Node>)
    requires GoodSeq(cs) && NoEmptyList(cs)
    ensures Indexable(NormSeq(cs))
  {
    NormSeqAt(cs);
    forall k | 0 <= k < |cs|
      ensures (NormSeq(cs)[k].Str? && |NormSeq(cs)[k].s| > 0) || (NormSeq(cs)[k].List? && |NormSeq(cs)[k].children| > 0)
    {
      if !cs[k].List? {
        AtomValueNonEmpty(cs[k]);
      }
    }
  }

  /** For generated footprints, main's comparison says exactly whether the two
      trees agree once atoms are read back as text and tedit children are
      dropped. */
  lemma UnchangedIff(a: seq<Node>, b: seq<Node>)
    requires GoodSeq(a) && GoodSeq(b) && NoEmptyList(a) && NoEmptyList(b)
    ensures Unchanged(Generate(a, 0), Generate(b, 0)) == Ok(WithoutTedit(NormSeq(a)) == WithoutTedit(NormSeq(b)))
  {
    RoundTrip(Placeholder, a, 0);
    RoundTrip(Placeholder, b, 0);
    NormIndexable(a);
    NormIndexable(b);
    DropTeditFilters(NormSeq(a));
    DropTeditFilters(NormSeq(b));
    assert Untimed(Generate(a, 0)) == Ok(WithoutTedit(NormSeq(a)));
    assert Untimed(Generate(b, 0)) == Ok(WithoutTedit(NormSeq(b)));
  }

  /** Two generated footprints that differ only in their tedit child count as
      unchanged. */
  lemma TeditIgnored(pre: seq<Node>, post: seq<Node>, t1: seq<Node>, t2: seq<Node>)
    requires GoodSeq(pre + [List([Str("tedit")] + t1)] + post) && GoodSeq(pre + [List([Str("tedit")] + t2)] + post)
    requires NoEmptyList(pre) && NoEmptyList(post)
    ensures Unchanged(Generate(pre + [List([Str("tedit")] + t1)] + post, 0),
                      Generate(pre + [List([Str("tedit")] + t2)] + post, 0)) == Ok(true)
  {
    var a := pre + [List([Str("tedit")] + t1)] + post;
    var b := pre + [List([Str("tedit")] + t2)] + post;
    NoEmptySplice(pre, List([Str("tedit")] + t1), post);
    NoEmptySplice(pre, List([Str("tedit")] + t2), post);
    UnchangedIff(a, b);
    TeditDropped(pre, post, t1);
    TeditDropped(pre, post, t2);
  }

  lemma NoEmptySplice(pre: seq<Node>, x: Node, post: seq<Node>)
    requires NoEmptyList(pre) && NoEmptyList(post) && x.List? && |x.children| > 0
    ensures NoEmptyList(pre + [x] + post)
  {
    var a := pre + [x] + post;
    forall k | 0 <= k < |a| && a[k].List? ensures |a[k].children| > 0 {
      if k < |pre| { assert a[k] == pre[k]; }
      else if k > |pre| { assert a[k] == post[k - |pre| - 1]; }
    }
  }

  lemma TeditDropped(pre: seq<Node>, post: seq<Node>, t: seq<Node>)
    ensures WithoutTedit(NormSeq(pre + [List([Str("tedit")] + t)] + post)) == WithoutTedit(NormSeq(pre)) + WithoutTedit(NormSeq(post))
  {
    var x := List([Str("tedit")] + t);
    NormSeqConcat(pre + [x], post);
    NormSeqConcat(pre, [x]);
    var np, nx, nq := NormSeq(pre), NormSeq([x]), NormSeq(post);
    assert NormSeq(pre + [x] + post) == np + nx + nq;
    WithoutTeditConcat(np + nx, nq);
    WithoutTeditConcat(np, nx);
    TeditHeadDropped(t);
    assert WithoutTedit(np + nx) == WithoutTedit(np);
  }

  lemma TeditHeadDropped(t: seq<Node>)
    ensures WithoutTedit(NormSeq([List([Str("tedit")] + t)])) == []
  {
    var head := [Str("tedit")] + t;
    assert head[0] == Str("tedit") && head[1..] == t;
    var nt := NormSeq(head);
    assert nt == [Norm(Str("tedit"))] + NormSeq(t);
    assert nt[0] == Str("tedit");
    var one := [List(head)];
    assert one[1..] == [];
    assert NormSeq(one) == [List(nt)];
    var s := [List(nt)];
    assert s[1..] == [];
  }
}
