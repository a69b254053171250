/**
 * scripts/xml2bom.py: group the components of a KiCad schematic netlist by
 * the order-code fields they carry, flag groups whose members disagree on
 * value or footprint, list parts without order codes or footprints, and
 * format one vendor quick-paste line per group.
 */
module Xml2bom {
  import opened Py

  // ===========================================================================
  // Component records

  /** One <comp> element: its ref attribute, the text of its <value> and
      <footprint> children (None when absent), and its <field> elements as
      (name, text) pairs in document order. */
  datatype Comp = Comp(ref: string, value: Option<string>, footprint: Option<string>, fields: seq<(string, string)>)

  /** The part dictionary built for a component. */
  datatype Part = Part(ref: string, value: Option<string>, footprint: Option<string>, fields: map<string, string>)

  /** fields[name] = number for each field in turn: a later field of the same
      name wins. */
  function FieldMap(fs: seq<(string, string)>): (r: map<string, string>)
    ensures r == map[] <==> |fs| == 0
    ensures |fs| > 0 ==> fs[|fs| - 1].0 in r && r[fs[|fs| - 1].0] == fs[|fs| - 1].1
  {
    if |fs| == 0 then map[]
    else
      var last := fs[|fs| - 1];
      assert last.0 in FieldMap(fs[..|fs| - 1])[last.0 := last.1];
      FieldMap(fs[..|fs| - 1])[last.0 := last.1]
  }

  lemma FieldMapStep(fs: seq<(string, string)>, j: nat)
    requires j < |fs|
    ensures FieldMap(fs[..j + 1]) == FieldMap(fs[..j])[fs[j].0 := fs[j].1]
  {
    assert fs[..j + 1][..j] == fs[..j];
  }

  /** The part of a component. It holds the finished fields dictionary: the
      script stores the dictionary itself and fills it afterwards, and nothing
      reads it before the loop is over. */
  function PartOf(c: Comp): Part
  {
    Part(c.ref, c.value, c.footprint, FieldMap(c.fields))
  }

  /** The truth value of an optional text: None and "" are false. */
  predicate Truthy(s: Option<string>)
  {
    s.Some? && |s.value| > 0
  }

  // ===========================================================================
  // ignore_part

  /** The -i and -e lists; an option not given is the empty list, as nargs='+'
      never yields an empty one. */
  datatype Filter = Filter(included: seq<string>, excluded: seq<string>)

  /** A ref outside a given include list is ignored, and so is a ref in a
      given exclude list. The command line accepts one list at most. */
  function Ignored(f: Filter, ref: string): (b: bool)
    ensures |f.excluded| == 0 ==> (b <==> |f.included| > 0 && ref !in f.included)
    ensures |f.included| == 0 ==> (b <==> ref in f.excluded)
    ensures b ==> ref !in f.included || ref in f.excluded
  {
    if |f.included| > 0 && ref !in f.included then true
    else if |f.excluded| > 0 && ref in f.excluded then true
    else false
  }

  // ===========================================================================
  // Groups

  /** parts and inconsistent_order_code: name -> number -> parts. */
  type Groups = map<string, map<string, seq<Part>>>

  /** The group at name and number, empty when there is none. */
  function Lookup(g: Groups, name: string, number: string): seq<Part>
  {
    if name in g && number in g[name] then g[name][number] else []
  }

  /** No empty group and no name without a group: a dictionary entry is only
      made on the way to appending to it. */
  predicate Tidy(g: Groups)
  {
    forall name :: name in g ==> g[name] != map[] && forall number :: number in g[name] ==> |g[name][number]| > 0
  }

  /** Two parts disagree on value or footprint. */
  predicate Differs(p: Part, q: Part)
  {
    p.value != q.value || p.footprint != q.footprint
  }

  /** The parts of ps that disagree with first, in order. */
  function Differing(ps: seq<Part>, first: Part): (r: seq<Part>)
    ensures |r| <= |ps|
    ensures forall k :: 0 <= k < |r| ==> Differs(r[k], first) && r[k] in ps
    ensures |r| == 0 <==> forall k :: 0 <= k < |ps| ==> !Differs(ps[k], first)
  {
    if |ps| == 0 then []
    else
      var init := Differing(ps[..|ps| - 1], first);
      assert forall k :: 0 <= k < |ps| - 1 ==> ps[..|ps| - 1][k] == ps[k];
      if Differs(ps[|ps| - 1], first) then init + [ps[|ps| - 1]] else init
  }

  /** The inconsistent_order_code entry of a group: none while every member
      agrees with the first, otherwise the first and then every member that
      disagrees with it. */
  function IncOf(ms: seq<Part>): (r: seq<Part>)
    ensures |r| > 0 <==> |ms| > 0 && exists k :: 0 < k < |ms| && Differs(ms[k], ms[0])
    ensures |r| > 0 ==> r[0] == ms[0] && forall k :: 0 < k < |r| ==> Differs(r[k], ms[0])
  {
    if |ms| == 0 then []
    else
      var d := Differing(ms[1..], ms[0]);
      assert forall k :: 0 < k < |ms| ==> ms[1..][k - 1] == ms[k];
      if |d| == 0 then [] else [ms[0]] + d
  }

  /** The inconsistent groups follow from the groups. */
  ghost predicate Consistent(parts: Groups, inc: Groups)
  {
    forall name, number :: Lookup(inc, name, number) == IncOf(Lookup(parts, name, number))
  }

  /** A part joins a group: the entry is made only when the group is new, and
      a part disagreeing with the first member joins the inconsistent entry,
      which is seeded with that first member. */
  lemma IncSnoc(ms: seq<Part>, p: Part)
    requires |ms| > 0
    ensures IncOf(ms + [p])
         == if !Differs(p, ms[0]) then IncOf(ms)
            else (if |IncOf(ms)| == 0 then [ms[0]] else IncOf(ms)) + [p]
  {
    var s := ms + [p];
    var d := Differing(ms[1..], ms[0]);
    assert s[0] == ms[0];
    assert s[1..] == ms[1..] + [p];
    assert s[1..][..|s[1..]| - 1] == ms[1..];
    assert Differing(s[1..], s[0]) == if Differs(p, ms[0]) then d + [p] else d;
    if Differs(p, ms[0]) && |d| > 0 {
      assert [ms[0]] + (d + [p]) == [ms[0]] + d + [p];
    }
  }

  /** g[name][number] = group, making g[name] if it is new. */
  function Put(g: Groups, name: string, number: string, group: seq<Part>): Groups
  {
    g[name := (if name in g then g[name] else map[])[number := group]]
  }

  /** Put changes the one group and no other. */
  lemma PutLookup(g: Groups, name: string, number: string, group: seq<Part>)
    ensures forall n, m :: Lookup(Put(g, name, number, group), n, m)
                        == if n == name && m == number then group else Lookup(g, n, m)
  {
  }

  lemma PutTidy(g: Groups, name: string, number: string, group: seq<Part>)
    requires Tidy(g) && |group| > 0
    ensures Tidy(Put(g, name, number, group))
  {
    var inner := (if name in g then g[name] else map[])[number := group];
    assert number in inner;
  }

  /** Regrouping at one key keeps the inconsistent groups in step when their
      entry at that key is brought up to date. */
  lemma PutConsistent(parts: Groups, inc: Groups, inc': Groups, name: string, number: string, group: seq<Part>)
    requires Consistent(parts, inc)
    requires forall n, m :: (n != name || m != number) ==> Lookup(inc', n, m) == Lookup(inc, n, m)
    requires Lookup(inc', name, number) == IncOf(group)
    ensures Consistent(Put(parts, name, number, group), inc')
  {
    PutLookup(parts, name, number, group);
  }

  /** Lines 67-72: a part joins the inconsistent entry of its group, which is
      made with the group's first member if new. */
  method NoteInconsistent(inc: Groups, name: string, number: string, first: Part, part: Part) returns (inc': Groups)
    requires Tidy(inc)
    ensures Tidy(inc')
    ensures inc' == Put(inc, name, number, (if |Lookup(inc, name, number)| == 0 then [first] else Lookup(inc, name, number)) + [part])
  {
    ghost var entry := (if |Lookup(inc, name, number)| == 0 then [first] else Lookup(inc, name, number)) + [part];
    var numbers := if name in inc then inc[name] else map[];
    ghost var base := numbers;
    if number !in numbers {
      numbers := numbers[number := [first]];
    }
    numbers := numbers[number := numbers[number] + [part]];
    assert numbers == base[number := entry];
    inc' := inc[name := numbers];
    PutTidy(inc, name, number, entry);
  }

  /** The body of the field loop, lines 61-73 on one (name, number): the
      group is made if new and the part appended to it; a part disagreeing
      with the first member of an existing group also joins its inconsistent
      entry, made with that first member if new. parts[name] and
      inconsistent_order_code[name] are updated through the inner
      dictionaries, as the script does. */
  method File(parts: Groups, inc: Groups, name: string, number: string, part: Part) returns (parts': Groups, inc': Groups)
    requires Tidy(parts) && Tidy(inc) && Consistent(parts, inc)
    ensures Tidy(parts') && Tidy(inc') && Consistent(parts', inc')
    ensures forall n, m :: Lookup(parts', n, m)
                        == if n == name && m == number then Lookup(parts, n, m) + [part] else Lookup(parts, n, m)
  {
    ghost var before := Lookup(parts, name, number);
    ghost var grown := before + [part];
    var numbers := if name in parts then parts[name] else map[];
    ghost var base := numbers;
    inc' := inc;
    if number !in numbers {
      numbers := numbers[number := []];
      assert IncOf(grown) == [];
    } else if Differs(part, numbers[number][0]) {
      IncSnoc(before, part);
      assert Lookup(inc, name, number) == IncOf(before);
      inc' := NoteInconsistent(inc, name, number, numbers[number][0], part);
      PutLookup(inc, name, number, IncOf(grown));
    } else {
      IncSnoc(before, part);
    }
    numbers := numbers[number := numbers[number] + [part]];
    assert numbers == base[number := grown];
    parts' := parts[name := numbers];
    assert parts' == Put(parts, name, number, grown);
    PutLookup(parts, name, number, grown);
    PutTidy(parts, name, number, grown);
    PutConsistent(parts, inc, inc', name, number, grown);
  }

  // ===========================================================================
  // What the component loop collects

  /** How many times the field (name, number) occurs. */
  function Count(fs: seq<(string, string)>, name: string, number: string): nat
  {
    if |fs| == 0 then 0
    else Count(fs[..|fs| - 1], name, number) + if fs[|fs| - 1] == (name, number) then 1 else 0
  }

  /** k copies of p. */
  function Repeat(p: Part, k: nat): (r: seq<Part>)
    ensures |r| == k && forall i :: 0 <= i < k ==> r[i] == p
  {
    if k == 0 then [] else Repeat(p, k - 1) + [p]
  }

  /** parts[name][number]: the part of every component that is not ignored,
      once for each field (name, number) it has, in document order. */
  function Members(f: Filter, cs: seq<Comp>, name: string, number: string): seq<Part>
  {
    if |cs| == 0 then []
    else
      var c := cs[|cs| - 1];
      Members(f, cs[..|cs| - 1], name, number)
        + if Ignored(f, c.ref) then [] else Repeat(PartOf(c), Count(c.fields, name, number))
  }

  /** missing_order_code: the components kept that have no field at all. */
  function MissingCode(f: Filter, cs: seq<Comp>): (r: seq<Part>)
    ensures |r| <= |cs|
    ensures forall k :: 0 <= k < |r| ==> r[k].fields == map[]
  {
    if |cs| == 0 then []
    else
      var c := cs[|cs| - 1];
      MissingCode(f, cs[..|cs| - 1]) + if !Ignored(f, c.ref) && |c.fields| == 0 then [PartOf(c)] else []
  }

  /** missing_footprint: the components kept whose footprint is absent or
      empty. */
  function MissingFootprint(f: Filter, cs: seq<Comp>): (r: seq<Part>)
    ensures |r| <= |cs|
    ensures forall k :: 0 <= k < |r| ==> !Truthy(r[k].footprint)
  {
    if |cs| == 0 then []
    else
      var c := cs[|cs| - 1];
      MissingFootprint(f, cs[..|cs| - 1]) + if !Ignored(f, c.ref) && !Truthy(c.footprint) then [PartOf(c)] else []
  }

  /** One more field of a component filed. */
  lemma FieldStep(g0: Groups, fs: seq<(string, string)>, part: Part, j: nat, g: Groups, g': Groups)
    requires j < |fs|
    requires forall n, m :: Lookup(g, n, m) == Lookup(g0, n, m) + Repeat(part, Count(fs[..j], n, m))
    requires forall n, m :: Lookup(g', n, m)
                         == if n == fs[j].0 && m == fs[j].1 then Lookup(g, n, m) + [part] else Lookup(g, n, m)
    ensures forall n, m :: Lookup(g', n, m) == Lookup(g0, n, m) + Repeat(part, Count(fs[..j + 1], n, m))
  {
    assert fs[..j + 1][..j] == fs[..j];
    forall n, m
      ensures Lookup(g', n, m) == Lookup(g0, n, m) + Repeat(part, Count(fs[..j + 1], n, m))
    {
      var k := Count(fs[..j], n, m);
      if n == fs[j].0 && m == fs[j].1 {
        assert Count(fs[..j + 1], n, m) == k + 1;
        assert Repeat(part, k + 1) == Repeat(part, k) + [part];
        assert Lookup(g', n, m) == Lookup(g0, n, m) + Repeat(part, k) + [part];
      } else {
        assert Count(fs[..j + 1], n, m) == k;
        assert Lookup(g', n, m) == Lookup(g, n, m);
      }
    }
  }

  /** One more component read. */
  lemma CompStep(f: Filter, done: seq<Comp>, c: Comp)
    ensures forall n, m :: Members(f, done + [c], n, m)
                        == Members(f, done, n, m) + if Ignored(f, c.ref) then [] else Repeat(PartOf(c), Count(c.fields, n, m))
    ensures MissingCode(f, done + [c]) == MissingCode(f, done) + if !Ignored(f, c.ref) && |c.fields| == 0 then [PartOf(c)] else []
    ensures MissingFootprint(f, done + [c]) == MissingFootprint(f, done) + if !Ignored(f, c.ref) && !Truthy(c.footprint) then [PartOf(c)] else []
  {
    assert (done + [c])[..|done|] == done;
  }

  // ===========================================================================
  // The component loop

  /** Lines 56-73: a component's part is filed under each of its fields in
      turn; the fields dictionary comes out as FieldMap says. */
  method FileFields(parts: Groups, inc: Groups, comp: Comp) returns (parts': Groups, inc': Groups, fields: map<string, string>)
    requires Tidy(parts) && Tidy(inc) && Consistent(parts, inc)
    ensures Tidy(parts') && Tidy(inc') && Consistent(parts', inc')
    ensures forall n, m :: Lookup(parts', n, m) == Lookup(parts, n, m) + Repeat(PartOf(comp), Count(comp.fields, n, m))
    ensures fields == FieldMap(comp.fields)
  {
    var part := PartOf(comp);
    parts', inc', fields := parts, inc, map[];
    var j := 0;
    while j < |comp.fields|
      invariant 0 <= j <= |comp.fields|
      invariant Tidy(parts') && Tidy(inc') && Consistent(parts', inc')
      invariant forall n, m :: Lookup(parts', n, m) == Lookup(parts, n, m) + Repeat(part, Count(comp.fields[..j], n, m))
      invariant fields == FieldMap(comp.fields[..j])
    {
      var (name, number) := comp.fields[j];
      FieldMapStep(comp.fields, j);
      fields := fields[name := number];
      var next;
      next, inc' := File(parts', inc', name, number, part);
      FieldStep(parts, comp.fields, part, j, parts', next);
      parts' := next;
      j := j + 1;
    }
    assert comp.fields[..j] == comp.fields;
  }

  /** Lines 47-79: every component that is not ignored is filed under each of
      its fields, and noted when it lacks fields or a footprint. */
  method Collect(f: Filter, comps: seq<Comp>)
    returns (parts: Groups, inc: Groups, missingCode: seq<Part>, missingFootprint: seq<Part>)
    ensures Tidy(parts) && Tidy(inc)
    ensures forall n, m :: Lookup(parts, n, m) == Members(f, comps, n, m)
    ensures forall n, m :: Lookup(inc, n, m) == IncOf(Members(f, comps, n, m))
    ensures missingCode == MissingCode(f, comps) && missingFootprint == MissingFootprint(f, comps)
  {
    parts, inc, missingCode, missingFootprint := map[], map[], [], [];
    var i := 0;
    while i < |comps|
      invariant 0 <= i <= |comps|
      invariant Tidy(parts) && Tidy(inc) && Consistent(parts, inc)
      invariant forall n, m :: Lookup(parts, n, m) == Members(f, comps[..i], n, m)
      invariant missingCode == MissingCode(f, comps[..i]) && missingFootprint == MissingFootprint(f, comps[..i])
    {
      var comp := comps[i];
      assert comps[..i + 1] == comps[..i] + [comp];
      CompStep(f, comps[..i], comp);
      i := i + 1;
      if Ignored(f, comp.ref) {
        continue;
      }
      var part := PartOf(comp);
      var fields;
      parts, inc, fields := FileFields(parts, inc, comp);
      if fields == map[] {
        missingCode := missingCode + [part];
      }
      if !Truthy(comp.footprint) {
        missingFootprint := missingFootprint + [part];
      }
    }
    assert comps[..i] == comps;
  }

  // ===========================================================================
  // What the groups hold

  /** Every member of a group is the part of a component that is not ignored
      and has that field. */
  lemma {:induction false} MemberOrigin(f: Filter, cs: seq<Comp>, name: string, number: string, p: Part)
    requires p in Members(f, cs, name, number)
    ensures exists k :: 0 <= k < |cs| && !Ignored(f, cs[k].ref) && (name, number) in cs[k].fields && p == PartOf(cs[k])
    decreases |cs|
  {
    var init := cs[..|cs| - 1];
    var c := cs[|cs| - 1];
    if p in Members(f, init, name, number) {
      MemberOrigin(f, init, name, number, p);
      var k :| 0 <= k < |init| && !Ignored(f, init[k].ref) && (name, number) in init[k].fields && p == PartOf(init[k]);
      assert cs[k] == init[k];
    } else {
      CountPositive(c.fields, name, number);
    }
  }

  /** A field that occurs is counted. */
  lemma {:induction false} CountPositive(fs: seq<(string, string)>, name: string, number: string)
    ensures Count(fs, name, number) > 0 <==> (name, number) in fs
    decreases |fs|
  {
    if |fs| > 0 {
      CountPositive(fs[..|fs| - 1], name, number);
      assert fs == fs[..|fs| - 1] + [fs[|fs| - 1]];
    }
  }

  /** Conversely, every component kept that has the field is in the group. */
  lemma {:induction false} MemberComplete(f: Filter, cs: seq<Comp>, name: string, number: string, k: nat)
    requires k < |cs| && !Ignored(f, cs[k].ref) && (name, number) in cs[k].fields
    ensures PartOf(cs[k]) in Members(f, cs, name, number)
    decreases |cs|
  {
    var c := cs[|cs| - 1];
    if k < |cs| - 1 {
      MemberComplete(f, cs[..|cs| - 1], name, number, k);
    } else {
      CountPositive(c.fields, name, number);
      assert Repeat(PartOf(c), Count(c.fields, name, number))[0] == PartOf(c);
    }
  }

  /** Components later in the document never reorder a group: the group of a
      prefix is a prefix of the group. */
  lemma {:induction false} MembersPrefix(f: Filter, cs: seq<Comp>, k: nat, name: string, number: string)
    requires k <= |cs|
    ensures Members(f, cs[..k], name, number) <= Members(f, cs, name, number)
    decreases |cs|
  {
    if k < |cs| {
      assert cs[..|cs| - 1][..k] == cs[..k];
      MembersPrefix(f, cs[..|cs| - 1], k, name, number);
    } else {
      assert cs[..k] == cs;
    }
  }

  /** A component without fields is reported as missing its order code. */
  lemma {:induction false} MissingCodeComplete(f: Filter, cs: seq<Comp>, k: nat)
    requires k < |cs| && !Ignored(f, cs[k].ref) && |cs[k].fields| == 0
    ensures PartOf(cs[k]) in MissingCode(f, cs)
    decreases |cs|
  {
    if k < |cs| - 1 {
      MissingCodeComplete(f, cs[..|cs| - 1], k);
    }
  }

  /** A component with an absent or empty footprint is reported. */
  lemma {:induction false} MissingFootprintComplete(f: Filter, cs: seq<Comp>, k: nat)
    requires k < |cs| && !Ignored(f, cs[k].ref) && !Truthy(cs[k].footprint)
    ensures PartOf(cs[k]) in MissingFootprint(f, cs)
    decreases |cs|
  {
    if k < |cs| - 1 {
      MissingFootprintComplete(f, cs[..|cs| - 1], k);
    }
  }

  // ===========================================================================
  // Quantities and BOM lines

  /** quantity_multiplier: -x when given and not 0, else 1. */
  function Multiplier(quantity: Option<int>): (m: int)
    ensures m != 0
    ensures quantity.Some? && quantity.value != 0 ==> m == quantity.value
    ensures quantity == None || quantity == Some(0) ==> m == 1
  {
    if quantity.Some? && quantity.value != 0 then quantity.value else 1
  }

  /** The formatter keys of vendor_bom_formatters, and the default line. */
  datatype Vendor = Farnell | Rs | Digikey | Generic

  /** The formatter for a field name, looked up by its lower-cased form. */
  function VendorOf(name: string): (v: Vendor)
    ensures v == Farnell <==> Lower(name) == "farnell"
    ensures v == Rs <==> Lower(name) == "rs"
    ensures v == Digikey <==> Lower(name) == "digikey"
  {
    var key := Lower(name);
    if key == "farnell" then Farnell else if key == "rs" then Rs else if key == "digikey" then Digikey else Generic
  }

  /** a + "," + rest: one cell of a comma-separated line and the rest. */
  function Cell(a: string, rest: string): string
  {
    a + [','] + rest
  }

  /** "".join of the texts. */
  function Concat(ss: seq<string>): string
  {
    if |ss| == 0 then "" else Concat(ss[..|ss| - 1]) + ss[|ss| - 1]
  }

  function Refs(group: seq<Part>): (r: seq<string>)
    ensures |r| == |group| && forall k :: 0 <= k < |group| ==> r[k] == group[k].ref
  {
    seq(|group|, k requires 0 <= k < |group| => group[k].ref)
  }

  /** The Farnell note, cut to 30 characters: all of a shorter note, else
      its first 30. */
  function FarnellNote(qty: nat, values: string, footprints: string): (r: string)
    ensures var note := NatText(qty) + "x " + values + " " + footprints;
            |r| == (if |note| < 30 then |note| else 30) && StartsWith(note, r)
  {
    Take(NatText(qty) + "x " + values + " " + footprints, 30)
  }

  /** The line a formatter adds for one group. values and footprints are the
      space-, dash- or comma-joined sets of the group's values and footprint
      names, passed in because the order of a set is not determined. */
  function BomLine(v: Vendor, number: string, group: seq<Part>, m: int, values: string, footprints: string): string
  {
    var qty := |group|;
    match v
    case Farnell => Cell(number, Cell(IntText(qty * m), FarnellNote(qty, values, footprints) + "\n"))
    case Rs => Cell(number, Cell(IntText(qty * m), Cell("", NatText(qty) + "x--" + values + "--" + footprints + "--" + Concat(Refs(group)) + "\n")))
    case Digikey => Cell(IntText(qty * m), Cell(number, NatText(qty) + "x " + values + " " + footprints + " " + JoinOn(Refs(group), ' ') + "\n"))
    case Generic => Cell(number, Cell(IntText(qty * m), NatText(qty) + "x " + JoinOn(Refs(group), ' ') + " " + footprints + "\n"))
  }

  /** Splitting at the first comma gives the first cell back. */
  lemma SplitCell(a: string, rest: string)
    requires ',' !in a
    ensures SplitOn(Cell(a, rest), ',') == [a] + SplitOn(rest, ',')
  {
    var s := Cell(a, rest);
    IndexOfFirst(s, ',', |a|);
    assert s[..|a|] == a;
    assert s[|a| + 1..] == rest;
  }

  /** A number's text holds no comma. */
  lemma IntTextNoComma(i: int)
    ensures ',' !in IntText(i)
  {
    var t := if i < 0 then NatText(-i) else NatText(i);
    assert forall k :: 0 <= k < |t| ==> IsDigit(t[k]);
    if i < 0 {
      assert IntText(i) == "-" + t;
    }
  }

  /** Every BOM line carries the order code and the group size times the
      multiplier as its own cells: the first two for every format but
      DigiKey's, which puts the quantity first. */
  lemma BomLineCells(v: Vendor, number: string, group: seq<Part>, m: int, values: string, footprints: string)
    requires ',' !in number
    ensures var cells := SplitOn(BomLine(v, number, group, m, values, footprints), ',');
            |cells| >= 3
            && (v != Digikey ==> cells[0] == number && ParseInt(cells[1]) == Ok(|group| * m))
            && (v == Digikey ==> ParseInt(cells[0]) == Ok(|group| * m) && cells[1] == number)
  {
    var q := IntText(|group| * m);
    IntTextNoComma(|group| * m);
    ParseIntText(|group| * m);
    match v
    case Farnell =>
      var rest := FarnellNote(|group|, values, footprints) + "\n";
      SplitCell(number, Cell(q, rest));
      SplitCell(q, rest);
    case Rs =>
      var rest := Cell("", NatText(|group|) + "x--" + values + "--" + footprints + "--" + Concat(Refs(group)) + "\n");
      SplitCell(number, Cell(q, rest));
      SplitCell(q, rest);
    case Digikey =>
      var rest := NatText(|group|) + "x " + values + " " + footprints + " " + JoinOn(Refs(group), ' ') + "\n";
      SplitCell(q, Cell(number, rest));
      SplitCell(number, rest);
    case Generic =>
      var rest := NatText(|group|) + "x " + JoinOn(Refs(group), ' ') + " " + footprints + "\n";
      SplitCell(number, Cell(q, rest));
      SplitCell(q, rest);
  }

  // ===========================================================================
  // The output file name

  /** s[-n:]. */
  function Tail(s: string, n: nat): (r: string)
    ensures EndsWith(s, r) && |r| == if |s| < n then |s| else n
  {
    if |s| <= n then s else s[|s| - n..]
  }

  predicate HasBomSuffix(s: string)
  {
    Lower(Tail(s, 4)) == ".bom"
  }

  /** The file written: the output name with ".bom" appended unless it already
      ends in ".bom" in any case. */
  function OutputName(name: string): (r: string)
    ensures HasBomSuffix(r)
    ensures r == name || r == name + ".bom"
    ensures r == name <==> HasBomSuffix(name)
  {
    if HasBomSuffix(name) then name
    else
      BomSuffixAdded(name);
      name + ".bom"
  }

  lemma BomSuffixAdded(name: string)
    ensures HasBomSuffix(name + ".bom")
  {
    var t := name + ".bom";
    assert Tail(t, 4) == t[|t| - 4..] == ".bom";
    var l := Lower(".bom");
    assert l[0] == '.' && l[1] == 'b' && l[2] == 'o' && l[3] == 'm';
    assert l == ".bom";
  }

  /** Naming an output file twice changes nothing. */
  lemma OutputNameIdempotent(name: string)
    ensures OutputName(OutputName(name)) == OutputName(name)
  {
  }

  /** No file is written without an output name: an empty one counts as none. */
  function OutputFile(output: Option<string>): (r: Option<string>)
    ensures r.Some? <==> Truthy(output)
    ensures r.Some? ==> HasBomSuffix(r.value) && StartsWith(r.value, output.value)
  {
    if Truthy(output) then Some(OutputName(output.value)) else None
  }
}
