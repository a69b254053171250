/**
 * scripts/ibis2yaml.py: collect the pins of an IBIS (I/O Buffer Information
 * Specification, ANSI/EIA-656) component description as [name, pin, type]
 * triples. The file is a sequence of lines read through one iterator shared
 * by an outer loop that looks for "[Pin]" headers and an inner loop that
 * reads a section's rows.
 */
module Ibis2yaml {
  import opened Py

  // ===========================================================================
  // One row of a [Pin] section

  /** A pin designator: an int when the field is all digits, else the text. */
  datatype Pin = Number(n: nat) | Label(s: string)

  /** One result row: [name, pin, pin_type]. */
  datatype Entry = Entry(name: string, pin: Pin, kind: string)

  const PinKeyword := "[Pin]"

  /** line.split(' ', 1)[0]: the text before the first space. */
  function Key(line: string): string
  {
    Before(line, ' ')
  }

  /** line.strip().lstrip('|').split(): a commented-out row still counts. */
  function Fields(line: string): seq<string>
  {
    SplitWs(LStrip(Strip(line), '|'))
  }

  /** re.match(r'^[0-9]+$', f): int(f), otherwise str(f). */
  function PinOf(field: string): (p: Pin)
    ensures p.Number? <==> IsDigits(field)
    ensures p.Label? ==> p.s == field
  {
    if IsDigits(field) then Number(DigitsValue(field)) else Label(field)
  }

  const PowerPrefixes := ["VCC", "VDD", "VSS", "VBAT"]
  const InputPrefixes := ["NRST", "BOOT0", "VREF"]

  /** The name begins with one of the prefixes. */
  predicate HasPrefix(name: string, prefixes: seq<string>)
  {
    exists k :: 0 <= k < |prefixes| && StartsWith(name, prefixes[k])
  }

  /** The pin type guessed from the name: the power prefixes, then the input
      prefixes, with anything else bidirectional. */
  function KindOf(name: string): (kind: string)
    ensures kind == "pwrin" <==> HasPrefix(name, PowerPrefixes)
    ensures kind == "in" <==> !HasPrefix(name, PowerPrefixes) && HasPrefix(name, InputPrefixes)
    ensures kind == "bidi" <==> !HasPrefix(name, PowerPrefixes) && !HasPrefix(name, InputPrefixes)
  {
    if StartsWith(name, "VCC") || StartsWith(name, "VDD") || StartsWith(name, "VSS") || StartsWith(name, "VBAT") then
      assert StartsWith(name, PowerPrefixes[0]) || StartsWith(name, PowerPrefixes[1])
          || StartsWith(name, PowerPrefixes[2]) || StartsWith(name, PowerPrefixes[3]);
      "pwrin"
    else if StartsWith(name, "NRST") || StartsWith(name, "BOOT0") || StartsWith(name, "VREF") then
      assert StartsWith(name, InputPrefixes[0]) || StartsWith(name, InputPrefixes[1]) || StartsWith(name, InputPrefixes[2]);
      "in"
    else
      "bidi"
  }

  /** The row of a section line with at least two fields. */
  function EntryOf(fields: seq<string>): Entry
    requires |fields| >= 2
  {
    Entry(fields[1], PinOf(fields[0]), KindOf(fields[1]))
  }

  // ===========================================================================
  // The file as a state machine

  /** Outside every section, or reading the rows of one. */
  datatype Mode = Outside | InSection

  /** A line read outside every section: comments are skipped and a "[Pin]"
      header opens a section. */
  function OutsideStep(line: string): (Mode, seq<Entry>)
    requires |line| > 0
  {
    if line[0] == '|' then (Outside, [])
    else if Key(line) == PinKeyword then (InSection, [])
    else (Outside, [])
  }

  /** A line read inside a section: one starting with "[" ends it, one with
      fewer than two fields adds nothing, any other adds its row. */
  function SectionStep(line: string): (Mode, seq<Entry>)
    requires |line| > 0
  {
    if line[0] == '[' then (Outside, [])
    else
      var fields := Fields(line);
      if |fields| < 2 then (InSection, []) else (InSection, [EntryOf(fields)])
  }

  /** One line read in a mode: the mode after it and the rows it adds. Every
      line is indexed at 0, so an empty one raises. */
  function Step(mode: Mode, line: string): Outcome<(Mode, seq<Entry>)>
  {
    if |line| == 0 then Raise(IndexError)
    else if mode == Outside then Ok(OutsideStep(line))
    else Ok(SectionStep(line))
  }

  /** The lines read in order from the start of the file. */
  function Scan(ls: seq<string>): Outcome<(Mode, seq<Entry>)>
  {
    if |ls| == 0 then Ok((Outside, []))
    else
      var p :- Scan(ls[..|ls| - 1]);
      var q :- Step(p.0, ls[|ls| - 1]);
      Ok((q.0, p.1 + q.1))
  }

  /** parse(f): every row of every [Pin] section, in file order. */
  function ParseSpec(ls: seq<string>): Outcome<seq<Entry>>
  {
    var s :- Scan(ls);
    Ok(s.1)
  }

  // ===========================================================================
  // parse

  /** The outer loop: skip comment lines, and hand each "[Pin]" header's
      section to the inner loop, which shares the position in the file. */
  method Parse(lines: seq<string>) returns (r: Outcome<seq<Entry>>)
    ensures r == ParseSpec(lines)
  {
    var results: seq<Entry> := [];
    var i := 0;
    while i < |lines|
      invariant 0 <= i <= |lines|
      invariant Scan(lines[..i]) == Ok((Outside, results))
    {
      var line := lines[i];
      if |line| == 0 {
        ScanStops(lines, i);
        return Raise(IndexError);
      }
      ScanNext(lines, i);
      assert results + [] == results;
      i := i + 1;
      if line[0] == '|' {
        continue;
      }
      if Key(line) == PinKeyword {
        assert Scan(lines[..i]) == Ok((InSection, results));
        var section := ReadSection(lines, i, results);
        if section.Raise? {
          return Raise(section.exc);
        }
        i, results := section.value.0, section.value.1;
        if i == |lines| {
          assert lines[..i] == lines;
          return Ok(results);
        }
      }
    }
    assert lines[..i] == lines;
    r := Ok(results);
  }

  /** The inner loop: the rows of one section, up to and including the line
      that starts with "[", or to the end of the file. */
  method ReadSection(lines: seq<string>, start: nat, results: seq<Entry>) returns (r: Outcome<(nat, seq<Entry>)>)
    requires start <= |lines| && Scan(lines[..start]) == Ok((InSection, results))
    ensures r.Raise? ==> ParseSpec(lines) == Raise(r.exc)
    ensures r.Ok? ==> start <= r.value.0 <= |lines| && Scan(lines[..r.value.0]).Ok?
    ensures r.Ok? ==> Scan(lines[..r.value.0]).value.1 == r.value.1
    ensures r.Ok? && r.value.0 < |lines| ==> Scan(lines[..r.value.0]).value.0 == Outside
  {
    var i, rows := start, results;
    while i < |lines|
      invariant start <= i <= |lines|
      invariant Scan(lines[..i]) == Ok((InSection, rows))
    {
      var line := lines[i];
      if |line| == 0 {
        ScanStops(lines, i);
        return Raise(IndexError);
      }
      ScanNext(lines, i);
      assert rows + [] == rows;
      i := i + 1;
      if line[0] == '[' {
        return Ok((i, rows));
      }
      var fields := Fields(line);
      if |fields| < 2 {
        continue;
      }
      var entry := Entry(fields[1], PinOf(fields[0]), KindOf(fields[1]));
      assert SectionStep(line) == (InSection, [entry]);
      rows := rows + [entry];
    }
    r := Ok((i, rows));
  }

  /** An exception at line k ends the scan with it. */
  lemma {:induction false} ScanStops(ls: seq<string>, k: nat)
    requires k < |ls| && Scan(ls[..k]).Ok? && Step(Scan(ls[..k]).value.0, ls[k]).Raise?
    ensures ParseSpec(ls) == Raise(Step(Scan(ls[..k]).value.0, ls[k]).exc)
    ensures Scan(ls) == Raise(Step(Scan(ls[..k]).value.0, ls[k]).exc)
    decreases |ls|
  {
    if k < |ls| - 1 {
      assert ls[..|ls| - 1][..k] == ls[..k];
      ScanStops(ls[..|ls| - 1], k);
    } else {
      assert ls[..k] == ls[..|ls| - 1];
    }
  }

  /** One more line read. */
  lemma ScanNext(ls: seq<string>, i: nat)
    requires i < |ls| && Scan(ls[..i]).Ok? && Step(Scan(ls[..i]).value.0, ls[i]).Ok?
    ensures Scan(ls[..i + 1])
         == Ok((Step(Scan(ls[..i]).value.0, ls[i]).value.0, Scan(ls[..i]).value.1 + Step(Scan(ls[..i]).value.0, ls[i]).value.1))
  {
    assert ls[..i + 1][..i] == ls[..i];
  }

  // ===========================================================================
  // What parse promises

  /** Every line is read by one loop or the other, so parse fails exactly
      when the file has an empty line, and then with an IndexError. */
  lemma {:induction false} ParseFailsIffEmptyLine(ls: seq<string>)
    ensures ParseSpec(ls).Raise? <==> exists k :: 0 <= k < |ls| && ls[k] == ""
    ensures ParseSpec(ls).Raise? ==> ParseSpec(ls).exc == IndexError
    decreases |ls|
  {
    if |ls| > 0 {
      var init := ls[..|ls| - 1];
      ParseFailsIffEmptyLine(init);
      if exists k :: 0 <= k < |init| && init[k] == "" {
        var k :| 0 <= k < |init| && init[k] == "";
        assert ls[k] == "";
      }
      if exists k :: 0 <= k < |ls| && ls[k] == "" {
        var k :| 0 <= k < |ls| && ls[k] == "";
        if k < |init| {
          assert init[k] == "";
        }
      }
    }
  }

  /** A row's name is one non-empty word and its type is guessed from it; a
      pin kept as text is a word that is not all digits. */
  predicate WellFormed(e: Entry)
  {
    |e.name| > 0 && (forall i :: 0 <= i < |e.name| ==> !IsSpace(e.name[i]))
    && e.kind == KindOf(e.name)
    && (e.pin.Label? ==> |e.pin.s| > 0 && !IsDigits(e.pin.s) && forall i :: 0 <= i < |e.pin.s| ==> !IsSpace(e.pin.s[i]))
  }

  lemma {:induction false} RowsWellFormed(ls: seq<string>)
    requires ParseSpec(ls).Ok?
    ensures forall k :: 0 <= k < |ParseSpec(ls).value| ==> WellFormed(ParseSpec(ls).value[k])
    decreases |ls|
  {
    if |ls| > 0 {
      var init := ls[..|ls| - 1];
      RowsWellFormed(init);
      var p := Scan(init).value;
      var q := Step(p.0, ls[|ls| - 1]).value;
      if |q.1| > 0 {
        var f := Fields(ls[|ls| - 1]);
        assert q.1 == [EntryOf(f)];
        assert WellFormed(EntryOf(f));
      }
      assert ParseSpec(ls).value == p.1 + q.1;
    }
  }

  /** Reading resumes where a section ended: after lines that leave the
      scan outside a section, the rest is parsed as a file of its own and its
      rows follow. */
  lemma {:induction false} ScanResumes(a: seq<string>, b: seq<string>)
    requires Scan(a).Ok? && Scan(a).value.0 == Outside
    ensures Scan(b).Raise? ==> Scan(a + b) == Raise(Scan(b).exc)
    ensures Scan(b).Ok? ==> Scan(a + b) == Ok((Scan(b).value.0, Scan(a).value.1 + Scan(b).value.1))
    decreases |b|
  {
    if |b| == 0 {
      assert a + b == a;
      assert Scan(a).value.1 + [] == Scan(a).value.1;
    } else {
      var b0 := b[..|b| - 1];
      ScanResumes(a, b0);
      assert (a + b)[..|a + b| - 1] == a + b0;
      assert (a + b)[|a + b| - 1] == b[|b| - 1];
      ResumeStep(Scan(a), Scan(b0), Scan(a + b0), b[|b| - 1]);
    }
  }

  /** One more line after the resumed lines: the step the resumed scan takes
      is the step the scan on its own takes. */
  lemma ResumeStep(sa: Outcome<(Mode, seq<Entry>)>, sb: Outcome<(Mode, seq<Entry>)>, sab: Outcome<(Mode, seq<Entry>)>, line: string)
    requires sa.Ok?
    requires sb.Raise? ==> sab == Raise(sb.exc)
    requires sb.Ok? ==> sab == Ok((sb.value.0, sa.value.1 + sb.value.1))
    ensures var next := if sb.Raise? then Raise(sb.exc) else
                          var q := Step(sb.value.0, line); if q.Raise? then Raise(q.exc) else Ok((q.value.0, sb.value.1 + q.value.1));
            var nextAb := if sab.Raise? then Raise(sab.exc) else
                            var q := Step(sab.value.0, line); if q.Raise? then Raise(q.exc) else Ok((q.value.0, sab.value.1 + q.value.1));
            (next.Raise? ==> nextAb == Raise(next.exc))
            && (next.Ok? ==> nextAb == Ok((next.value.0, sa.value.1 + next.value.1)))
  {
    if sb.Ok? && Step(sb.value.0, line).Ok? {
      var q := Step(sb.value.0, line).value;
      assert sa.value.1 + sb.value.1 + q.1 == sa.value.1 + (sb.value.1 + q.1);
    }
  }

  /** Later [Pin] sections are collected too: rows of a second part of the
      file follow those of the first. */
  lemma LaterSections(a: seq<string>, b: seq<string>)
    requires Scan(a).Ok? && Scan(a).value.0 == Outside && ParseSpec(b).Ok?
    ensures ParseSpec(a + b) == Ok(ParseSpec(a).value + ParseSpec(b).value)
  {
    ScanResumes(a, b);
  }

  /** Only "[Pin]" alone or followed by a space opens a section; "[Pin]\n"
      does not. */
  lemma KeyIsPin(line: string)
    ensures Key(line) == PinKeyword <==> line == PinKeyword || StartsWith(line, PinKeyword + " ")
  {
    var k := IndexOf(line, ' ');
    if line == PinKeyword {
      IndexOfAbsent(line, ' ');
    } else if StartsWith(line, PinKeyword + " ") {
      assert line[..5] == PinKeyword && line[5] == ' ';
      IndexOfFirst(line, ' ', 5);
    }
    if Key(line) == PinKeyword {
      assert line[..k] == PinKeyword && k == 5;
      if k < |line| {
        assert line[..6] == PinKeyword + " ";
      }
    }
  }

  /** The line that ends a section is consumed by the inner loop and never
      read as a header, even when it is another "[Pin]" line: a header
      directly followed by another header opens no section at all. */
  lemma HeaderEndsSection(h1: string, h2: string, rest: seq<string>)
    requires |h1| > 0 && h1[0] != '|' && Key(h1) == PinKeyword && |h2| > 0 && h2[0] == '['
    ensures ParseSpec([h1, h2] + rest) == ParseSpec(rest)
  {
    assert [h1, h2][..1] == [h1] && [h1][..0] == [];
    var none: seq<Entry> := [];
    assert none + none == none;
    assert Step(Outside, h1) == Ok((InSection, none));
    assert Scan([h1]) == Ok((InSection, none));
    assert Step(InSection, h2) == Ok((Outside, []));
    assert Scan([h1, h2]) == Ok((Outside, []));
    ScanResumes([h1, h2], rest);
    if Scan(rest).Ok? {
      assert none + Scan(rest).value.1 == Scan(rest).value.1;
    }
  }
}
