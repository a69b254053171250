/**
 * scripts/libcheck2.py: the start of a rewrite of the library checker. Its
 * parse_lib cuts a schematic library's text into the runs of lines of each
 * symbol, every run ending at an ENDDEF line, and hands each run to
 * parse_sym, which does not yet return anything.
 */
module Libcheck2 {
  import opened Py

  // ---------------------------------------------------------------------------
  // str.splitlines

  /** The characters str.splitlines breaks lines at (besides "\r\n"). */
  predicate IsLineBreak(c: char)
  {
    c == '\n' || c == '\r' || c == '\U{0b}' || c == '\U{0c}' || c == '\U{1c}' || c == '\U{1d}' || c == '\U{1e}'
    || c == '\U{85}' || c == '\U{2028}' || c == '\U{2029}'
  }

  /** The lines of s after the partial line cur: every break ends a line,
      "\r\n" counts as one break, and the text after the last break is a
      line only when it is not empty. */
  function SplitLinesFrom(s: string, cur: string): (r: seq<string>)
    decreases |s|
  {
    if |s| == 0 then (if |cur| == 0 then [] else [cur])
    else if s[0] == '\r' && |s| > 1 && s[1] == '\n' then [cur] + SplitLinesFrom(s[2..], "")
    else if IsLineBreak(s[0]) then [cur] + SplitLinesFrom(s[1..], "")
    else SplitLinesFrom(s[1..], cur + [s[0]])
  }

  /** `s.splitlines()`. */
  function SplitLines(s: string): seq<string>
  {
    SplitLinesFrom(s, "")
  }

  predicate NoBreaks(line: string)
  {
    forall k :: 0 <= k < |line| ==> !IsLineBreak(line[k])
  }

  /** No line holds a break, and an empty text has no lines at all. */
  lemma {:induction false} SplitLinesFromClean(s: string, cur: string)
    requires NoBreaks(cur)
    ensures forall k :: 0 <= k < |SplitLinesFrom(s, cur)| ==> NoBreaks(SplitLinesFrom(s, cur)[k])
    ensures |s| == 0 ==> SplitLinesFrom(s, cur) == (if |cur| == 0 then [] else [cur])
    decreases |s|
  {
    if |s| > 0 {
      if s[0] == '\r' && |s| > 1 && s[1] == '\n' {
        SplitLinesFromClean(s[2..], "");
      } else if IsLineBreak(s[0]) {
        SplitLinesFromClean(s[1..], "");
      } else {
        assert NoBreaks(cur + [s[0]]) by {
          forall k | 0 <= k < |cur + [s[0]]| ensures !IsLineBreak((cur + [s[0]])[k]) {
            if k < |cur| {
              assert (cur + [s[0]])[k] == cur[k];
            }
          }
        }
        SplitLinesFromClean(s[1..], cur + [s[0]]);
      }
    }
  }

  lemma SplitLinesClean(s: string)
    ensures forall k :: 0 <= k < |SplitLines(s)| ==> NoBreaks(SplitLines(s)[k])
    ensures SplitLines("") == []
  {
    SplitLinesFromClean(s, "");
  }

  /** Lines free of breaks, each followed by "\n", split back into
      themselves. */
  lemma {:induction false} SplitTerminated(lines: seq<string>, cur: string)
    requires forall k :: 0 <= k < |lines| ==> NoBreaks(lines[k])
    requires NoBreaks(cur)
    ensures |lines| > 0 ==> SplitLinesFrom(Terminated(lines), cur) == [cur + lines[0]] + lines[1..]
    decreases |lines|, |if |lines| > 0 then lines[0] else ""|
  {
    if |lines| > 0 {
      var t := Terminated(lines);
      if |lines[0]| == 0 {
        assert t == "\n" + Terminated(lines[1..]);
        assert t[1..] == Terminated(lines[1..]);
        assert cur + lines[0] == cur;
        if |lines| > 1 {
          SplitTerminated(lines[1..], "");
          assert "" + lines[1] == lines[1];
          assert [lines[1]] + lines[2..] == lines[1..];
        } else {
          assert Terminated(lines[1..]) == "";
        }
      } else {
        var first := lines[0];
        var shorter := [first[1..]] + lines[1..];
        assert NoBreaks(cur + [first[0]]) by {
          forall k | 0 <= k < |cur + [first[0]]| ensures !IsLineBreak((cur + [first[0]])[k]) {
            if k < |cur| {
              assert (cur + [first[0]])[k] == cur[k];
            }
          }
        }
        assert forall k :: 0 <= k < |shorter| ==> NoBreaks(shorter[k]) by {
          forall k | 0 <= k < |shorter| ensures NoBreaks(shorter[k]) {
            if k > 0 {
              assert shorter[k] == lines[k];
            } else {
              assert forall j :: 0 <= j < |first[1..]| ==> first[1..][j] == first[j + 1];
            }
          }
        }
        assert t == [first[0]] + Terminated(shorter) by {
          assert t == first + "\n" + Terminated(lines[1..]);
          assert Terminated(shorter) == first[1..] + "\n" + Terminated(lines[1..]);
          assert first == [first[0]] + first[1..];
        }
        assert t[1..] == Terminated(shorter);
        SplitTerminated(shorter, cur + [first[0]]);
        assert cur + [first[0]] + first[1..] == cur + first;
        assert shorter[1..] == lines[1..];
      }
    }
  }

  /** Every line followed by "\n". */
  function Terminated(lines: seq<string>): string
    decreases |lines|
  {
    if |lines| == 0 then "" else lines[0] + "\n" + Terminated(lines[1..])
  }

  /** Writing lines out one per line and reading them back gives them back. */
  lemma SplitLinesTerminated(lines: seq<string>)
    requires forall k :: 0 <= k < |lines| ==> NoBreaks(lines[k])
    ensures SplitLines(Terminated(lines)) == lines
  {
    if |lines| > 0 {
      SplitTerminated(lines, "");
      assert "" + lines[0] == lines[0];
      assert [lines[0]] + lines[1..] == lines;
    }
  }

  // ---------------------------------------------------------------------------
  // parse_lib

  /** What parse_sym gives back: nothing (None). */
  datatype Symbol = NoSymbol

  /** parse_sym: it walks the lines and keeps a local header list that it
      discards, so every symbol is None. */
  function ParseSym(sym: seq<string>): Symbol
  {
    NoSymbol
  }

  predicate IsEnd(line: string)
  {
    StartsWith(line, "ENDDEF")
  }

  /** The accumulation loop of parse_lib after the given lines: the runs
      handed to parse_sym so far, and the lines still buffered. */
  function Cut(lines: seq<string>): (seq<seq<string>>, seq<string>)
    decreases |lines|
  {
    if |lines| == 0 then ([], [])
    else
      var (runs, pending) := Cut(lines[..|lines| - 1]);
      var line := lines[|lines| - 1];
      if IsEnd(line) then (runs + [pending + [line]], []) else (runs, pending + [line])
  }

  /** All runs, one after the other. */
  function Concat(runs: seq<seq<string>>): seq<string>
    decreases |runs|
  {
    if |runs| == 0 then [] else Concat(runs[..|runs| - 1]) + runs[|runs| - 1]
  }

  /** How many lines start with ENDDEF. */
  function Ends(lines: seq<string>): nat
    decreases |lines|
  {
    if |lines| == 0 then 0 else Ends(lines[..|lines| - 1]) + (if IsEnd(lines[|lines| - 1]) then 1 else 0)
  }

  /** A symbol's run: it closes with its only ENDDEF line. */
  predicate Run(run: seq<string>)
  {
    |run| > 0 && IsEnd(run[|run| - 1]) && forall k :: 0 <= k < |run| - 1 ==> !IsEnd(run[k])
  }

  /** The cut loses no line and reorders none: the runs then the buffered
      lines are the lines; every run closes at its only ENDDEF line; the
      buffer has none; there is one run per ENDDEF line. */
  lemma {:induction false} CutRuns(lines: seq<string>)
    ensures var (runs, pending) := Cut(lines);
            Concat(runs) + pending == lines
            && (forall k :: 0 <= k < |runs| ==> Run(runs[k]))
            && (forall k :: 0 <= k < |pending| ==> !IsEnd(pending[k]))
            && |runs| == Ends(lines)
    decreases |lines|
  {
    if |lines| > 0 {
      var init := lines[..|lines| - 1];
      var line := lines[|lines| - 1];
      CutRuns(init);
      var (runs, pending) := Cut(init);
      assert lines == init + [line];
      if IsEnd(line) {
        CutEndStep(runs, pending, line, init);
      } else {
        CutPendingStep(runs, pending, line, init);
      }
    }
  }

  /** An ENDDEF line closes the buffered lines into one more run. */
  lemma CutEndStep(runs: seq<seq<string>>, pending: seq<string>, line: string, init: seq<string>)
    requires Concat(runs) + pending == init && IsEnd(line)
    requires (forall k :: 0 <= k < |runs| ==> Run(runs[k])) && (forall k :: 0 <= k < |pending| ==> !IsEnd(pending[k]))
    ensures var more := runs + [pending + [line]];
            Concat(more) + [] == init + [line] && forall k :: 0 <= k < |more| ==> Run(more[k])
  {
    var run := pending + [line];
    assert Run(run) by {
      assert forall k :: 0 <= k < |run| - 1 ==> run[k] == pending[k];
    }
    var more := runs + [run];
    assert more[..|more| - 1] == runs;
    assert Concat(more) == Concat(runs) + run;
    forall k | 0 <= k < |more| ensures Run(more[k]) {
      if k < |runs| {
        assert more[k] == runs[k];
      }
    }
  }

  /** Any other line joins the buffered lines. */
  lemma CutPendingStep(runs: seq<seq<string>>, pending: seq<string>, line: string, init: seq<string>)
    requires Concat(runs) + pending == init && !IsEnd(line)
    requires forall k :: 0 <= k < |pending| ==> !IsEnd(pending[k])
    ensures Concat(runs) + (pending + [line]) == init + [line]
    ensures forall k :: 0 <= k < |pending + [line]| ==> !IsEnd((pending + [line])[k])
  {
    forall k | 0 <= k < |pending + [line]| ensures !IsEnd((pending + [line])[k]) {
      if k < |pending| {
        assert (pending + [line])[k] == pending[k];
      }
    }
  }

  /** The lines after the header: the second line goes too when it starts
      with "#encoding". */
  function Body(liblines: seq<string>): seq<string>
    requires |liblines| >= 2
  {
    if StartsWith(liblines[1], "#encoding") then liblines[2..] else liblines[1..]
  }

  /** parse_lib: no lines raise IndexError at the header test, a wrong
      header gives no symbols, a lone header raises IndexError at the
      encoding test, and otherwise there is one symbol per run. */
  function ParseLibOf(lib: string): Outcome<seq<Symbol>>
  {
    var liblines := SplitLines(lib);
    if |liblines| == 0 then Raise(IndexError)
    else if !StartsWith(liblines[0], "EESchema-LIBRARY") then Ok([])
    else if |liblines| == 1 then Raise(IndexError)
    else
      var runs := Cut(Body(liblines)).0;
      Ok(seq(|runs|, k requires 0 <= k < |runs| => ParseSym(runs[k])))
  }

  method ParseLib(lib: string) returns (r: Outcome<seq<Symbol>>)
    ensures r == ParseLibOf(lib)
  {
    var liblines := SplitLines(lib);
    var out: seq<Symbol> := [];
    if |liblines| == 0 {
      return Raise(IndexError);
    }
    if !StartsWith(liblines[0], "EESchema-LIBRARY") {
      return Ok(out);
    }
    if |liblines| == 1 {
      return Raise(IndexError);
    }
    if StartsWith(liblines[1], "#encoding") {
      liblines := liblines[2..];
    } else {
      liblines := liblines[1..];
    }
    assert liblines == Body(SplitLines(lib));
    ghost var runs: seq<seq<string>> := [];
    var symlines: seq<string> := [];
    var i := 0;
    while i < |liblines|
      invariant 0 <= i <= |liblines|
      invariant (runs, symlines) == Cut(liblines[..i])
      invariant |out| == |runs| && forall k :: 0 <= k < |out| ==> out[k] == ParseSym(runs[k])
    {
      var line := liblines[i];
      assert liblines[..i + 1][..i] == liblines[..i];
      symlines := symlines + [line];
      if IsEnd(line) {
        out := out + [ParseSym(symlines)];
        runs := runs + [symlines];
        symlines := [];
      }
      i := i + 1;
    }
    assert liblines[..i] == liblines;
    assert out == seq(|runs|, k requires 0 <= k < |runs| => ParseSym(runs[k]));
    return Ok(out);
  }

  /** What the parse gives, in the source's terms: the number of symbols is
      the number of ENDDEF lines after the header, and each is None. */
  lemma ParseLibCounts(lib: string)
    ensures var liblines := SplitLines(lib);
            var r := ParseLibOf(lib);
            (r.Raise? <==> |liblines| == 0 || (|liblines| == 1 && StartsWith(liblines[0], "EESchema-LIBRARY")))
            && (r.Raise? ==> r.exc == IndexError)
            && (|liblines| > 0 && !StartsWith(liblines[0], "EESchema-LIBRARY") ==> r == Ok([]))
            && (|liblines| >= 2 && StartsWith(liblines[0], "EESchema-LIBRARY") ==>
                  r.Ok? && |r.value| == Ends(Body(liblines)) && forall k :: 0 <= k < |r.value| ==> r.value[k] == NoSymbol)
  {
    var liblines := SplitLines(lib);
    if |liblines| >= 2 && StartsWith(liblines[0], "EESchema-LIBRARY") {
      CutRuns(Body(liblines));
    }
  }

  /** A library written as a header, an encoding line and then the symbols'
      lines, one per line, yields as many symbols as those lines hold ENDDEF
      lines; lines after the last ENDDEF are dropped. */
  lemma ParseWritten(symbols: seq<string>)
    requires forall k :: 0 <= k < |symbols| ==> NoBreaks(symbols[k])
    ensures var lib := Terminated(["EESchema-LIBRARY Version 2.3", "#encoding utf-8"] + symbols);
            ParseLibOf(lib).Ok? && |ParseLibOf(lib).value| == Ends(symbols)
  {
    var lines := ["EESchema-LIBRARY Version 2.3", "#encoding utf-8"] + symbols;
    assert SplitLines(Terminated(lines)) == lines by {
      assert forall k :: 0 <= k < |lines| ==> NoBreaks(lines[k]) by {
        forall k | 0 <= k < |lines| ensures NoBreaks(lines[k]) {
          if k >= 2 {
            assert lines[k] == symbols[k - 2];
          } else {
            HeaderNoBreaks();
          }
        }
      }
      SplitLinesTerminated(lines);
    }
    assert StartsWith(lines[0], "EESchema-LIBRARY") && StartsWith(lines[1], "#encoding") by { HeaderPrefixes(); }
    assert Body(lines) == symbols by { assert lines[2..] == symbols; }
    ParseLibRuns(Terminated(lines), lines);
    CutRuns(symbols);
  }

  /** The header and encoding lines start with what parse_lib tests for. */
  lemma HeaderPrefixes()
    ensures StartsWith("EESchema-LIBRARY Version 2.3", "EESchema-LIBRARY")
    ensures StartsWith("#encoding utf-8", "#encoding")
  {
  }

  lemma HeaderNoBreaks()
    ensures NoBreaks("EESchema-LIBRARY Version 2.3") && NoBreaks("#encoding utf-8")
  {
  }

  /** A library with a header and at least one more line parses to one
      symbol per run of its body. */
  lemma ParseLibRuns(lib: string, liblines: seq<string>)
    requires SplitLines(lib) == liblines && |liblines| >= 2 && StartsWith(liblines[0], "EESchema-LIBRARY")
    ensures ParseLibOf(lib).Ok? && |ParseLibOf(lib).value| == |Cut(Body(liblines)).0|
  {
  }
}
