/**
 * The older parser `sexpparse` of scripts/moddraw.py (scripts/fpcheck.py
 * carries the same function, character for character). It keeps the pending
 * token as a string and appends it only when it is non-empty, so an empty
 * quoted string contributes nothing.
 */
module ModDraw {
  import opened Py
  import opened Sexp

  /** sexpparse: the character loop over an explicit stack of open lists. */
  method SexpParse(sexp: string) returns (result: Outcome<Node>)
    ensures result == ParseText(Dropping, sexp)
  {
    var r: seq<seq<Node>> := [[]];
    var token := "";
    var quote := false;
    var i := 0;
    while i < |sexp|
      invariant 0 <= i <= |sexp|
      invariant |r| >= 1
      invariant Run(Dropping, Ok(Start), sexp[..i]) == Ok(Scan(r, token, quote))
    {
      var c := sexp[i];
      assert sexp[..i + 1][..i] == sexp[..i];
      ghost var next := Step(Dropping, Scan(r, token, quote), c);
      assert Run(Dropping, Ok(Start), sexp[..i + 1]) == next;
      if c == '(' && !quote {
        r := r + [[]];
      } else if (c == ')' || c == ' ' || c == '\n') && !quote {
        if token != "" {
          r := r[..|r| - 1] + [r[|r| - 1] + [Str(token)]];
        }
        token := "";
        if c == ')' {
          if |r| < 2 {
            RaiseStays(Dropping, Ok(Start), sexp, i + 1);
            return Raise(IndexError);
          }
          var t := r[|r| - 1];
          ghost var flushed := r;
          r := r[..|r| - 1];
          assert r[..|r| - 1] == flushed[..|flushed| - 2] && r[|r| - 1] == flushed[|flushed| - 2];
          r := r[..|r| - 1] + [r[|r| - 1] + [List(t)]];
        }
      } else if c == '"' {
        quote := !quote;
      } else {
        token := token + [c];
      }
      assert next == Ok(Scan(r, token, quote));
      i := i + 1;
    }
    assert sexp[..i] == sexp;
    if |r[0]| == 0 {
      return Raise(IndexError);
    }
    return Ok(r[0][0]);
  }

  /** No two quote characters stand next to each other. */
  predicate NoAdjacentQuotes(s: string)
  {
    forall i :: 0 <= i < |s| - 1 ==> !(s[i] == '"' && s[i + 1] == '"')
  }

  /** Over input with no two adjacent quotes, both strains step through the
      same states; and a state inside quotes with no token pending was just
      entered by a quote. */
  lemma {:induction false} SameRun(s: string)
    requires NoAdjacentQuotes(s)
    ensures Run(Placeholder, Ok(Start), s) == Run(Dropping, Ok(Start), s)
    ensures var r := Run(Dropping, Ok(Start), s);
            r.Ok? && r.value.quote && r.value.token == "" ==> |s| > 0 && s[|s| - 1] == '"'
    decreases |s|
  {
    if |s| > 0 {
      var p := s[..|s| - 1];
      assert NoAdjacentQuotes(p) by {
        forall i | 0 <= i < |p| - 1 ensures !(p[i] == '"' && p[i + 1] == '"') {
          assert p[i] == s[i] && p[i + 1] == s[i + 1];
        }
      }
      SameRun(p);
      var before := Run(Dropping, Ok(Start), p);
      if before.Ok? {
        var st := before.value;
        var c := s[|s| - 1];
        assert Step(Placeholder, st, c) == Step(Dropping, st, c);
      }
    }
  }

  /** On input with no empty quoted string the two parsers give the same tree. */
  lemma SameTree(s: string)
    requires NoAdjacentQuotes(s)
    ensures ParseText(Placeholder, s) == ParseText(Dropping, s)
  {
    SameRun(s);
  }

  /** Where they differ: `(a "")` is ["a", "~"] in sexp.py but ["a"] here. */
  lemma EmptyQuotedVanishes()
    ensures ParseText(Dropping, "(a \"\")") == Ok(List([Str("a")]))
    ensures ParseText(Placeholder, "(a \"\")") == Ok(List([Str("a"), Str("~")]))
  {
    var s := "(a \"\")";
    var v := Dropping;
    var o := Ok(Start);
    var e: seq<Node> := [];
    var a := Str("a");
    assert s[..0] == [];
    assert [[]] + [e] == [e, e];
    RunPrefix(v, o, s, 0);
    assert Run(v, o, s[..1]) == Ok(Scan([e, e], "", false));
    RunPrefix(v, o, s, 1);
    assert "" + ['a'] == "a";
    assert Run(v, o, s[..2]) == Ok(Scan([e, e], "a", false));
    assert e + [a] == [a];
    assert [e] + [e + [a]] == [e, [a]];
    RunPrefix(v, o, s, 2);
    assert Run(v, o, s[..3]) == Ok(Scan([e, [a]], "", false));
    RunPrefix(v, o, s, 3);
    assert Run(v, o, s[..4]) == Ok(Scan([e, [a]], "", true));
    RunPrefix(v, o, s, 4);
    assert Run(v, o, s[..5]) == Ok(Scan([e, [a]], "", false));
    assert e + [List([a])] == [List([a])];
    assert [e, [a]][..0] + [e + [List([a])]] == [[List([a])]];
    RunPrefix(v, o, s, 5);
    assert s[..6] == s;
    EmptyQuotedIsTilde();
  }
}
