/**
 * Python's view of a parsed tree, as the checkers and the verify paths use
 * it: indexing, iteration, the `n[0] == tag` filter and the idiom
 * `[n for n in x if n[0] == tag][0]`, and `Decimal(atom)`.
 */
module PyTree {
  import opened Py
  import opened Sexp

  /** `n[i]` for i >= 0: a list gives its element, a str a one-character str;
      a number cannot be indexed. */
  function Index(n: Node, i: nat): (r: Outcome<Node>)
    ensures r.Raise? <==> !(n.List? && i < |n.children|) && !(n.Str? && i < |n.s|)
    ensures r.Ok? && n.List? ==> r.value == n.children[i]
    ensures r.Ok? && n.Str? ==> r.value == Str([n.s[i]])
  {
    match n
    case List(cs) => if i < |cs| then Ok(cs[i]) else Raise(IndexError)
    case Str(s) => if i < |s| then Ok(Str([s[i]])) else Raise(IndexError)
    case _ => Raise(TypeError)
  }

  /** Iterating a parsed value: a list gives its elements, a str its
      characters; a number is not iterable. */
  function Elements(n: Node): (r: Outcome<seq<Node>>)
    ensures n.List? ==> r == Ok(n.children)
    ensures n.Str? ==> r.Ok? && |r.value| == |n.s| && forall i :: 0 <= i < |n.s| ==> r.value[i] == Str([n.s[i]])
    ensures !n.List? && !n.Str? ==> r == Raise(TypeError)
  {
    match n
    case List(cs) => Ok(cs)
    case Str(s) => Ok(seq(|s|, i requires 0 <= i < |s| => Str([s[i]])))
    case _ => Raise(TypeError)
  }

  /** `n[0] == tag`. */
  function HeadIs(n: Node, tag: string): Outcome<bool>
  {
    var h :- Index(n, 0);
    Ok(h == Str(tag))
  }

  /** `n[0] in tags` for a tuple of strings. */
  function HeadIn(n: Node, tags: seq<string>): Outcome<bool>
  {
    var h :- Index(n, 0);
    Ok(h.Str? && h.s in tags)
  }

  /** `[n for n in cs if n[0] == tag]`, evaluated left to right. */
  function Matching(cs: seq<Node>, tag: string): (r: Outcome<seq<Node>>)
    ensures r.Ok? ==> forall k :: 0 <= k < |r.value| ==> r.value[k] in cs && HeadIs(r.value[k], tag) == Ok(true)
  {
    if |cs| == 0 then Ok([])
    else
      var h :- HeadIs(cs[0], tag);
      var rest :- Matching(cs[1..], tag);
      assert forall k :: 0 <= k < |rest| ==> rest[k] in cs by {
        forall k | 0 <= k < |rest| ensures rest[k] in cs {
          assert rest[k] in cs[1..];
        }
      }
      Ok(if h then [cs[0]] + rest else rest)
  }

  /** `[n for n in x if n[0] == tag][0]`. */
  function Pick(x: Node, tag: string): (r: Outcome<Node>)
    ensures r.Ok? ==> Elements(x).Ok? && r.value in Elements(x).value && HeadIs(r.value, tag) == Ok(true)
  {
    var cs :- Elements(x);
    var found :- Matching(cs, tag);
    if |found| == 0 then Raise(IndexError) else Ok(found[0])
  }

  /** Every element can be tested, so the filter does not raise. */
  predicate Testable(cs: seq<Node>)
  {
    forall k :: 0 <= k < |cs| ==> Index(cs[k], 0).Ok?
  }

  /** When every element can be tested, the filter keeps exactly the elements
      headed by the tag, so the pick is the first of them. */
  lemma {:induction false} MatchingFirst(cs: seq<Node>, tag: string, j: nat)
    requires Testable(cs)
    requires j < |cs| && HeadIs(cs[j], tag) == Ok(true)
    requires forall k :: 0 <= k < j ==> HeadIs(cs[k], tag) == Ok(false)
    ensures Matching(cs, tag).Ok? && |Matching(cs, tag).value| > 0 && Matching(cs, tag).value[0] == cs[j]
    decreases j
  {
    assert Testable(cs[1..]) by {
      forall k | 0 <= k < |cs[1..]| ensures Index(cs[1..][k], 0).Ok? {
        assert cs[1..][k] == cs[k + 1];
      }
    }
    MatchingTotal(cs[1..], tag);
    if j > 0 {
      MatchingFirst(cs[1..], tag, j - 1);
    }
  }

  lemma {:induction false} MatchingTotal(cs: seq<Node>, tag: string)
    requires Testable(cs)
    ensures Matching(cs, tag).Ok?
    decreases |cs|
  {
    if |cs| > 0 {
      assert Testable(cs[1..]) by {
        forall k | 0 <= k < |cs[1..]| ensures Index(cs[1..][k], 0).Ok? {
          assert cs[1..][k] == cs[k + 1];
        }
      }
      MatchingTotal(cs[1..], tag);
    }
  }

  /** The pick of a list is its first element headed by the tag. */
  lemma PickFirst(cs: seq<Node>, tag: string, j: nat)
    requires Testable(cs)
    requires j < |cs| && HeadIs(cs[j], tag) == Ok(true)
    requires forall k :: 0 <= k < j ==> HeadIs(cs[k], tag) == Ok(false)
    ensures Pick(List(cs), tag) == Ok(cs[j])
  {
    MatchingFirst(cs, tag, j);
  }

  /** `Decimal(v)` of an atom: the exact value of a decimal literal, an int
      or a float; InvalidOperation for other text. A list is read as a
      (sign, digits, exponent) tuple, and a list the parser builds (of str
      atoms and lists) is never a valid one: ValueError. */
  function DecimalNode(n: Node): (r: Outcome<real>)
    ensures n.Str? ==> (r.Ok? <==> DecimalOf(n.s).Some?)
    ensures n.Str? && r.Ok? ==> r.value == DecimalOf(n.s).value
    ensures n.Str? && r.Raise? ==> r.exc == InvalidOperation
    ensures n.List? ==> r == Raise(ValueError)
  {
    match n
    case Str(s) => if DecimalOf(s).Some? then Ok(DecimalOf(s).value) else Raise(InvalidOperation)
    case Int(i) => Ok(i as real)
    case Dec(c, sc) => Ok(Scale10(c as real, -(sc as int)))
    case Flt(x) => Ok(x)
    case List(_) => Raise(ValueError)
  }
}
