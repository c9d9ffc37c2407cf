/** Prompt templates as data, and their binding (`PromptTemplate.invoke` as used
    at agents/agent_coder.py:125-131 and 138-143).

    A template is a fixed sequence of segments: literal text, or a named
    placeholder `{name}`. A name may occur several times. Binding a template
    to a dictionary fails, before anything else happens, when a placeholder
    has no value; otherwise it yields the literals with every placeholder
    replaced by its value, inserted verbatim. */
module Prompts {
  import opened Wrappers

  datatype Segment = Lit(text: string) | Hole(name: string)

  type Template = seq<Segment>

  /** The dictionary handed to `PromptTemplate.invoke`. */
  type Bindings = map<string, string>

  /** The error raised when some placeholders are not bound. */
  datatype BindingError = MissingVariables(names: set<string>)

  /** The names of the placeholders of t (each name once, however often it occurs). */
  function Placeholders(t: Template): set<string> {
    if t == [] then {}
    else (if t[0].Hole? then {t[0].name} else {}) + Placeholders(t[1..])
  }

  /** The text a segment contributes under bindings b. */
  function Piece(s: Segment, b: Bindings): string
    requires s.Hole? ==> s.name in b
  {
    match s
    case Lit(text) => text
    case Hole(name) => b[name]
  }

  /** The fully resolved text of t under bindings that cover its placeholders. */
  function Render(t: Template, b: Bindings): string
    requires Placeholders(t) <= b.Keys
  {
    if t == [] then "" else Piece(t[0], b) + Render(t[1..], b)
  }

  /** The template written as texts[0] {holes[0]} texts[1] ... {holes[n-1]} texts[n]:
      a template string split at its placeholders. */
  function Interleave(texts: seq<string>, holes: seq<string>): (t: Template)
    requires |texts| == |holes| + 1
    ensures |t| == 2 * |holes| + 1
    decreases |holes|
  {
    if holes == [] then [Lit(texts[0])]
    else [Lit(texts[0]), Hole(holes[0])] + Interleave(texts[1..], holes[1..])
  }

  /** `PromptTemplate.invoke(b)`: fails, naming exactly the unbound
      placeholders, when some placeholder of t has no value in b; otherwise
      renders t. Keys of b that are no placeholder of t are ignored. */
  function Assemble(t: Template, b: Bindings): (r: Result<string, BindingError>)
    ensures r.Success? <==> Placeholders(t) <= b.Keys
    ensures r.Failure? ==> r.error.names != {} && r.error.names == Placeholders(t) - b.Keys
    ensures r.Success? ==> r.value == Render(t, b)
  {
    if Placeholders(t) <= b.Keys then Success(Render(t, b))
    else
      DifferenceNonEmpty(Placeholders(t), b.Keys);
      Failure(MissingVariables(Placeholders(t) - b.Keys))
  }

  /** A set that is not included in another has an element outside it. */
  lemma DifferenceNonEmpty(a: set<string>, b: set<string>)
    requires !(a <= b)
    ensures a - b != {}
  {
    var n :| n in a && n !in b;
    assert n in a - b;
  }

  /** x occurs in y at offset k. */
  predicate InfixAt(x: string, y: string, k: int) {
    0 <= k && k + |x| <= |y| && y[k..k + |x|] == x
  }

  /** x occurs contiguously somewhere in y. */
  predicate IsInfix(x: string, y: string) {
    exists k | 0 <= k <= |y| :: InfixAt(x, y, k)
  }

  // ---------------------------------------------------------------------------
  // Lemmas
  // ---------------------------------------------------------------------------

  lemma {:induction false} PlaceholdersAppend(t1: Template, t2: Template)
    ensures Placeholders(t1 + t2) == Placeholders(t1) + Placeholders(t2)
    decreases |t1|
  {
    if t1 == [] {
      assert t1 + t2 == t2;
    } else {
      assert (t1 + t2)[1..] == t1[1..] + t2;
      PlaceholdersAppend(t1[1..], t2);
    }
  }

  /** Rendering a concatenation of templates concatenates their renderings. */
  lemma {:induction false} RenderAppend(t1: Template, t2: Template, b: Bindings)
    requires Placeholders(t1) <= b.Keys && Placeholders(t2) <= b.Keys
    ensures Placeholders(t1 + t2) <= b.Keys
    ensures Render(t1 + t2, b) == Render(t1, b) + Render(t2, b)
    decreases |t1|
  {
    PlaceholdersAppend(t1, t2);
    if t1 == [] {
      assert t1 + t2 == t2;
    } else {
      assert (t1 + t2)[1..] == t1[1..] + t2;
      RenderAppend(t1[1..], t2, b);
    }
  }

  /** Every segment is rendered in place: a literal unchanged, a placeholder as
      its bound value, between the renderings of what precedes and what
      follows it. */
  lemma {:induction false} RenderSegment(t: Template, b: Bindings, i: int)
    requires Placeholders(t) <= b.Keys && 0 <= i < |t|
    ensures Placeholders(t[..i]) <= b.Keys && Placeholders(t[i + 1..]) <= b.Keys
    ensures t[i].Hole? ==> t[i].name in b
    ensures Render(t, b) == Render(t[..i], b) + Piece(t[i], b) + Render(t[i + 1..], b)
  {
    var pre, post := t[..i], t[i + 1..];
    var here := [t[i]] + post;
    assert t == pre + here;
    assert here[1..] == post;
    PlaceholdersAppend(pre, here);
    RenderAppend(pre, here, b);
  }

  /** Every segment's text, literal or bound value, occurs verbatim in the rendering. */
  lemma RenderContainsSegment(t: Template, b: Bindings, i: int)
    requires Placeholders(t) <= b.Keys && 0 <= i < |t|
    ensures t[i].Hole? ==> t[i].name in b
    ensures IsInfix(Piece(t[i], b), Render(t, b))
  {
    RenderSegment(t, b, i);
    var pre := Render(t[..i], b);
    var piece := Piece(t[i], b);
    var r := Render(t, b);
    assert r[|pre|..|pre| + |piece|] == piece;
    assert InfixAt(piece, r, |pre|);
  }

  /** A placeholder of t occurs at some segment of t. */
  lemma {:induction false} PlaceholderHasSegment(t: Template, n: string) returns (i: int)
    requires n in Placeholders(t)
    ensures 0 <= i < |t| && t[i] == Hole(n)
    decreases |t|
  {
    if t[0] == Hole(n) {
      i := 0;
    } else {
      var j := PlaceholderHasSegment(t[1..], n);
      i := j + 1;
    }
  }

  /** The placeholders of t are exactly the names of its placeholder segments. */
  lemma {:induction false} PlaceholdersAreHoles(t: Template, n: string)
    ensures n in Placeholders(t) <==> exists i | 0 <= i < |t| :: t[i] == Hole(n)
    decreases |t|
  {
    if n in Placeholders(t) {
      var i := PlaceholderHasSegment(t, n);
    }
    if t != [] {
      PlaceholdersAreHoles(t[1..], n);
      if exists i | 0 <= i < |t| :: t[i] == Hole(n) {
        var i :| 0 <= i < |t| && t[i] == Hole(n);
        if i > 0 {
          assert t[1..][i - 1] == Hole(n);
        }
      }
    }
  }

  /** The value bound to any placeholder of t occurs verbatim in the rendering. */
  lemma RenderContainsBinding(t: Template, b: Bindings, n: string)
    requires Placeholders(t) <= b.Keys && n in Placeholders(t)
    ensures IsInfix(b[n], Render(t, b))
  {
    var i := PlaceholderHasSegment(t, n);
    RenderContainsSegment(t, b, i);
  }

  /** The rendering depends on the bindings of t's placeholders only: bindings
      that agree on them give the same text, whatever else they hold. */
  lemma {:induction false} RenderOnlyReadsPlaceholders(t: Template, b1: Bindings, b2: Bindings)
    requires Placeholders(t) <= b1.Keys && Placeholders(t) <= b2.Keys
    requires forall n | n in Placeholders(t) :: b1[n] == b2[n]
    ensures Render(t, b1) == Render(t, b2)
    decreases |t|
  {
    if t != [] {
      RenderOnlyReadsPlaceholders(t[1..], b1, b2);
    }
  }

  /** In an interleaved template the even segments are the texts and the odd
      ones the placeholders, each in its order. */
  lemma {:induction false} InterleaveAt(texts: seq<string>, holes: seq<string>, k: int)
    requires |texts| == |holes| + 1 && 0 <= k < |texts|
    ensures Interleave(texts, holes)[2 * k] == Lit(texts[k])
    ensures k < |holes| ==> Interleave(texts, holes)[2 * k + 1] == Hole(holes[k])
    decreases |holes|
  {
    if k > 0 {
      InterleaveAt(texts[1..], holes[1..], k - 1);
    }
  }

  /** The placeholders of an interleaved template are the names listed for it. */
  lemma {:induction false} InterleavePlaceholders(texts: seq<string>, holes: seq<string>)
    requires |texts| == |holes| + 1
    ensures Placeholders(Interleave(texts, holes)) == set n | n in holes
    decreases |holes|
  {
    var t := Interleave(texts, holes);
    if holes != [] {
      InterleavePlaceholders(texts[1..], holes[1..]);
      var u := Interleave(texts[1..], holes[1..]);
      assert t == [Lit(texts[0]), Hole(holes[0])] + u;
      assert t[1..] == [Hole(holes[0])] + u;
      assert t[1..][1..] == u;
      assert holes == [holes[0]] + holes[1..];
    }
  }
}
