/** The output sanitiser `AgentCoder._clean` (agents/agent_coder.py:150-153).

    The source makes two regular-expression substitutions and a strip:
      1. delete every leftmost, non-overlapping match of "```(python)?";
      2. delete every remaining match of "```";
      3. trim leading and trailing whitespace as Python's `str.strip()` does.
    Both substitutions are the same left-to-right scan, parameterised by the
    optional tag that may follow the fence ("python" in the first, nothing in
    the second). */
module Sanitizer {

  /** The optional language tag of the first substitution. */
  const PythonTag: string := "python"

  /** A fence (three backticks) starts at index i of s. */
  predicate FenceAt(s: string, i: int) {
    0 <= i && i + 3 <= |s| && s[i] == '`' && s[i + 1] == '`' && s[i + 2] == '`'
  }

  /** s contains three consecutive backticks somewhere. */
  predicate HasFence(s: string) {
    exists i | 0 <= i < |s| :: FenceAt(s, i)
  }

  /** a can be obtained from b by deleting characters. */
  predicate IsSubsequence(a: string, b: string)
    decreases |b|
  {
    a == [] || (b != [] && ((a[0] == b[0] && IsSubsequence(a[1..], b[1..])) || IsSubsequence(a, b[1..])))
  }

  /** Python's `str.isspace` on one character: the characters `str.strip()`
      removes when called without an argument. */
  predicate IsSpace(c: char) {
    || '\t' <= c <= '\r'
    || '\U{1C}' <= c <= ' '
    || c == '\U{85}' || c == '\U{A0}' || c == '\U{1680}'
    || '\U{2000}' <= c <= '\U{200A}'
    || c == '\U{2028}' || c == '\U{2029}' || c == '\U{202F}' || c == '\U{205F}' || c == '\U{3000}'
  }

  predicate AllSpace(w: string) {
    forall k | 0 <= k < |w| :: IsSpace(w[k])
  }

  /** Neither end of s is whitespace. */
  predicate IsTrimmed(s: string) {
    s == [] || (!IsSpace(s[0]) && !IsSpace(s[|s| - 1]))
  }

  // ---------------------------------------------------------------------------
  // The substitution scan
  // ---------------------------------------------------------------------------

  /** `re.sub("```(" + tag + ")?", "", s)`: scanning from the left, a fence is
      deleted together with the tag immediately after it when the tag is there
      (the group is greedy), and the scan resumes after the deleted text; any
      other character is kept. With an empty tag this is `re.sub("```", "", s)`. */
  function RemoveFences(s: string, tag: string): (r: string)
    ensures |r| <= |s|
    decreases |s|
  {
    if s == [] then []
    else if FenceAt(s, 0) then
      var rest := s[3..];
      if tag <= rest then RemoveFences(rest[|tag|..], tag) else RemoveFences(rest, tag)
    else [s[0]] + RemoveFences(s[1..], tag)
  }

  /** No three consecutive backticks survive one substitution, whatever the tag:
      a backtick is kept only when fewer than three remain of its run, and what
      follows a kept backtick is kept too. */
  lemma {:induction false} NoFenceSurvives(s: string, tag: string)
    ensures !HasFence(RemoveFences(s, tag))
    decreases |s|
  {
    if s == [] {
    } else if FenceAt(s, 0) {
      var rest := s[3..];
      if tag <= rest {
        NoFenceSurvives(rest[|tag|..], tag);
      } else {
        NoFenceSurvives(rest, tag);
      }
    } else {
      var tail := RemoveFences(s[1..], tag);
      var r := RemoveFences(s, tag);
      NoFenceSurvives(s[1..], tag);
      assert r == [s[0]] + tail;
      if s[0] == '`' && |tail| >= 2 && tail[0] == '`' {
        // s[1..] is not a fence: otherwise s would start with one
        assert !FenceAt(s[1..], 0);
        assert tail == [s[1]] + RemoveFences(s[2..], tag);
        assert |s| == 2 || s[2] != '`';
        var tail2 := RemoveFences(s[2..], tag);
        if |s| > 2 {
          assert !FenceAt(s[2..], 0);
          assert tail2 == [s[2]] + RemoveFences(s[3..], tag);
        }
        assert tail[1] != '`';
      }
      forall i | 0 <= i < |r|
        ensures !FenceAt(r, i)
      {
        if i > 0 {
          assert !FenceAt(tail, i - 1);
        }
      }
    }
  }

  /** A string without a fence passes through a substitution unchanged. */
  lemma {:induction false} RemoveFencesFenceFree(s: string, tag: string)
    requires !HasFence(s)
    ensures RemoveFences(s, tag) == s
    decreases |s|
  {
    if s != [] {
      assert !FenceAt(s, 0);
      forall i | 0 <= i < |s[1..]|
        ensures !FenceAt(s[1..], i)
      {
        assert !FenceAt(s, i + 1);
      }
      RemoveFencesFenceFree(s[1..], tag);
    }
  }

  /** A fence-free prefix that does not end in a backtick is copied verbatim,
      and the scan of the rest is not influenced by it. */
  lemma {:induction false} RemoveFencesAppend(a: string, b: string, tag: string)
    requires !HasFence(a)
    requires a == [] || a[|a| - 1] != '`'
    ensures RemoveFences(a + b, tag) == a + RemoveFences(b, tag)
    decreases |a|
  {
    if a == [] {
      assert a + b == b;
    } else {
      NoFenceAtJoin(a, b);
      NoFenceInTail(a);
      RemoveFencesAppend(a[1..], b, tag);
      assert (a + b)[1..] == a[1..] + b;
      assert a + RemoveFences(b, tag) == [a[0]] + (a[1..] + RemoveFences(b, tag));
    }
  }

  /** A fence-free text that does not end in a backtick cannot start a fence
      together with whatever follows it. */
  lemma NoFenceAtJoin(a: string, b: string)
    requires !HasFence(a) && a != [] && a[|a| - 1] != '`'
    ensures !FenceAt(a + b, 0)
  {
    if |a| >= 3 {
      assert !FenceAt(a, 0);
    } else {
      assert (a + b)[|a| - 1] == a[|a| - 1];
    }
  }

  /** Dropping the first character of a fence-free text leaves it fence-free. */
  lemma NoFenceInTail(a: string)
    requires !HasFence(a) && a != []
    ensures !HasFence(a[1..])
  {
    forall i | 0 <= i < |a[1..]|
      ensures !FenceAt(a[1..], i)
    {
      assert !FenceAt(a, i + 1);
    }
  }

  /** Deleting only removes characters: the output is a subsequence of the input. */
  lemma {:induction false} RemoveFencesSubsequence(s: string, tag: string)
    ensures IsSubsequence(RemoveFences(s, tag), s)
    decreases |s|
  {
    if s == [] {
    } else if FenceAt(s, 0) {
      var rest := s[3..];
      if tag <= rest {
        RemoveFencesSubsequence(rest[|tag|..], tag);
        assert rest[|tag|..] == s[3 + |tag|..];
        SubsequenceOfSuffix(RemoveFences(s, tag), s, 3 + |tag|);
      } else {
        RemoveFencesSubsequence(rest, tag);
        SubsequenceOfSuffix(RemoveFences(s, tag), s, 3);
      }
    } else {
      RemoveFencesSubsequence(s[1..], tag);
      var r := RemoveFences(s, tag);
      assert r[0] == s[0] && r[1..] == RemoveFences(s[1..], tag);
    }
  }

  /** Only backticks and characters of the tag are ever deleted: every other
      character occurs as often in the output as in the input. */
  lemma {:induction false} RemoveFencesKeepsOtherChars(s: string, tag: string, c: char)
    requires c != '`' && c !in tag
    ensures multiset(RemoveFences(s, tag))[c] == multiset(s)[c]
    decreases |s|
  {
    if s == [] {
    } else if FenceAt(s, 0) {
      var rest := s[3..];
      var n := if tag <= rest then 3 + |tag| else 3;
      assert s == s[..n] + s[n..];
      assert forall k | 0 <= k < n :: s[k] != c by {
        forall k | 0 <= k < n ensures s[k] != c {
          if k >= 3 {
            assert s[k] == tag[k - 3];
          }
        }
      }
      assert c !in s[..n];
      if tag <= rest {
        assert rest[|tag|..] == s[n..];
      }
      RemoveFencesKeepsOtherChars(s[n..], tag, c);
    } else {
      assert s == [s[0]] + s[1..];
      RemoveFencesKeepsOtherChars(s[1..], tag, c);
    }
  }

  // ---------------------------------------------------------------------------
  // str.strip()
  // ---------------------------------------------------------------------------

  /** The number of whitespace characters s starts with. */
  function LeadingSpace(s: string): (n: nat)
    ensures n <= |s|
    ensures forall k | 0 <= k < n :: IsSpace(s[k])
    ensures n < |s| ==> !IsSpace(s[n])
  {
    if s != [] && IsSpace(s[0]) then 1 + LeadingSpace(s[1..]) else 0
  }

  /** The number of whitespace characters s ends with. */
  function TrailingSpace(s: string): (n: nat)
    ensures n <= |s|
    ensures forall k | |s| - n <= k < |s| :: IsSpace(s[k])
    ensures n < |s| ==> !IsSpace(s[|s| - n - 1])
  {
    if s != [] && IsSpace(s[|s| - 1]) then 1 + TrailingSpace(s[..|s| - 1]) else 0
  }

  /** Python's `str.strip()` without argument: leading whitespace is cut off,
      then trailing whitespace from what is left. The result is the infix of s
      between whitespace-only borders that neither starts nor ends with
      whitespace. */
  function Strip(s: string): (r: string)
    ensures IsTrimmed(r)
    ensures exists i, j | 0 <= i <= j <= |s| :: r == s[i..j] && AllSpace(s[..i]) && AllSpace(s[j..])
    ensures IsTrimmed(s) ==> r == s
  {
    var i := LeadingSpace(s);
    var j := |s| - TrailingSpace(s[i..]);
    assert AllSpace(s[..i]);
    assert AllSpace(s[j..]) by {
      forall k | 0 <= k < |s| - j ensures IsSpace(s[j..][k]) {
        assert s[j..][k] == s[i..][j - i + k];
      }
    }
    s[i..j]
  }

  /** The leading-space count is the one index before which every character
      is whitespace and at which (if anywhere) the first other one stands. */
  lemma LeadingSpaceIs(s: string, n: nat)
    requires n <= |s| && (forall k | 0 <= k < n :: IsSpace(s[k])) && (n < |s| ==> !IsSpace(s[n]))
    ensures LeadingSpace(s) == n
  {
  }

  /** The trailing-space count, characterised the same way from the end. */
  lemma TrailingSpaceIs(s: string, n: nat)
    requires n <= |s| && (forall k | |s| - n <= k < |s| :: IsSpace(s[k]))
    requires n < |s| ==> !IsSpace(s[|s| - n - 1])
    ensures TrailingSpace(s) == n
  {
  }

  /** Whitespace around an already trimmed text is exactly what `strip()` removes. */
  lemma StripSurrounded(w1: string, x: string, w2: string)
    requires AllSpace(w1) && AllSpace(w2) && IsTrimmed(x)
    ensures Strip(w1 + x + w2) == x
  {
    var s := w1 + x + w2;
    if x == [] {
      assert s == w1 + w2;
      LeadingSpaceIs(s, |s|);
      assert s[|s|..] == [];
    } else {
      LeadingSpaceIs(s, |w1|);
      var t := s[|w1|..];
      assert t == x + w2;
      TrailingSpaceIs(t, |w2|);
      assert s[|w1|..|s| - |w2|] == x;
    }
  }

  /** A text is its prefix, infix and suffix at any two cut points. */
  lemma SplitThree(x: string, i: int, j: int)
    requires 0 <= i <= j <= |x|
    ensures x == x[..i] + x[i..j] + x[j..]
  {
    assert x[..j] == x[..i] + x[i..j];
  }

  // ---------------------------------------------------------------------------
  // _clean
  // ---------------------------------------------------------------------------

  /** `AgentCoder._clean`: both substitutions, then `strip()`. */
  function Clean(code: string): (r: string)
    ensures !HasFence(r)
    ensures IsTrimmed(r)
  {
    var once := RemoveFences(code, PythonTag);
    var twice := RemoveFences(once, "");
    NoFenceSurvives(once, "");
    var r := Strip(twice);
    var i, j :| 0 <= i <= j <= |twice| && r == twice[i..j] && AllSpace(twice[..i]) && AllSpace(twice[j..]);
    NoFenceInInfix(twice, i, j);
    r
  }

  /** The second substitution never changes anything: no fence is left by the first. */
  lemma SecondPassRedundant(s: string)
    ensures RemoveFences(RemoveFences(s, PythonTag), "") == RemoveFences(s, PythonTag)
  {
    NoFenceSurvives(s, PythonTag);
    RemoveFencesFenceFree(RemoveFences(s, PythonTag), "");
  }

  /** Cleaning twice is cleaning once. */
  lemma CleanIdempotent(s: string)
    ensures Clean(Clean(s)) == Clean(s)
  {
    var t := Clean(s);
    RemoveFencesFenceFree(t, PythonTag);
    RemoveFencesFenceFree(t, "");
  }

  /** Cleaning only deletes characters. */
  lemma CleanSubsequence(s: string)
    ensures IsSubsequence(Clean(s), s)
    ensures |Clean(s)| <= |s|
  {
    var once := RemoveFences(s, PythonTag);
    SecondPassRedundant(s);
    RemoveFencesSubsequence(s, PythonTag);
    var i, j :| 0 <= i <= j <= |once| && Clean(s) == once[i..j] && AllSpace(once[..i]) && AllSpace(once[j..]);
    InfixIsSubsequence(once, i, j);
    SubsequenceTransitive(Clean(s), once, s);
  }

  /** Only backticks, the letters of the tag and outer whitespace are deleted:
      any other character occurs as often in the output as in the input. */
  lemma CleanKeepsOtherChars(s: string, c: char)
    requires c != '`' && c !in PythonTag && !IsSpace(c)
    ensures multiset(Clean(s))[c] == multiset(s)[c]
  {
    var once := RemoveFences(s, PythonTag);
    SecondPassRedundant(s);
    assert Clean(s) == Strip(once);
    RemoveFencesKeepsOtherChars(s, PythonTag, c);
    StripKeepsOtherChars(once, c);
  }

  lemma StripKeepsOtherChars(x: string, c: char)
    requires !IsSpace(c)
    ensures multiset(Strip(x))[c] == multiset(x)[c]
  {
    var i, j :| 0 <= i <= j <= |x| && Strip(x) == x[i..j] && AllSpace(x[..i]) && AllSpace(x[j..]);
    SplitThree(x, i, j);
    NotInSpaces(x[..i], c);
    NotInSpaces(x[j..], c);
    MultisetOfThree(x[..i], x[i..j], x[j..]);
  }

  /** The multiset of a concatenation of three texts is the sum of theirs. */
  lemma MultisetOfThree(a: string, b: string, c: string)
    ensures multiset(a + b + c) == multiset(a) + multiset(b) + multiset(c)
  {
  }

  lemma NotInSpaces(w: string, c: char)
    requires AllSpace(w) && !IsSpace(c)
    ensures c !in w
  {
    assert forall k | 0 <= k < |w| :: w[k] != c;
  }

  /** On a text without a fence (in particular, without a backtick) cleaning is
      just `strip()`. */
  lemma CleanFenceFree(s: string)
    requires !HasFence(s)
    ensures Clean(s) == Strip(s)
  {
    RemoveFencesFenceFree(s, PythonTag);
    RemoveFencesFenceFree(s, "");
  }

  /** On a text without backticks cleaning is just `strip()`. */
  lemma CleanWithoutBackticks(s: string)
    requires '`' !in s
    ensures Clean(s) == Strip(s)
  {
    forall i | 0 <= i < |s| ensures !FenceAt(s, i) {
      assert s[i] in s;
    }
    CleanFenceFree(s);
  }

  /** A fenced block tagged `python` around trimmed, fence-free code yields the code. */
  lemma CleanUnwrapsPythonBlock(x: string)
    requires !HasFence(x) && IsTrimmed(x)
    ensures Clean("```python\n" + x + "\n```") == x
  {
    var s := "```python\n" + x + "\n```";
    var inner := "\n" + x + "\n";
    assert FenceAt(s, 0);
    assert PythonTag <= s[3..];
    assert s[3..][|PythonTag|..] == inner + "```";
    UnwrapInner(x, PythonTag);
    SecondPassRedundant(s);
    StripSurrounded("\n", x, "\n");
  }

  /** An untagged fenced block around trimmed, fence-free code yields the code. */
  lemma CleanUnwrapsBareBlock(x: string)
    requires !HasFence(x) && IsTrimmed(x)
    ensures Clean("```\n" + x + "\n```") == x
  {
    var s := "```\n" + x + "\n```";
    var inner := "\n" + x + "\n";
    assert FenceAt(s, 0);
    assert s[3..] == inner + "```";
    assert !(PythonTag <= s[3..]) by {
      assert s[3] == '\n';
    }
    UnwrapInner(x, PythonTag);
    SecondPassRedundant(s);
    StripSurrounded("\n", x, "\n");
  }

  /** The body of a fenced block, with its line breaks, passes the scan and the
      closing fence is removed. */
  lemma UnwrapInner(x: string, tag: string)
    requires !HasFence(x)
    ensures RemoveFences("\n" + x + "\n" + "```", tag) == "\n" + x + "\n"
  {
    var inner := "\n" + x + "\n";
    forall i | 0 <= i < |inner| ensures !FenceAt(inner, i) {
      if 1 <= i && i + 3 <= |inner| - 1 {
        assert !FenceAt(x, i - 1);
        assert inner[i..i + 3] == x[i - 1..i + 2];
      }
    }
    RemoveFencesAppend(inner, "```", tag);
    assert FenceAt("```", 0);
    assert "```"[3..] == [];
  }

  // ---------------------------------------------------------------------------
  // Helpers on infixes and subsequences
  // ---------------------------------------------------------------------------

  lemma NoFenceInInfix(s: string, i: int, j: int)
    requires 0 <= i <= j <= |s| && !HasFence(s)
    ensures !HasFence(s[i..j])
  {
    forall k | 0 <= k < j - i ensures !FenceAt(s[i..j], k) {
      assert !FenceAt(s, i + k);
    }
  }

  lemma {:induction false} SubsequenceOfSuffix(a: string, b: string, k: nat)
    requires k <= |b| && IsSubsequence(a, b[k..])
    ensures IsSubsequence(a, b)
    decreases k
  {
    if k > 0 {
      assert b[k..] == b[1..][k - 1..];
      SubsequenceOfSuffix(a, b[1..], k - 1);
    }
  }

  lemma {:induction false} SubsequenceTransitive(a: string, b: string, c: string)
    requires IsSubsequence(a, b) && IsSubsequence(b, c)
    ensures IsSubsequence(a, c)
    decreases |c|
  {
    if a != [] {
      if IsSubsequence(b, c[1..]) {
        SubsequenceTransitive(a, b, c[1..]);
      } else if a[0] == b[0] && IsSubsequence(a[1..], b[1..]) {
        SubsequenceTransitive(a[1..], b[1..], c[1..]);
      } else {
        SubsequenceTransitive(a, b[1..], c[1..]);
      }
    }
  }

  lemma {:induction false} InfixIsSubsequence(s: string, i: int, j: int)
    requires 0 <= i <= j <= |s|
    ensures IsSubsequence(s[i..j], s)
    decreases |s|
  {
    if i > 0 {
      assert s[i..j] == s[1..][i - 1..j - 1];
      InfixIsSubsequence(s[1..], i - 1, j - 1);
    } else if j > 0 {
      assert s[i..j][1..] == s[1..][0..j - 1];
      InfixIsSubsequence(s[1..], 0, j - 1);
    }
  }
}
