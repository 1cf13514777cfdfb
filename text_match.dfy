/**
 * The part of Python's `str` and `re` behaviour that the crisis classifier
 * relies on, over ASCII text: `str.lower()`, the `in` substring test, and
 * `re.search` for patterns of the shape `\b(alt1|alt2|...)\b` whose
 * alternatives are literal words joined by `\s+`, `\s*` and `[-]?`.
 */
module TextMatch {

  /** `str.lower()` on one character: A-Z become a-z, everything else is kept. */
  function LowerChar(c: char): char {
    if 'A' <= c <= 'Z' then (c as int + 32) as char else c
  }

  /** `str.lower()` on ASCII text. */
  function Lower(s: string): string {
    seq(|s|, i requires 0 <= i < |s| => LowerChar(s[i]))
  }

  predicate IsLower(s: string) {
    forall i :: 0 <= i < |s| ==> !('A' <= s[i] <= 'Z')
  }

  lemma LowerIsLower(s: string)
    ensures |Lower(s)| == |s| && IsLower(Lower(s))
  {
  }

  /** Lower-casing text that has no capitals changes nothing; in particular it is idempotent. */
  lemma LowerKeepsLower(s: string)
    requires IsLower(s)
    ensures Lower(s) == s
  {
    assert forall i :: 0 <= i < |s| ==> Lower(s)[i] == s[i];
  }

  lemma LowerIdempotent(s: string)
    ensures Lower(Lower(s)) == Lower(s)
  {
    LowerIsLower(s);
    LowerKeepsLower(Lower(s));
  }

  lemma LowerConcat(a: string, b: string)
    ensures Lower(a + b) == Lower(a) + Lower(b)
  {
    assert forall i :: 0 <= i < |a + b| ==> Lower(a + b)[i] == (Lower(a) + Lower(b))[i];
  }

  /** `\s` (and `str.isspace`) on ASCII: tab, line feed, vertical tab, form feed,
      carriage return, the four separators 0x1C-0x1F, and space. */
  predicate IsSpace(c: char) {
    c == ' ' || ('\t' <= c <= '\r') || ('\U{1C}' <= c <= '\U{1F}')
  }

  /** `\w` on ASCII. */
  predicate IsWordChar(c: char) {
    ('a' <= c <= 'z') || ('A' <= c <= 'Z') || ('0' <= c <= '9') || c == '_'
  }

  /** `\b` at position `i` of `t`: exactly one of the characters around `i` is a word character. */
  predicate Boundary(t: string, i: int)
    requires 0 <= i <= |t|
  {
    (i > 0 && IsWordChar(t[i - 1])) != (i < |t| && IsWordChar(t[i]))
  }

  /** `w` occurs in `t` starting at position `i`. */
  predicate LitAt(w: string, t: string, i: int) {
    0 <= i && i + |w| <= |t| && t[i..i + |w|] == w
  }

  /** Python's `w in t`: a plain substring test, with no word boundaries. */
  predicate Contains(t: string, w: string) {
    exists i :: 0 <= i <= |t| && LitAt(w, t, i)
  }

  /** A substring of `t` is also a substring of any text that has `t` inside it. */
  lemma ContainsInExtension(a: string, t: string, b: string, w: string)
    requires Contains(t, w)
    ensures Contains(a + t + b, w)
  {
    var i :| 0 <= i <= |t| && LitAt(w, t, i);
    assert (a + t + b)[|a| + i..|a| + i + |w|] == t[i..i + |w|];
    assert LitAt(w, a + t + b, |a| + i);
  }

  // ---------------------------------------------------------------- patterns

  /** One element of an alternative: a literal word, `\s+`, `\s*` or `[-]?`. */
  datatype Piece = Lit(text: string) | Spaces1 | Spaces0 | OptHyphen

  type Alternative = seq<Piece>

  /** The regular expression `\b(a1|a2|...|an)\b`, given by its alternatives. */
  type Pattern = seq<Alternative>

  /** Every alternative starts with a non-empty literal word, as all of the classifier's do. */
  predicate WellFormed(p: Pattern) {
    forall k :: 0 <= k < |p| ==> p[k] != [] && p[k][0].Lit? && p[k][0].text != []
  }

  /** The backtracking matcher: alternative `a`, then `\b`, match `t` from position `i` on. */
  predicate MatchTail(a: Alternative, t: string, i: int)
    requires 0 <= i <= |t|
    decreases |t| - i, |a|
  {
    if a == [] then Boundary(t, i)
    else match a[0]
      case Lit(w) => LitAt(w, t, i) && MatchTail(a[1..], t, i + |w|)
      case Spaces1 => i < |t| && IsSpace(t[i]) && MatchTail([Spaces0] + a[1..], t, i + 1)
      case Spaces0 => MatchTail(a[1..], t, i) || (i < |t| && IsSpace(t[i]) && MatchTail(a, t, i + 1))
      case OptHyphen => MatchTail(a[1..], t, i) || (i < |t| && t[i] == '-' && MatchTail(a[1..], t, i + 1))
  }

  /** `\b(a1|...|an)\b` matches at position `i`. */
  predicate MatchAt(p: Pattern, t: string, i: int)
    requires 0 <= i <= |t|
  {
    Boundary(t, i) && exists k :: 0 <= k < |p| && MatchTail(p[k], t, i)
  }

  /** `re.search(p, t)` finds a match. */
  predicate Search(p: Pattern, t: string) {
    exists i :: 0 <= i <= |t| && MatchAt(p, t, i)
  }

  // ------------------------------------------------ the language of a pattern

  ghost predicate AllSpace(s: string) {
    forall i :: 0 <= i < |s| ==> IsSpace(s[i])
  }

  /** The set of strings an alternative denotes, read off the regular expression. */
  ghost predicate Lang(a: Alternative, s: string)
    decreases |a|
  {
    if a == [] then s == []
    else match a[0]
      case Lit(w) => w <= s && Lang(a[1..], s[|w|..])
      case Spaces1 => exists n :: 1 <= n <= |s| && AllSpace(s[..n]) && Lang(a[1..], s[n..])
      case Spaces0 => exists n :: 0 <= n <= |s| && AllSpace(s[..n]) && Lang(a[1..], s[n..])
      case OptHyphen => Lang(a[1..], s) || (s != [] && s[0] == '-' && Lang(a[1..], s[1..]))
  }

  /** Some `t[i..j]` is in the language of `a` and `\b` holds at `j`. */
  ghost predicate LangUpTo(a: Alternative, t: string, i: int)
    requires 0 <= i <= |t|
  {
    exists j :: i <= j <= |t| && Lang(a, t[i..j]) && Boundary(t, j)
  }

  lemma LitLang(a: Alternative, s: string)
    requires |a| > 0 && a[0].Lit?
    ensures Lang(a, s) <==> |a[0].text| <= |s| && s[..|a[0].text|] == a[0].text && Lang(a[1..], s[|a[0].text|..])
  {
  }

  lemma LitStep(a: Alternative, t: string, i: int)
    requires 0 <= i <= |t| && |a| > 0 && a[0].Lit?
    requires i + |a[0].text| <= |t| ==>
               (MatchTail(a[1..], t, i + |a[0].text|) <==> LangUpTo(a[1..], t, i + |a[0].text|))
    ensures MatchTail(a, t, i) <==> LangUpTo(a, t, i)
  {
    var w := a[0].text;
    if MatchTail(a, t, i) {
      var j :| i + |w| <= j <= |t| && Lang(a[1..], t[i + |w|..j]) && Boundary(t, j);
      var s := t[i..j];
      assert s[..|w|] == t[i..i + |w|];
      assert s[|w|..] == t[i + |w|..j];
      LitLang(a, s);
      assert Lang(a, s);
    }
    if LangUpTo(a, t, i) {
      var j :| i <= j <= |t| && Lang(a, t[i..j]) && Boundary(t, j);
      var s := t[i..j];
      LitLang(a, s);
      assert s[..|w|] == t[i..i + |w|];
      assert s[|w|..] == t[i + |w|..j];
      assert LangUpTo(a[1..], t, i + |w|);
    }
  }

  lemma Spaces1Forward(a: Alternative, t: string, i: int)
    requires 0 <= i < |t| && |a| > 0 && a[0].Spaces1? && IsSpace(t[i])
    requires LangUpTo([Spaces0] + a[1..], t, i + 1)
    ensures LangUpTo(a, t, i)
  {
    var b := [Spaces0] + a[1..];
    assert b[1..] == a[1..];
    var j :| i + 1 <= j <= |t| && Lang(b, t[i + 1..j]) && Boundary(t, j);
    var u := t[i + 1..j];
    var n :| 0 <= n <= |u| && AllSpace(u[..n]) && Lang(a[1..], u[n..]);
    var s := t[i..j];
    assert s[..n + 1] == [t[i]] + u[..n];
    assert s[n + 1..] == u[n..];
    assert 1 <= n + 1 <= |s| && AllSpace(s[..n + 1]) && Lang(a[1..], s[n + 1..]);
    assert Lang(a, s);
  }

  lemma Spaces1Backward(a: Alternative, t: string, i: int)
    requires 0 <= i <= |t| && |a| > 0 && a[0].Spaces1?
    requires LangUpTo(a, t, i)
    ensures i < |t| && LangUpTo([Spaces0] + a[1..], t, i + 1) && IsSpace(t[i])
  {
    var b := [Spaces0] + a[1..];
    assert b[1..] == a[1..];
    var j :| i <= j <= |t| && Lang(a, t[i..j]) && Boundary(t, j);
    var s := t[i..j];
    var n :| 1 <= n <= |s| && AllSpace(s[..n]) && Lang(a[1..], s[n..]);
    assert s[..n][0] == t[i];
    assert t[i + 1..j][..n - 1] == s[1..n];
    assert t[i + 1..j][n - 1..] == s[n..];
    assert Lang(b, t[i + 1..j]);
  }

  lemma Spaces1Step(a: Alternative, t: string, i: int)
    requires 0 <= i <= |t| && |a| > 0 && a[0].Spaces1?
    requires i < |t| ==> (MatchTail([Spaces0] + a[1..], t, i + 1) <==> LangUpTo([Spaces0] + a[1..], t, i + 1))
    ensures MatchTail(a, t, i) <==> LangUpTo(a, t, i)
  {
    assert ([Spaces0] + a[1..])[1..] == a[1..];
    if MatchTail(a, t, i) {
      Spaces1Forward(a, t, i);
    }
    if LangUpTo(a, t, i) {
      Spaces1Backward(a, t, i);
    }
  }

  lemma Spaces0Forward(a: Alternative, t: string, i: int)
    requires 0 <= i < |t| && |a| > 0 && a[0].Spaces0? && IsSpace(t[i])
    requires LangUpTo(a, t, i + 1)
    ensures LangUpTo(a, t, i)
  {
    var j :| i + 1 <= j <= |t| && Lang(a, t[i + 1..j]) && Boundary(t, j);
    var u := t[i + 1..j];
    var n :| 0 <= n <= |u| && AllSpace(u[..n]) && Lang(a[1..], u[n..]);
    var s := t[i..j];
    assert s[..n + 1] == [t[i]] + u[..n];
    assert s[n + 1..] == u[n..];
    assert 1 <= n + 1 <= |s| && AllSpace(s[..n + 1]) && Lang(a[1..], s[n + 1..]);
    assert Lang(a, s);
  }

  lemma Spaces0Backward(a: Alternative, t: string, i: int)
    requires 0 <= i <= |t| && |a| > 0 && a[0].Spaces0?
    requires LangUpTo(a, t, i)
    ensures LangUpTo(a[1..], t, i) || (i < |t| && IsSpace(t[i]) && LangUpTo(a, t, i + 1))
  {
    var j :| i <= j <= |t| && Lang(a, t[i..j]) && Boundary(t, j);
    var s := t[i..j];
    var n :| 0 <= n <= |s| && AllSpace(s[..n]) && Lang(a[1..], s[n..]);
    if n == 0 {
      assert s[0..] == s;
    } else {
      assert s[..n][0] == t[i];
      assert t[i + 1..j][..n - 1] == s[1..n];
      assert t[i + 1..j][n - 1..] == s[n..];
      assert Lang(a, t[i + 1..j]);
    }
  }

  lemma Spaces0Step(a: Alternative, t: string, i: int)
    requires 0 <= i <= |t| && |a| > 0 && a[0].Spaces0?
    requires MatchTail(a[1..], t, i) <==> LangUpTo(a[1..], t, i)
    requires i < |t| ==> (MatchTail(a, t, i + 1) <==> LangUpTo(a, t, i + 1))
    ensures MatchTail(a, t, i) <==> LangUpTo(a, t, i)
  {
    if MatchTail(a[1..], t, i) {
      var j :| i <= j <= |t| && Lang(a[1..], t[i..j]) && Boundary(t, j);
      assert t[i..j][..0] == [] && t[i..j][0..] == t[i..j];
      assert Lang(a, t[i..j]);
    } else if MatchTail(a, t, i) {
      Spaces0Forward(a, t, i);
    }
    if LangUpTo(a, t, i) {
      Spaces0Backward(a, t, i);
    }
  }

  lemma OptHyphenStep(a: Alternative, t: string, i: int)
    requires 0 <= i <= |t| && |a| > 0 && a[0].OptHyphen?
    requires MatchTail(a[1..], t, i) <==> LangUpTo(a[1..], t, i)
    requires i < |t| ==> (MatchTail(a[1..], t, i + 1) <==> LangUpTo(a[1..], t, i + 1))
    ensures MatchTail(a, t, i) <==> LangUpTo(a, t, i)
  {
    if MatchTail(a, t, i) && !MatchTail(a[1..], t, i) {
      var j :| i + 1 <= j <= |t| && Lang(a[1..], t[i + 1..j]) && Boundary(t, j);
      assert t[i..j][1..] == t[i + 1..j];
      assert Lang(a, t[i..j]);
    }
    if LangUpTo(a, t, i) {
      var j :| i <= j <= |t| && Lang(a, t[i..j]) && Boundary(t, j);
      if !Lang(a[1..], t[i..j]) {
        assert t[i..j][1..] == t[i + 1..j];
        assert LangUpTo(a[1..], t, i + 1);
      }
    }
  }

  /** The matcher is sound and complete for the regular expression's meaning: it
      succeeds from `i` exactly when some `t[i..j]` is in the language and `\b` holds at `j`. */
  lemma {:induction false} MatchTailMeansLang(a: Alternative, t: string, i: int)
    requires 0 <= i <= |t|
    ensures MatchTail(a, t, i) <==> LangUpTo(a, t, i)
    decreases |t| - i, |a|
  {
    if a == [] {
      assert MatchTail(a, t, i) ==> Lang(a, t[i..i]);
    } else {
      match a[0]
      case Lit(w) =>
        if i + |w| <= |t| {
          MatchTailMeansLang(a[1..], t, i + |w|);
        }
        LitStep(a, t, i);
      case Spaces1 =>
        if i < |t| {
          MatchTailMeansLang([Spaces0] + a[1..], t, i + 1);
        }
        Spaces1Step(a, t, i);
      case Spaces0 =>
        MatchTailMeansLang(a[1..], t, i);
        if i < |t| {
          MatchTailMeansLang(a, t, i + 1);
        }
        Spaces0Step(a, t, i);
      case OptHyphen =>
        MatchTailMeansLang(a[1..], t, i);
        if i < |t| {
          MatchTailMeansLang(a[1..], t, i + 1);
        }
        OptHyphenStep(a, t, i);
    }
  }

  /** `re.search` for `\b(a1|...|an)\b`: some alternative's language contains a
      stretch of `t` that begins and ends at word boundaries. */
  lemma SearchMeansPhraseBetweenBoundaries(p: Pattern, t: string)
    ensures Search(p, t) <==> exists i, j, k :: 0 <= i <= j <= |t| && 0 <= k < |p|
                                && Boundary(t, i) && Boundary(t, j) && Lang(p[k], t[i..j])
  {
    forall i, k | 0 <= i <= |t| && 0 <= k < |p| {
      MatchTailMeansLang(p[k], t, i);
    }
    if Search(p, t) {
      var i, k :| 0 <= i <= |t| && 0 <= k < |p| && Boundary(t, i) && MatchTail(p[k], t, i);
      var j :| i <= j <= |t| && Lang(p[k], t[i..j]) && Boundary(t, j);
    }
    if exists i, j, k :: 0 <= i <= j <= |t| && 0 <= k < |p|
         && Boundary(t, i) && Boundary(t, j) && Lang(p[k], t[i..j]) {
      var i, j, k :| 0 <= i <= j <= |t| && 0 <= k < |p|
         && Boundary(t, i) && Boundary(t, j) && Lang(p[k], t[i..j]);
      assert LangUpTo(p[k], t, i);
      assert MatchAt(p, t, i);
    }
  }

  // ---------------------------------------------- tools for concrete texts

  /** A match of an alternative starts with its leading word. */
  lemma LeadingWord(a: Alternative, t: string, i: int)
    requires 0 <= i <= |t| && |a| > 0 && a[0].Lit?
    requires MatchTail(a, t, i)
    ensures LitAt(a[0].text, t, i)
  {
  }

  /** `w` is nowhere in `t` when no position holds both its first and its `d`-th character. */
  lemma NotContained(w: string, t: string, d: nat)
    requires d < |w|
    requires forall i :: 0 <= i && i + |w| <= |t| ==> t[i] != w[0] || t[i + d] != w[d]
    ensures !Contains(t, w)
  {
    forall i | 0 <= i <= |t| ensures !LitAt(w, t, i) {
      if i + |w| <= |t| {
        assert t[i..i + |w|][0] == t[i] && t[i..i + |w|][d] == t[i + d];
      }
    }
  }

  /** `w` starts at no word boundary of `t`. */
  predicate NowhereAtBoundary(w: string, t: string) {
    forall i :: 0 <= i <= |t| && Boundary(t, i) ==> !LitAt(w, t, i)
  }

  /** `w` does not start at any word boundary of `t` when no boundary position holds
      both its first and its `d`-th character. */
  lemma NotAtBoundary(w: string, t: string, d: nat)
    requires d < |w|
    requires forall i :: 0 <= i && i + |w| <= |t| && Boundary(t, i) ==> t[i] != w[0] || t[i + d] != w[d]
    ensures NowhereAtBoundary(w, t)
  {
    forall i | 0 <= i <= |t| && Boundary(t, i) ensures !LitAt(w, t, i) {
      if i + |w| <= |t| {
        assert t[i..i + |w|][0] == t[i] && t[i..i + |w|][d] == t[i + d];
      }
    }
  }

  /** No character of `cs` opens a word of `t`. */
  predicate NoneAtWordStart(t: string, cs: set<char>) {
    forall i :: 0 <= i < |t| && Boundary(t, i) ==> t[i] !in cs
  }

  /** No character of `cs` occurs in `t` at all. */
  predicate NoneAnywhere(t: string, cs: set<char>) {
    forall i :: 0 <= i < |t| ==> t[i] !in cs
  }

  /** A word whose first character opens no word of `t` starts at no word boundary of `t`. */
  lemma NotAtBoundaryByFirst(w: string, t: string, cs: set<char>)
    requires w != [] && w[0] in cs && NoneAtWordStart(t, cs)
    ensures NowhereAtBoundary(w, t)
  {
    forall i | 0 <= i <= |t| && Boundary(t, i) ensures !LitAt(w, t, i) {
      if i + |w| <= |t| {
        assert t[i..i + |w|][0] == t[i];
      }
    }
  }

  /** A word whose first character does not occur in `t` is not a substring of `t`. */
  lemma NotContainedByFirst(w: string, t: string, cs: set<char>)
    requires w != [] && w[0] in cs && NoneAnywhere(t, cs)
    ensures !Contains(t, w)
  {
    forall i | 0 <= i <= |t| ensures !LitAt(w, t, i) {
      if i + |w| <= |t| {
        assert t[i..i + |w|][0] == t[i];
      }
    }
  }

  /** No alternative of `p` has its leading word at a word boundary of `t`. */
  predicate NoLeadAtBoundary(p: Pattern, t: string) {
    forall k :: 0 <= k < |p| && p[k] != [] && p[k][0].Lit? ==> NowhereAtBoundary(p[k][0].text, t)
  }

  /** A pattern finds nothing in `t` when no leading word of its alternatives starts at a word boundary. */
  lemma NoSearch(p: Pattern, t: string)
    requires WellFormed(p) && NoLeadAtBoundary(p, t)
    ensures !Search(p, t)
  {
    forall i, k | 0 <= i <= |t| && 0 <= k < |p|
      ensures MatchTail(p[k], t, i) ==> LitAt(p[k][0].text, t, i)
    {
      if MatchTail(p[k], t, i) {
        LeadingWord(p[k], t, i);
      }
    }
  }

  /** A literal word followed by a match of the rest. */
  lemma LitThen(w: string, rest: Alternative, t: string, i: int)
    requires 0 <= i <= |t| && LitAt(w, t, i) && MatchTail(rest, t, i + |w|)
    ensures MatchTail([Lit(w)] + rest, t, i)
  {
    assert ([Lit(w)] + rest)[1..] == rest;
  }

  /** `\s+` takes one whitespace character and may stop there. */
  lemma SpaceThen(rest: Alternative, t: string, i: int)
    requires 0 <= i < |t| && IsSpace(t[i]) && MatchTail(rest, t, i + 1)
    ensures MatchTail([Spaces1] + rest, t, i)
  {
    assert ([Spaces1] + rest)[1..] == rest;
    assert ([Spaces0] + rest)[1..] == rest;
  }
}
