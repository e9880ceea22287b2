/** The regular expression against a description by whitespace runs: in normalized text a run of
    whitespace separates two sentences exactly when it holds at least two line feeds or follows
    the end of a sentence. */
module BoundaryRuns {
  import opened Wrappers
  import opened Text
  import opened SentenceScanner

  /** The run `lo..hi` holds a blank line, or follows a full stop, an exclamation or a question mark, with
      a straight or curly closing quote in between or without. */
  predicate IsBreak(s: string, lo: nat, hi: nat)
    requires lo <= hi <= |s|
  {
    || CountNewlines(s[lo..hi]) >= 2
    || (lo >= 1 && s[lo - 1] in ".!?")
    || (lo >= 2 && s[lo - 2] in ".!?" && s[lo - 1] in "\"\U{201D}\U{2019}")
  }

  /** The first whitespace run at or after `i` that separates sentences. */
  function NextBreak(s: string, i: nat): (m: Option<(nat, nat)>)
    requires i <= |s|
    ensures m.Some? ==> i <= m.value.0 < m.value.1 <= |s| && IsBreak(s, m.value.0, m.value.1)
    decreases |s| - i
  {
    if i == |s| then None
    else if !IsSpace(s[i]) then NextBreak(s, i + 1)
    else
      var j := RunEnd(s, i, IsSpace);
      if IsBreak(s, i, j) then Some((i, j)) else NextBreak(s, j)
  }

  /** Sentences as the text between breaks, nothing stripped and nothing searched. */
  function RunSentences(s: string, start: nat, separator: string): seq<Unit>
    requires start <= |s|
    decreases |s| - start
  {
    var m := NextBreak(s, start);
    if m.None? then [Unit(s[start..], separator)]
    else
      var (lo, hi) := m.value;
      [Unit(s[start..lo], separator)] + RunSentences(s, hi, SeparatorFor(s[lo..hi]))
  }

  lemma {:induction false} CountSplit(a: string, b: string)
    ensures CountNewlines(a + b) == CountNewlines(a) + CountNewlines(b)
  {
    if a == "" {
      assert a + b == b;
    } else {
      assert a + b == [a[0]] + (a[1..] + b);
      CountSplit(a[1..], b);
    }
  }

  lemma {:induction false} CountNone(s: string)
    requires forall i :: 0 <= i < |s| ==> s[i] != '\n'
    ensures CountNewlines(s) == 0
  {
    if s != "" { CountNone(s[1..]); }
  }

  lemma CountAround(s: string, lo: nat, k: nat, hi: nat)
    requires lo <= k <= hi <= |s|
    ensures CountNewlines(s[lo..hi]) == CountNewlines(s[lo..k]) + CountNewlines(s[k..hi])
  {
    assert s[lo..hi] == s[lo..k] + s[k..hi];
    CountSplit(s[lo..k], s[k..hi]);
  }

  lemma CountFrom(s: string, lo: nat, hi: nat)
    requires lo < hi <= |s|
    ensures CountNewlines(s[lo..hi]) == (if s[lo] == '\n' then 1 else 0) + CountNewlines(s[lo + 1..hi])
  {
    assert s[lo..hi][1..] == s[lo + 1..hi];
  }

  /** `i..j` is whitespace and a visible character follows. */
  predicate Run(s: string, i: nat, j: nat) {
    && i <= j < |s| && !IsSpace(s[j])
    && forall k :: i <= k < j ==> IsSpace(s[k])
  }

  /** A paragraph match within a run stays in the run and spans two line feeds. */
  lemma ParagraphInRun(s: string, i: nat, k: nat, j: nat)
    requires Run(s, i, j) && i <= k < j && ParagraphMatch(s, k).Some?
    ensures k < ParagraphMatch(s, k).value <= j
    ensures CountNewlines(s[k..ParagraphMatch(s, k).value]) >= 2
    ensures CountNewlines(s[i..j]) >= 2
  {
    hide IsSpace;
    NamedSpaces();
    var n := RunEnd(s, k + 1, IsTabOrSpace);
    var e := ParagraphMatch(s, k).value;
    assert n < j by { RunBound(s, k + 1, n, j); }
    assert e <= j by { RunBound(s, n, e, j); }
    CountFrom(s, k, e);
    CountAround(s, k + 1, n, e);
    CountFrom(s, n, e);
    CountAround(s, i, k, j);
    CountAround(s, k, e, j);
  }

  /** A span of tabs, spaces and line feeds cannot pass a visible character. */
  lemma RunBound(s: string, k: nat, e: nat, j: nat)
    requires k <= j < |s| && !IsSpace(s[j]) && e <= |s|
    requires forall n :: k <= n < e ==> IsTabOrSpace(s[n]) || IsNewline(s[n])
    ensures e <= j
  {
  }

  /** Two line feeds in a run of spaces and line feeds are found as a paragraph match. */
  lemma {:induction false} ParagraphExists(s: string, i: nat, j: nat) returns (k: nat)
    requires NormalForm(s) && Run(s, i, j) && CountNewlines(s[i..j]) >= 2
    ensures i <= k < j && ParagraphMatch(s, k).Some?
    decreases j - i
  {
    hide IsSpace;
    hide RunEnd;
    CountFrom(s, i, j);
    if s[i] == '\n' {
      k := i;
      var n := RunEnd(s, i + 1, IsTabOrSpace);
      assert n < j && s[n] == '\n' by { NewlineNext(s, i + 1, n, j); }
    } else {
      k := ParagraphExists(s, i + 1, j);
    }
  }

  lemma NewlineNext(s: string, k: nat, n: nat, j: nat)
    requires NormalForm(s) && Run(s, k, j) && CountNewlines(s[k..j]) >= 1
    requires n == RunEnd(s, k, IsTabOrSpace)
    ensures n < j && s[n] == '\n'
  {
    hide IsSpace;
    RunBound(s, k, n, j);
    CountAround(s, k, n, j);
    assert forall i :: 0 <= i < n - k ==> s[k..n][i] == s[k + i];
    CountNone(s[k..n]);
    assert s[j..j] == "";
  }

  lemma {:induction false} SkipTo(s: string, a: nat, b: nat)
    requires a <= b <= |s| && forall k :: a <= k < b ==> MatchAt(s, k).None?
    ensures NextMatch(s, a) == NextMatch(s, b)
    decreases b - a
  {
    hide MatchAt;
    if a < b { SkipTo(s, a + 1, b); }
  }

  /** Inside a run, past its first character, no lookbehind can hold. */
  lemma InsideRun(s: string, i: nat, k: nat, j: nat)
    requires Run(s, i, j) && i < k < j
    ensures !AfterSentence(s, k)
  {
  }

  /** A run that is no break holds no match. */
  lemma QuietRun(s: string, i: nat, j: nat)
    requires Run(s, i, j) && i < j && !IsBreak(s, i, j)
    ensures forall k :: i <= k < j ==> MatchAt(s, k).None?
  {
    hide IsSpace;
    hide ParagraphMatch;
    forall k | i <= k < j ensures MatchAt(s, k).None? {
      if ParagraphMatch(s, k).Some? { ParagraphInRun(s, i, k, j); }
      if i < k { InsideRun(s, i, k, j); }
    }
  }

  /** What the scanner finds first in a run that is a break. */
  lemma FirstMatchInBreak(s: string, i: nat, j: nat) returns (lo: nat, hi: nat)
    requires NormalForm(s) && Run(s, i, j) && i < j && IsBreak(s, i, j)
    ensures NextMatch(s, i) == Some((lo, hi)) && i <= lo < hi <= j
    ensures SeparatorFor(s[lo..hi]) == SeparatorFor(s[i..j])
    ensures hi == j || SeparatorFor(s[i..j]) == "\n\n"
  {
    hide IsSpace;
    hide ParagraphMatch;
    hide RunEnd;
    hide NextMatch;
    var k := i;
    if CountNewlines(s[i..j]) >= 2 {
      k := ParagraphExists(s, i, j);
    }
    assert MatchAt(s, k).Some?;
    var m := NextMatch(s, i);
    lo, hi := m.value.0, m.value.1;
    if ParagraphMatch(s, lo).Some? {
      ParagraphInRun(s, i, lo, j);
    } else {
      if i < lo { InsideRun(s, i, lo, j); }
      RunEndIs(s, i, j, IsSpace);
    }
  }

  lemma EmitNothing(s: string, a: nat, b: nat, separator: string)
    requires a <= b <= |s| && forall k :: a <= k < b ==> IsSpace(s[k])
    ensures Emit(s[a..b], separator) == []
  {
    hide IsSpace;
    hide Strip;
    StripIs(s[a..b], 0, 0);
  }

  lemma EmitSkipsSpace(s: string, a: nat, b: nat, c: nat, separator: string)
    requires a <= b <= c <= |s| && forall k :: a <= k < b ==> IsSpace(s[k])
    ensures Emit(s[a..c], separator) == Emit(s[b..c], separator)
  {
    hide IsSpace;
    hide Strip;
    var lo, hi := StripLocates(s[b..c]);
    SliceOfSlice(s, b, c, lo, hi);
    SliceOfSlice(s, a, c, b - a + lo, b - a + hi);
    assert forall k :: a <= k < c ==> s[a..c][k - a] == s[k];
    assert forall k :: b <= k < c ==> s[b..c][k - b] == s[k];
    StripIs(s[a..c], b - a + lo, b - a + hi);
  }

  /** After a match, the rest of the run changes nothing: it yields no sentence and, if anything
      more of it matches, the separator stays a blank line. */
  lemma {:induction false} RestOfRun(s: string, k: nat, j: nat, separator: string)
    requires 0 < k <= j && Run(s, k - 1, j) && (k == j || separator == "\n\n")
    ensures Sentences(s, k, separator) == Sentences(s, j, separator)
    decreases j - k
  {
    hide IsSpace;
    hide MatchAt;
    hide Emit;
    hide NextMatch;
    hide CountNewlines;
    if k < j {
      var m := NextMatch(s, k);
      if m.Some? && m.value.0 < j {
        var (lo, hi) := m.value;
        MatchIsSpace(s, lo);
        MatchInsideRun(s, k - 1, lo, j);
        EmitNothing(s, k, lo, separator);
        RestOfRun(s, hi, j, separator);
      } else {
        SkipTo(s, k, j);
        if m.Some? {
          EmitSkipsSpace(s, k, j, m.value.0, separator);
        } else {
          EmitSkipsSpace(s, k, j, |s|, separator);
          assert s[k..] == s[k..|s|] && s[j..] == s[j..|s|];
        }
      }
    }
  }

  lemma MatchInsideRun(s: string, i: nat, lo: nat, j: nat)
    requires Run(s, i, j) && i < lo < j && MatchAt(s, lo).Some?
    ensures MatchAt(s, lo).value <= j
    ensures SeparatorFor(s[lo..MatchAt(s, lo).value]) == "\n\n"
  {
    hide IsSpace;
    hide ParagraphMatch;
    InsideRun(s, i, lo, j);
    ParagraphInRun(s, i, lo, j);
  }

  /** `NextBreak` and the scanner agree on the sentence in front of them. */
  lemma {:induction false} ScanAgrees(s: string, start: nat, i: nat, separator: string)
    requires NormalForm(s) && Trimmed(s) && start <= i <= |s| && start < |s| && !IsSpace(s[start])
    requires i == |s| || !IsSpace(s[i]) || (i > start && !IsSpace(s[i - 1]))
    requires NextMatch(s, start) == NextMatch(s, i)
    ensures NextBreak(s, i).None? ==> Sentences(s, start, separator) == [Unit(s[start..], separator)]
    ensures NextBreak(s, i).Some? ==>
              var (lo, hi) := NextBreak(s, i).value;
              && start < lo && hi < |s| && !IsSpace(s[hi])
              && Sentences(s, start, separator)
                 == [Unit(s[start..lo], separator)] + Sentences(s, hi, SeparatorFor(s[lo..hi]))
    decreases |s| - i
  {
    hide IsSpace;
    hide MatchAt;
    hide Emit;
    hide NextMatch;
    hide CountNewlines;
    hide NormalForm;
    hide Sentences;
    if i == |s| {
      LastSentence(s, start, separator);
    } else if !IsSpace(s[i]) {
      VisibleNoMatch(s, i);
      SkipTo(s, i, i + 1);
      ScanAgrees(s, start, i + 1, separator);
    } else {
      var j := RunEnd(s, i, IsSpace);
      if IsBreak(s, i, j) {
        BreakSentence(s, start, i, j, separator);
      } else {
        QuietRun(s, i, j);
        SkipTo(s, i, j);
        ScanAgrees(s, start, j, separator);
      }
    }
  }

  lemma VisibleNoMatch(s: string, i: nat)
    requires i < |s| && !IsSpace(s[i])
    ensures MatchAt(s, i).None?
  {
    NamedSpaces();
  }

  lemma LastSentence(s: string, start: nat, separator: string)
    requires Trimmed(s) && start < |s| && !IsSpace(s[start]) && NextMatch(s, start).None?
    ensures Sentences(s, start, separator) == [Unit(s[start..], separator)]
  {
    hide IsSpace;
    hide Emit;
    EmitVisible(s, start, |s|, separator);
    assert s[start..] == s[start..|s|];
  }

  lemma BreakSentence(s: string, start: nat, i: nat, j: nat, separator: string)
    requires NormalForm(s) && start < i <= |s| && !IsSpace(s[start]) && !IsSpace(s[i - 1])
    requires Run(s, i, j) && i < j && IsBreak(s, i, j) && NextMatch(s, start) == NextMatch(s, i)
    ensures Sentences(s, start, separator)
         == [Unit(s[start..i], separator)] + Sentences(s, j, SeparatorFor(s[i..j]))
  {
    hide IsSpace;
    hide Emit;
    hide MatchAt;
    hide NormalForm;
    hide NextMatch;
    hide CountNewlines;
    var lo, hi := FirstMatchInBreak(s, i, j);
    EmitVisible(s, start, i, separator);
    EmitTrailing(s, start, i, lo, separator);
    RestOfRun(s, hi, j, SeparatorFor(s[i..j]));
  }

  lemma EmitTrailing(s: string, a: nat, b: nat, c: nat, separator: string)
    requires a <= b <= c <= |s| && forall k :: b <= k < c ==> IsSpace(s[k])
    ensures Emit(s[a..c], separator) == Emit(s[a..b], separator)
  {
    hide IsSpace;
    hide Strip;
    var lo, hi := StripLocates(s[a..b]);
    SliceOfSlice(s, a, b, lo, hi);
    SliceOfSlice(s, a, c, lo, hi);
    assert forall k :: a <= k < c ==> s[a..c][k - a] == s[k];
    assert forall k :: a <= k < b ==> s[a..b][k - a] == s[k];
    StripIs(s[a..c], lo, hi);
  }

  /** On normalized text the regular expression finds exactly the sentences between breaks, and
      the separator of a sentence tells whether the run before it holds two line feeds. */
  lemma {:induction false} ScannerIsRunSplitter(s: string, start: nat, separator: string)
    requires NormalForm(s) && Trimmed(s) && start < |s| && !IsSpace(s[start])
    ensures Sentences(s, start, separator) == RunSentences(s, start, separator)
    decreases |s| - start
  {
    hide IsSpace;
    hide MatchAt;
    hide NextMatch;
    hide NormalForm;
    hide NextBreak;
    ScanAgrees(s, start, start, separator);
    var m := NextBreak(s, start);
    if m.Some? {
      ScannerIsRunSplitter(s, m.value.1, SeparatorFor(s[m.value.0..m.value.1]));
    }
  }
}
