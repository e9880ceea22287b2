/** What stands between two words: a blank line in a chunk exactly where the text has one. */
module ChunkingParagraphs {
  import opened Text
  import opened SentenceScanner
  import opened BoundaryRuns
  import opened Chunking
  import opened ChunkingProperties

  // ---- The whitespace before each word ----

  /** The whitespace before each word of `s`, in order, where `gap` stands before `s`. */
  function Gaps(s: string, gap: string): seq<string>
    decreases |s|
  {
    if s == "" then []
    else if IsSpace(s[0]) then Gaps(s[1..], gap + [s[0]])
    else if |s| > 1 && !IsSpace(s[1]) then Gaps(s[1..], gap)
    else [gap] + Gaps(s[1..], "")
  }

  lemma GapsStep(c: char, t: string, gap: string)
    ensures Gaps([c] + t, gap) == if IsSpace(c) then Gaps(t, gap + [c])
                                  else if t != "" && !IsSpace(t[0]) then Gaps(t, gap)
                                  else [gap] + Gaps(t, "")
  {
    hide IsSpace;
    assert ([c] + t)[1..] == t;
  }

  lemma {:induction false} GapsCount(s: string, gap: string)
    ensures |Gaps(s, gap)| == |Words(s)|
    decreases |s|
  {
    hide IsSpace;
    if s != "" {
      GapsCount(s[1..], gap + [s[0]]);
      GapsCount(s[1..], gap);
      GapsCount(s[1..], "");
    }
  }

  /** Only the first gap depends on what stands before. */
  lemma {:induction false} GapsOfFirst(s: string, gap: string)
    requires s != "" && !IsSpace(s[0])
    ensures Gaps(s, "") != [] && Gaps(s, gap) == [gap] + Gaps(s, "")[1..]
    decreases |s|
  {
    hide IsSpace;
    if |s| > 1 && !IsSpace(s[1]) { GapsOfFirst(s[1..], gap); }
  }

  lemma {:induction false} GapsAfterSpace(sep: string, b: string, gap: string)
    requires AllSpace(sep)
    ensures Gaps(sep + b, gap) == Gaps(b, gap + sep)
    decreases |sep|
  {
    hide IsSpace;
    hide Gaps;
    if sep == "" {
      assert sep + b == b && gap + sep == gap;
    } else {
      assert sep + b == [sep[0]] + (sep[1..] + b) && gap + sep == (gap + [sep[0]]) + sep[1..];
      GapsStep(sep[0], sep[1..] + b, gap);
      GapsAfterSpace(sep[1..], b, gap + [sep[0]]);
    }
  }

  lemma {:induction false} GapsJoin(a: string, sep: string, b: string, gap: string)
    requires a != "" && !IsSpace(a[|a| - 1]) && sep != "" && AllSpace(sep)
    ensures Gaps(a + (sep + b), gap) == Gaps(a, gap) + Gaps(b, sep)
    decreases |a|
  {
    hide IsSpace;
    hide Gaps;
    var rest := sep + b;
    assert rest[0] == sep[0];
    assert a == [a[0]] + a[1..] && a + rest == [a[0]] + (a[1..] + rest);
    GapsStep(a[0], a[1..] + rest, gap);
    GapsStep(a[0], a[1..], gap);
    if |a| == 1 {
      assert a[1..] == "" && a[1..] + rest == rest;
      GapsAfterSpace(sep, b, "");
      assert "" + sep == sep;
      assert Gaps("", "") == [] by { NoGaps(""); }
    } else {
      assert a[1..][|a| - 2] == a[|a| - 1] && (a[1..] + rest)[0] == a[1..][0];
      GapsJoin(a[1..], sep, b, gap + [a[0]]);
      GapsJoin(a[1..], sep, b, gap);
      GapsJoin(a[1..], sep, b, "");
    }
  }

  lemma NoGaps(gap: string)
    ensures Gaps("", gap) == []
  {
  }

  // ---- How a gap of a chunk relates to the gap of the text ----

  /** A blank line for whitespace with two line feeds or more; otherwise a space, or the same. */
  predicate GapKept(x: string, y: string) {
    if CountNewlines(y) >= 2 then x == "\n\n" else x == " " || x == y
  }

  /** `x` begins a chunk, or `y` lies inside a word that was cut, or the gap is kept. */
  predicate Fits(x: string, y: string) {
    x == "" || y == "" || GapKept(x, y)
  }

  predicate AllFits(xs: seq<string>, ys: seq<string>) {
    |xs| == |ys| && forall k :: 0 <= k < |xs| ==> Fits(xs[k], ys[k])
  }

  lemma AllFitsConcat(a: seq<string>, b: seq<string>, c: seq<string>, d: seq<string>)
    requires AllFits(a, c) && AllFits(b, d)
    ensures AllFits(a + b, c + d)
  {
    hide Fits;
  }

  /** The gaps of the pieces of cut words: nothing stands before a piece inside its word. */
  function WordGaps(n: nat, gap: string): seq<string> {
    if n == 0 then [] else [gap] + seq(n - 1, _ => "")
  }

  function PieceGaps(ws: seq<string>, gaps: seq<string>, limit: Limit): seq<string>
    requires |ws| == |gaps|
  {
    if ws == [] then [] else WordGaps(|Pieces(ws[0], limit)|, gaps[0]) + PieceGaps(ws[1..], gaps[1..], limit)
  }

  lemma PieceGapsStep(w: string, ws: seq<string>, gap: string, gaps: seq<string>, limit: Limit)
    requires |ws| == |gaps|
    ensures PieceGaps([w] + ws, [gap] + gaps, limit) == WordGaps(|Pieces(w, limit)|, gap) + PieceGaps(ws, gaps, limit)
    ensures PieceGaps([], [], limit) == []
  {
    assert ([w] + ws)[1..] == ws && ([gap] + gaps)[1..] == gaps;
  }

  lemma {:induction false} PieceGapsConcat(
    a: seq<string>, b: seq<string>, c: seq<string>, d: seq<string>, limit: Limit)
    requires |a| == |c| && |b| == |d|
    ensures PieceGaps(a + b, c + d, limit) == PieceGaps(a, c, limit) + PieceGaps(b, d, limit)
  {
    hide Pieces;
    hide PieceGaps;
    hide WordGaps;
    if a == [] {
      PieceGapsStep("", [], "", [], limit);
      assert a + b == b && c + d == d;
    } else {
      PieceGapsConcat(a[1..], b, c[1..], d, limit);
      assert a + b == [a[0]] + (a[1..] + b) && c + d == [c[0]] + (c[1..] + d);
      assert a == [a[0]] + a[1..] && c == [c[0]] + c[1..];
      PieceGapsStep(a[0], a[1..] + b, c[0], c[1..] + d, limit);
      PieceGapsStep(a[0], a[1..], c[0], c[1..], limit);
    }
  }

  lemma {:induction false} PieceGapsOfShort(ws: seq<string>, gaps: seq<string>, limit: Limit)
    requires |ws| == |gaps| && forall w :: w in ws ==> |w| <= limit
    ensures PieceGaps(ws, gaps, limit) == gaps
  {
    if ws != [] {
      PieceGapsOfShort(ws[1..], gaps[1..], limit);
      assert |Pieces(ws[0], limit)| == 1 && WordGaps(1, gaps[0]) == [gaps[0]];
    }
  }

  // ---- Inside a sentence ----

  /** Inside a sentence no gap holds two line feeds. */
  lemma {:induction false} QuietGaps(t: string, i: nat, j: nat, gap: string)
    requires SentenceOk(t) && j <= i <= |t|
    requires || (gap == t[j..i] && forall k :: j <= k < i ==> IsSpace(t[k]))
             || (CountNewlines(gap) < 2 && i < |t| && !IsSpace(t[i]))
    ensures forall k :: 0 <= k < |Gaps(t[i..], gap)| ==> CountNewlines(Gaps(t[i..], gap)[k]) < 2
    decreases |t| - i
  {
    hide IsSpace;
    hide NormalForm;
    hide MatchAt;
    hide CountNewlines;
    if i < |t| {
      assert t[i..][1..] == t[i + 1..];
      if IsSpace(t[i]) {
        assert gap + [t[i]] == t[j..i + 1];
        QuietGaps(t, i + 1, j, gap + [t[i]]);
      } else {
        if CountNewlines(gap) >= 2 { NoParagraphInside(t, j, i); }
        if i + 1 < |t| && !IsSpace(t[i + 1]) {
          QuietGaps(t, i + 1, j, gap);
        } else {
          assert t[i + 1..i + 1] == "";
          QuietGaps(t, i + 1, i + 1, "");
        }
      }
    }
  }

  lemma NoParagraphInside(t: string, j: nat, i: nat)
    requires SentenceOk(t) && j <= i < |t| && !IsSpace(t[i]) && forall k :: j <= k < i ==> IsSpace(t[k])
    ensures CountNewlines(t[j..i]) < 2
  {
    hide IsSpace;
    hide NormalForm;
    hide CountNewlines;
    if CountNewlines(t[j..i]) >= 2 { ParagraphIsMatched(t, j, i); }
  }

  lemma ParagraphIsMatched(t: string, j: nat, i: nat)
    requires NormalForm(t) && j <= i < |t| && !IsSpace(t[i]) && forall k :: j <= k < i ==> IsSpace(t[k])
    requires CountNewlines(t[j..i]) >= 2
    ensures !Quiet(t)
  {
    hide IsSpace;
    hide NormalForm;
    hide CountNewlines;
    var k := ParagraphExists(t, j, i);
    assert MatchAt(t, k).Some?;
  }

  lemma SentenceGaps(t: string, sep: string, gap: string)
    requires SentenceOk(t) && Fits(sep, gap)
    ensures AllFits(Gaps(t, sep), Gaps(t, gap))
  {
    hide IsSpace;
    hide Gaps;
    hide CountNewlines;
    SentenceOkBasics(t);
    assert t[0..0] == "" && t[0..] == t;
    QuietGaps(t, 0, 0, "");
    GapsOfFirst(t, sep);
    GapsOfFirst(t, gap);
  }

  function UnitGaps(units: seq<Unit>): seq<string> {
    if units == [] then [] else Gaps(units[0].text, units[0].separator) + UnitGaps(units[1..])
  }

  lemma {:induction false} UnitGapsConcat(a: seq<Unit>, b: seq<Unit>)
    ensures UnitGaps(a + b) == UnitGaps(a) + UnitGaps(b)
  {
    hide Gaps;
    if a == [] {
      assert a + b == b;
    } else {
      assert (a + b)[1..] == a[1..] + b;
      UnitGapsConcat(a[1..], b);
    }
  }

  lemma PartsStep(part: string, parts: seq<string>, separator: string)
    ensures Parts([part] + parts, separator) == [Unit(part, separator)] + Parts(parts, " ")
  {
  }

  /** Splitting an oversized sentence keeps its gaps; its first part keeps the separator. */
  lemma {:induction false} SplitKeepsGaps(t: string, limit: Limit, sep: string, gap: string)
    requires SentenceOk(t) && Fits(sep, gap)
    ensures |Gaps(t, gap)| == |Words(t)|
    ensures AllFits(UnitGaps(Parts(Split(t, limit), sep)), PieceGaps(Words(t), Gaps(t, gap), limit))
    decreases |t|
  {
    hide IsSpace;
    hide Words;
    hide Split;
    hide SentenceOk;
    hide Gaps;
    hide Parts;
    hide Fits;
    hide PieceGaps;
    SentenceOkBasics(t);
    GapsCount(t, gap);
    if |t| <= limit {
      SplitShort(t, limit);
      PartsStep(t, [], sep);
      assert Parts([], " ") == [] by { PartsOfNone(" "); }
      OneUnitGaps(Unit(t, sep), []);
      assert [t] + [] == [t];
      ShortGaps(t, gap, limit);
      SentenceGaps(t, sep, gap);
    } else {
      var p, q := SplitUnfolds(t, limit);
      var a, b := t[..p], t[q..];
      PieceOk(t, 0, p);
      PieceOk(t, q, |t|);
      assert t[0..p] == a && t[q..|t|] == b;
      PartsStep(a, Split(b, limit), sep);
      OneUnitGaps(Unit(a, sep), Parts(Split(b, limit), " "));
      SentenceGaps(a, sep, gap);
      var between := t[p..q];
      if p == q {
        FitsInside(" ", "");
        SplitKeepsGaps(b, limit, " ", "");
        HardCutGaps(t, p, gap, limit);
        HardCutFirst(a, sep, gap);
        AllFitsConcat([sep], UnitGaps(Parts(Split(b, limit), " ")), [gap], PieceGaps(Words(b), Gaps(b, ""), limit));
      } else {
        NoParagraphInside(t, p, q);
        FitsSpace(between);
        SplitKeepsGaps(b, limit, " ", between);
        SoftCutGaps(t, p, q, gap, limit);
        AllFitsConcat(Gaps(a, sep), UnitGaps(Parts(Split(b, limit), " ")),
                      Gaps(a, gap), PieceGaps(Words(b), Gaps(b, between), limit));
      }
    }
  }

  lemma PartsOfNone(separator: string)
    ensures Parts([], separator) == []
  {
  }

  lemma OneUnitGaps(u: Unit, rest: seq<Unit>)
    ensures UnitGaps([u] + rest) == Gaps(u.text, u.separator) + UnitGaps(rest)
    ensures UnitGaps([]) == []
  {
    assert ([u] + rest)[1..] == rest;
  }

  lemma FitsInside(x: string, y: string)
    requires y == ""
    ensures Fits(x, y)
  {
  }

  lemma FitsSpace(y: string)
    requires CountNewlines(y) < 2
    ensures Fits(" ", y)
  {
  }

  lemma ShortGaps(t: string, gap: string, limit: Limit)
    requires |t| <= limit
    ensures |Words(t)| == |Gaps(t, gap)| && PieceGaps(Words(t), Gaps(t, gap), limit) == Gaps(t, gap)
  {
    hide Words;
    hide Gaps;
    GapsCount(t, gap);
    WordsAreSolid(t);
    PieceGapsOfShort(Words(t), Gaps(t, gap), limit);
  }

  lemma SoftCutGaps(t: string, p: nat, q: nat, gap: string, limit: Limit)
    requires 0 < p < q < |t| && p <= limit && !IsSpace(t[p - 1]) && forall i :: p <= i < q ==> IsSpace(t[i])
    ensures |Gaps(t, gap)| == |Words(t)| && |Gaps(t[q..], t[p..q])| == |Words(t[q..])|
    ensures PieceGaps(Words(t), Gaps(t, gap), limit)
         == Gaps(t[..p], gap) + PieceGaps(Words(t[q..]), Gaps(t[q..], t[p..q]), limit)
  {
    hide IsSpace;
    hide Words;
    hide Gaps;
    hide PieceGaps;
    var a, between, b := t[..p], t[p..q], t[q..];
    assert t == a + (between + b);
    GapsCount(t, gap);
    GapsCount(b, between);
    GapsJoin(a, between, b, gap);
    assert Words(t) == Words(a) + Words(b) by {
      WordsConcat(a, between + b);
      assert between + b == between + b + "";
      WordsPadded(between, b, "");
    }
    ShortGaps(a, gap, limit);
    PieceGapsConcat(Words(a), Words(b), Gaps(a, gap), Gaps(b, between), limit);
  }

  lemma HardCutFirst(a: string, sep: string, gap: string)
    requires a != "" && NoSpace(a) && AllFits(Gaps(a, sep), Gaps(a, gap))
    ensures Gaps(a, sep) == [sep] && AllFits([sep], [gap])
  {
    hide IsSpace;
    hide Gaps;
    hide Fits;
    SolidGaps(a, sep);
    SolidGaps(a, gap);
  }

  lemma SolidGaps(a: string, gap: string)
    requires a != "" && NoSpace(a)
    ensures Gaps(a, gap) == [gap]
  {
    hide IsSpace;
    hide Gaps;
    WordsOfSolid(a);
    GapsCount(a, gap);
    GapsOfFirst(a, gap);
  }

  lemma HardCutGaps(t: string, p: nat, gap: string, limit: Limit)
    requires p == limit < |t| && NoSpace(t[..p]) && !IsSpace(t[p])
    ensures |Gaps(t, gap)| == |Words(t)| && |Gaps(t[p..], "")| == |Words(t[p..])|
    ensures PieceGaps(Words(t), Gaps(t, gap), limit) == [gap] + PieceGaps(Words(t[p..]), Gaps(t[p..], ""), limit)
  {
    hide IsSpace;
    hide Words;
    hide Gaps;
    hide PieceGaps;
    hide WordGaps;
    var a, b := t[..p], t[p..];
    assert t == a + b && b[0] == t[p];
    GapsCount(t, gap);
    GapsCount(b, "");
    WordsCutInside(a, b);
    GapsCutInside(a, b, gap);
    GapsOfFirst(b, "");
    var w, ws, gs := Words(b)[0], Words(b)[1..], Gaps(b, "")[1..];
    assert Words(b) == [w] + ws && Gaps(b, "") == [""] + gs;
    WordsAreSolid(b);
    PieceGapsStep(a + w, ws, gap, gs, limit);
    PieceGapsStep(w, ws, "", gs, limit);
    LongWordGaps(a, w, gap, limit);
  }

  lemma LongWordGaps(a: string, w: string, gap: string, limit: Limit)
    requires |a| == limit && w != ""
    ensures WordGaps(|Pieces(a + w, limit)|, gap) == [gap] + WordGaps(|Pieces(w, limit)|, "")
  {
    assert (a + w)[..limit] == a && (a + w)[limit..] == w;
  }

  lemma {:induction false} GapsCutInside(a: string, b: string, gap: string)
    requires a != "" && NoSpace(a) && b != "" && !IsSpace(b[0])
    ensures Gaps(b, "") != [] && Gaps(a + b, gap) == [gap] + Gaps(b, "")[1..]
    decreases |a|
  {
    hide IsSpace;
    hide Gaps;
    GapsOfFirst(b, gap);
    assert a + b == [a[0]] + (a[1..] + b);
    GapsStep(a[0], a[1..] + b, gap);
    if |a| > 1 { GapsCutInside(a[1..], b, gap); } else { assert a[1..] + b == b; }
  }

  // ---- From the sentences to the text ----

  /** The units of the text from `start` on keep its gaps. */
  lemma {:induction false} UnitsKeepGaps(s: string, start: nat, sep: string, gap: string, limit: Limit)
    requires NormalForm(s) && Trimmed(s) && start < |s| && !IsSpace(s[start]) && Fits(sep, gap)
    requires forall u :: u in RunSentences(s, start, sep) ==> SentenceOk(u.text)
    ensures |Gaps(s[start..], gap)| == |Words(s[start..])|
    ensures AllFits(UnitGaps(SplitAll(RunSentences(s, start, sep), limit)),
                    PieceGaps(Words(s[start..]), Gaps(s[start..], gap), limit))
    decreases |s| - start
  {
    hide *;
    var m := NextBreak(s, start);
    var units := RunSentences(s, start, sep);
    GapsCount(s[start..], gap);
    if m.None? {
      LastRunSentence(s, start, sep);
      assert units == [Unit(s[start..], sep)] + [];
      assert units[0] in units;
      FirstSentenceGaps(units[0], [], gap, limit);
      NoUnits(limit);
      var kept := UnitGaps(Parts(Split(units[0].text, limit), sep));
      assert [units[0]] + [] == units && kept + [] == kept;
    } else {
      var (lo, hi) := m.value;
      BreakShape(s, start) by { assert start > 0 ==> !IsSpace(s[start]); }
      FirstRunSentence(s, start, sep);
      var first, rest := Unit(s[start..lo], sep), RunSentences(s, hi, SeparatorFor(s[lo..hi]));
      assert first in units;
      FirstSentenceGaps(first, rest, gap, limit);
      FitsSeparator(s[lo..hi]);
      UnitsKeepGaps(s, hi, SeparatorFor(s[lo..hi]), s[lo..hi], limit);
      BreakGaps(s, start, lo, hi, gap, limit);
      AllFitsConcat(UnitGaps(Parts(Split(first.text, limit), sep)), UnitGaps(SplitAll(rest, limit)),
                    PieceGaps(Words(first.text), Gaps(first.text, gap), limit),
                    PieceGaps(Words(s[hi..]), Gaps(s[hi..], s[lo..hi]), limit));
    }
  }

  lemma LastRunSentence(s: string, start: nat, sep: string)
    requires start <= |s| && NextBreak(s, start).None?
    ensures RunSentences(s, start, sep) == [Unit(s[start..], sep)]
  {
  }

  lemma FirstRunSentence(s: string, start: nat, sep: string)
    requires start <= |s| && NextBreak(s, start).Some?
    ensures var (lo, hi) := NextBreak(s, start).value;
            RunSentences(s, start, sep) == [Unit(s[start..lo], sep)] + RunSentences(s, hi, SeparatorFor(s[lo..hi]))
  {
  }

  lemma NoUnits(limit: Limit)
    ensures UnitGaps(SplitAll([], limit)) == []
  {
  }

  lemma FirstSentenceGaps(u: Unit, rest: seq<Unit>, gap: string, limit: Limit)
    requires SentenceOk(u.text) && Fits(u.separator, gap)
    ensures |Gaps(u.text, gap)| == |Words(u.text)|
    ensures AllFits(UnitGaps(Parts(Split(u.text, limit), u.separator)),
                    PieceGaps(Words(u.text), Gaps(u.text, gap), limit))
    ensures UnitGaps(SplitAll([u] + rest, limit))
         == UnitGaps(Parts(Split(u.text, limit), u.separator)) + UnitGaps(SplitAll(rest, limit))
  {
    hide Split;
    hide Parts;
    hide UnitGaps;
    hide Gaps;
    hide Words;
    hide SentenceOk;
    hide Fits;
    SplitKeepsGaps(u.text, limit, u.separator, gap);
    assert ([u] + rest)[1..] == rest;
    UnitGapsConcat(Parts(Split(u.text, limit), u.separator), SplitAll(rest, limit));
  }

  lemma FitsSeparator(y: string)
    ensures Fits(SeparatorFor(y), y)
  {
  }

  /** A break is a whole run of whitespace between two visible characters. */
  lemma {:induction false} BreakShape(s: string, i: nat)
    requires Trimmed(s) && i < |s| && (i > 0 && IsSpace(s[i]) ==> !IsSpace(s[i - 1])) && NextBreak(s, i).Some?
    requires i == 0 ==> !IsSpace(s[0])
    ensures var (lo, hi) := NextBreak(s, i).value;
            && 0 < lo < hi < |s| && i <= lo && !IsSpace(s[lo - 1]) && !IsSpace(s[hi])
            && (forall k :: lo <= k < hi ==> IsSpace(s[k]))
    decreases |s| - i
  {
    hide IsSpace;
    hide IsBreak;
    if !IsSpace(s[i]) {
      if i + 1 < |s| { BreakShape(s, i + 1); }
    } else {
      var j := RunEnd(s, i, IsSpace);
      assert !IsSpace(s[|s| - 1]);
      assert j < |s|;
      if !IsBreak(s, i, j) { BreakShape(s, j); }
    }
  }

  lemma BreakGaps(s: string, start: nat, lo: nat, hi: nat, gap: string, limit: Limit)
    requires start < lo < hi < |s| && !IsSpace(s[lo - 1]) && forall k :: lo <= k < hi ==> IsSpace(s[k])
    ensures |Gaps(s[start..], gap)| == |Words(s[start..])| && |Gaps(s[start..lo], gap)| == |Words(s[start..lo])|
    ensures |Gaps(s[hi..], s[lo..hi])| == |Words(s[hi..])|
    ensures PieceGaps(Words(s[start..]), Gaps(s[start..], gap), limit)
         == PieceGaps(Words(s[start..lo]), Gaps(s[start..lo], gap), limit)
            + PieceGaps(Words(s[hi..]), Gaps(s[hi..], s[lo..hi]), limit)
  {
    hide IsSpace;
    hide Words;
    hide Gaps;
    hide PieceGaps;
    var a, between, b := s[start..lo], s[lo..hi], s[hi..];
    assert s[start..] == a + (between + b);
    GapsCount(s[start..], gap);
    GapsCount(a, gap);
    GapsCount(b, between);
    GapsJoin(a, between, b, gap);
    assert Words(s[start..]) == Words(a) + Words(b) by {
      WordsConcat(a, between + b);
      assert between + b == between + b + "";
      WordsPadded(between, b, "");
    }
    PieceGapsConcat(Words(a), Words(b), Gaps(a, gap), Gaps(b, between), limit);
  }

  // ---- From the units to the chunks ----

  /** The whitespace before each word of each chunk; before its first word there is none. */
  function ChunkGaps(chunks: seq<string>): seq<string> {
    if chunks == [] then [] else Gaps(chunks[0], "") + ChunkGaps(chunks[1..])
  }

  /** The same gaps, except that a new chunk may begin. */
  predicate Restarted(xs: seq<string>, zs: seq<string>) {
    |xs| == |zs| && forall k :: 0 <= k < |xs| ==> xs[k] == zs[k] || xs[k] == ""
  }

  lemma {:induction false} GreedyGaps(current: string, rest: seq<Unit>, limit: Limit)
    requires current != "" && Trimmed(current)
    requires forall u :: u in rest ==> u.text != "" && Trimmed(u.text) && SeparatorOk(u.separator)
    ensures Restarted(ChunkGaps(Greedy(current, rest, limit)), Gaps(current, "") + UnitGaps(rest))
    decreases |rest|
  {
    hide IsSpace;
    hide Gaps;
    hide Trimmed;
    hide SeparatorOk;
    if rest == [] {
      assert ChunkGaps([current]) == Gaps(current, "") + ChunkGaps([]);
    } else {
      hide Restarted;
      hide ChunkGaps;
      var u := rest[0];
      assert u in rest && forall v :: v in rest[1..] ==> v in rest;
      var candidate := current + u.separator + u.text;
      if |candidate| > limit {
        GreedyGaps(u.text, rest[1..], limit);
        RestartedChunk(current, Greedy(u.text, rest[1..], limit), u, rest[1..]);
        assert Greedy(current, rest, limit) == [current] + Greedy(u.text, rest[1..], limit);
        assert [u] + rest[1..] == rest;
      } else {
        JoinedUnit(current, u, rest[1..]);
        assert [u] + rest[1..] == rest;
        GreedyGaps(candidate, rest[1..], limit);
      }
    }
  }

  /** A new chunk begins with the next unit. */
  lemma RestartedChunk(current: string, others: seq<string>, u: Unit, rest: seq<Unit>)
    requires u.text != "" && Trimmed(u.text) && SeparatorOk(u.separator)
    requires Restarted(ChunkGaps(others), Gaps(u.text, "") + UnitGaps(rest))
    ensures Restarted(ChunkGaps([current] + others), Gaps(current, "") + UnitGaps([u] + rest))
  {
    hide IsSpace;
    hide Gaps;
    assert ([u] + rest)[1..] == rest && ([current] + others)[1..] == others;
    GapsOfFirst(u.text, u.separator);
    GapsOfFirst(u.text, "");
    RestartedTwice(ChunkGaps(others), Gaps(u.text, "") + UnitGaps(rest), UnitGaps([u] + rest));
    RestartedAfter(Gaps(current, ""), ChunkGaps(others), UnitGaps([u] + rest));
  }

  /** The next unit joins the chunk. */
  lemma JoinedUnit(current: string, u: Unit, rest: seq<Unit>)
    requires current != "" && Trimmed(current) && u.text != "" && Trimmed(u.text) && SeparatorOk(u.separator)
    ensures var candidate := current + u.separator + u.text;
            && candidate != "" && Trimmed(candidate)
            && Gaps(candidate, "") + UnitGaps(rest) == Gaps(current, "") + UnitGaps([u] + rest)
  {
    hide IsSpace;
    hide Gaps;
    NamedSpaces();
    var candidate := current + u.separator + u.text;
    assert candidate == current + (u.separator + u.text) && ([u] + rest)[1..] == rest;
    assert candidate[0] == current[0] && candidate[|candidate| - 1] == u.text[|u.text| - 1];
    GapsJoin(current, u.separator, u.text, "");
  }

  lemma RestartedTwice(xs: seq<string>, ys: seq<string>, zs: seq<string>)
    requires Restarted(xs, ys) && Restarted(ys, zs)
    ensures Restarted(xs, zs)
  {
  }

  lemma RestartedAfter(a: seq<string>, xs: seq<string>, zs: seq<string>)
    requires Restarted(xs, zs)
    ensures Restarted(a + xs, a + zs)
  {
  }

  lemma RestartedFits(xs: seq<string>, zs: seq<string>, ys: seq<string>)
    requires Restarted(xs, zs) && AllFits(zs, ys)
    ensures AllFits(xs, ys)
  {
    hide GapKept;
  }

  /** The gaps of the normalized text, with none inside a word that was cut. */
  function TextGaps(raw: string, limit: Limit): seq<string> {
    var s := Normalize(raw);
    GapsCount(s, "");
    PieceGaps(Words(s), Gaps(s, ""), limit)
  }

  predicate KeepsParagraphs(chunks: seq<string>, raw: string, limit: Limit) {
    AllFits(ChunkGaps(chunks), TextGaps(raw, limit))
  }

  lemma ParagraphsAreKept(raw: string, limit: Limit)
    ensures KeepsParagraphs(ChunkText(raw, limit), raw, limit)
  {
    hide IsSpace;
    hide Words;
    hide Gaps;
    hide NormalForm;
    hide Sentences;
    hide RunSentences;
    hide SentenceOk;
    hide Split;
    hide Fits;
    hide PieceGaps;
    var s := Normalize(raw);
    NormalizeNormal(raw);
    GapsCount(s, "");
    SentencesOk(s, 0, "");
    UnitsOfOk(raw, limit);
    var units := UnitsOf(raw, limit);
    if s == "" {
      BlankHasNothing(raw, limit);
    } else {
      ScannerIsRunSplitter(s, 0, "");
      assert s[0..] == s;
      FitsInside("", "");
      UnitsKeepGaps(s, 0, "", "", limit);
      SomeSentence(s, 0, "");
      SplitAllOk(RunSentences(s, 0, ""), limit);
      FromUnits(units, raw, limit);
    }
  }

  lemma SomeSentence(s: string, start: nat, separator: string)
    requires start <= |s|
    ensures RunSentences(s, start, separator) != []
  {
  }

  lemma BlankHasNothing(raw: string, limit: Limit)
    requires Normalize(raw) == ""
    ensures KeepsParagraphs(ChunkText(raw, limit), raw, limit)
  {
    hide Sentences;
    hide IsSpace;
    hide Fits;
    NoChunksIffBlank(raw, limit);
    WordsNormalize(raw);
    WordsEmptyIffBlank("");
    WordsEmptyIffBlank(raw);
    assert ChunkText(raw, limit) == [];
    assert ChunkGaps([]) == [] && PieceGaps([], [], limit) == [];
    NoGaps("");
  }

  lemma FromUnits(units: seq<Unit>, raw: string, limit: Limit)
    requires units == UnitsOf(raw, limit) != [] && UnitsOk(units, limit)
    requires AllFits(UnitGaps(units), TextGaps(raw, limit))
    ensures KeepsParagraphs(ChunkText(raw, limit), raw, limit)
  {
    hide IsSpace;
    hide Gaps;
    hide UnitsOf;
    hide Fits;
    hide SentenceOk;
    hide TextGaps;
    var first, rest := units[0], units[1..];
    assert first in units;
    forall u | u in units ensures u.text != "" && Trimmed(u.text) { SentenceOkBasics(u.text); }
    forall u | u in rest ensures SeparatorOk(u.separator) {
      var k :| 0 <= k < |rest| && rest[k] == u;
      assert units[k + 1] == u;
    }
    GreedyGaps(first.text, rest, limit);
    GapsOfFirst(first.text, first.separator);
    GapsOfFirst(first.text, "");
    var zs := Gaps(first.text, "") + UnitGaps(rest);
    assert UnitGaps(units) == Gaps(first.text, first.separator) + UnitGaps(rest);
    assert AllFits(zs, TextGaps(raw, limit)) by {
      assert forall k :: 0 < k < |zs| ==> zs[k] == UnitGaps(units)[k];
      FitsStart(zs[0], TextGaps(raw, limit)[0]);
    }
    RestartedFits(ChunkGaps(ChunkText(raw, limit)), zs, TextGaps(raw, limit));
  }

  lemma FitsStart(x: string, y: string)
    requires x == ""
    ensures Fits(x, y)
  {
  }

  // ---- Two words in one chunk ----

  /** Between two words there is whitespace. */
  lemma {:induction false} GapsInside(s: string, gap: string)
    ensures forall k :: 0 < k < |Gaps(s, gap)| ==> Gaps(s, gap)[k] != ""
    ensures gap != "" || (s != "" && IsSpace(s[0])) ==> forall k :: 0 <= k < |Gaps(s, gap)| ==> Gaps(s, gap)[k] != ""
    decreases |s|
  {
    hide IsSpace;
    if s != "" {
      GapsInside(s[1..], gap + [s[0]]);
      GapsInside(s[1..], gap);
      GapsInside(s[1..], "");
    }
  }

  /** Only a piece that goes on with a cut word has no gap before it; the piece before is full. */
  lemma {:induction false} EmptyGapFollowsFull(ws: seq<string>, gaps: seq<string>, limit: Limit, g: nat)
    requires |ws| == |gaps| && (forall k :: 0 < k < |gaps| ==> gaps[k] != "")
    requires 0 < g < |PieceGaps(ws, gaps, limit)| && PieceGaps(ws, gaps, limit)[g] == ""
    ensures |PieceGaps(ws, gaps, limit)| == |FlatPieces(ws, limit)| && |FlatPieces(ws, limit)[g - 1]| == limit
  {
    PieceGapsCount(ws, gaps, limit);
    var n := |Pieces(ws[0], limit)|;
    assert |WordGaps(n, gaps[0])| == n;
    if g < n {
      FullButLast(ws[0], limit, g - 1);
    } else if g == n {
      FirstPieceGap(ws[1..], gaps[1..], limit);
    } else {
      EmptyGapFollowsFull(ws[1..], gaps[1..], limit, g - n);
    }
  }

  lemma {:induction false} PieceGapsCount(ws: seq<string>, gaps: seq<string>, limit: Limit)
    requires |ws| == |gaps|
    ensures |PieceGaps(ws, gaps, limit)| == |FlatPieces(ws, limit)|
  {
    if ws != [] { PieceGapsCount(ws[1..], gaps[1..], limit); }
  }

  lemma FirstPieceGap(ws: seq<string>, gaps: seq<string>, limit: Limit)
    requires |ws| == |gaps| > 0
    ensures PieceGaps(ws, gaps, limit) != [] && PieceGaps(ws, gaps, limit)[0] == gaps[0]
  {
    assert |Pieces(ws[0], limit)| > 0;
  }

  lemma {:induction false} FullButLast(w: string, limit: Limit, k: nat)
    requires k + 1 < |Pieces(w, limit)|
    ensures |Pieces(w, limit)[k]| == limit
    decreases |w|
  {
    if k > 0 { FullButLast(w[limit..], limit, k - 1); }
  }

  lemma {:induction false} WordOfChunk(chunks: seq<string>, i: nat, k: nat)
    requires i < |chunks| && k < |Words(chunks[i])|
    ensures |FlatWords(chunks[..i])| + k < |FlatWords(chunks)|
    ensures FlatWords(chunks)[|FlatWords(chunks[..i])| + k] == Words(chunks[i])[k]
    ensures |ChunkGaps(chunks)| == |FlatWords(chunks)| && |Gaps(chunks[i], "")| == |Words(chunks[i])|
    ensures ChunkGaps(chunks)[|FlatWords(chunks[..i])| + k] == Gaps(chunks[i], "")[k]
    decreases i
  {
    hide Words;
    hide Gaps;
    ChunkGapsCount(chunks);
    GapsCount(chunks[0], "");
    if i > 0 {
      WordOfChunk(chunks[1..], i - 1, k);
      assert chunks[..i][1..] == chunks[1..][..i - 1];
    }
  }

  lemma {:induction false} ChunkGapsCount(chunks: seq<string>)
    ensures |ChunkGaps(chunks)| == |FlatWords(chunks)|
  {
    hide Words;
    hide Gaps;
    if chunks != [] {
      GapsCount(chunks[0], "");
      ChunkGapsCount(chunks[1..]);
    }
  }

  /** Two words that follow each other in one chunk follow each other in the text, and the whitespace
      between them in the chunk holds two line feeds exactly when it does in the normalized text. */
  lemma BlankLinesAreKept(raw: string, limit: Limit, i: nat, k: nat)
    requires i < |ChunkText(raw, limit)| && 0 < k < |Words(ChunkText(raw, limit)[i])|
    ensures var chunks := ChunkText(raw, limit);
            var g := |FlatWords(chunks[..i])| + k;
            && g < |TextGaps(raw, limit)| == |FlatPieces(Words(raw), limit)|
            && FlatPieces(Words(raw), limit)[g - 1] == Words(chunks[i])[k - 1]
            && FlatPieces(Words(raw), limit)[g] == Words(chunks[i])[k]
            && |Gaps(chunks[i], "")| == |Words(chunks[i])| && TextGaps(raw, limit)[g] != ""
            && (CountNewlines(Gaps(chunks[i], "")[k]) >= 2 <==> CountNewlines(TextGaps(raw, limit)[g]) >= 2)
  {
    hide IsSpace;
    hide Words;
    hide Gaps;
    hide ChunkText;
    hide FlatPieces;
    hide FlatWords;
    hide PieceGaps;
    hide ChunkGaps;
    var chunks := ChunkText(raw, limit);
    var g := |FlatWords(chunks[..i])| + k;
    ParagraphsAreKept(raw, limit);
    ChunksHoldTheWords(raw, limit);
    WordOfChunk(chunks, i, k);
    WordOfChunk(chunks, i, k - 1);
    GapsInside(chunks[i], "");
    if TextGaps(raw, limit)[g] == "" { NotInsideAWord(raw, limit, chunks[i], g, k); }
    NewlinesOf(Gaps(chunks[i], "")[k], TextGaps(raw, limit)[g]);
  }

  lemma NotInsideAWord(raw: string, limit: Limit, c: string, g: nat, k: nat)
    requires c in ChunkText(raw, limit) && 0 < k < |Words(c)| && 0 < g < |TextGaps(raw, limit)|
    requires g - 1 < |FlatPieces(Words(raw), limit)| && FlatPieces(Words(raw), limit)[g - 1] == Words(c)[k - 1]
    ensures TextGaps(raw, limit)[g] != ""
  {
    hide IsSpace;
    hide Words;
    hide Gaps;
    hide ChunkText;
    if TextGaps(raw, limit)[g] == "" {
      var s := Normalize(raw);
      WordsNormalize(raw);
      GapsCount(s, "");
      GapsInside(s, "");
      EmptyGapFollowsFull(Words(s), Gaps(s, ""), limit, g);
      ChunksAreBounded(raw, limit, c);
      assert Words(c)[k - 1] in Words(c);
      FullWordIsChunk(c, Words(c)[k - 1], limit);
    }
  }

  lemma NewlinesOf(x: string, y: string)
    requires Fits(x, y) && x != "" && y != ""
    ensures CountNewlines(x) >= 2 <==> CountNewlines(y) >= 2
  {
    assert "\n\n"[1..] == "\n" && "\n"[1..] == "" && " "[1..] == "";
    assert CountNewlines("\n\n") == 2 && CountNewlines(" ") == 0;
  }
}
