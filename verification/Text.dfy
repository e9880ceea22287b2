/** The string operations the services rely on, with whitespace as one predicate:
    `str.isspace`, `str.strip` and the regular expression class `\s` agree on it. */
module Text {

  predicate IsSpace(c: char) {
    || '\t' <= c <= '\r'
    || '\U{1C}' <= c <= ' '
    || c == '\U{85}' || c == '\U{A0}' || c == '\U{1680}'
    || '\U{2000}' <= c <= '\U{200A}'
    || c == '\U{2028}' || c == '\U{2029}' || c == '\U{202F}' || c == '\U{205F}' || c == '\U{3000}'
  }

  /** The whitespace characters one by one: the controls from tab to carriage return and the four
      information separators, space, next line, the no-break spaces and the wide spaces. */
  lemma SpacesAre(c: char)
    ensures IsSpace(c) <==> c in "\t\n\U{B}\U{C}\r\U{1C}\U{1D}\U{1E}\U{1F} \U{85}\U{A0}\U{1680}"
                                + "\U{2000}\U{2001}\U{2002}\U{2003}\U{2004}\U{2005}\U{2006}\U{2007}\U{2008}\U{2009}"
                                + "\U{200A}\U{2028}\U{2029}\U{202F}\U{205F}\U{3000}"
  {
  }

  predicate AllSpace(s: string) {
    forall i :: 0 <= i < |s| ==> IsSpace(s[i])
  }

  predicate NoSpace(s: string) {
    forall i :: 0 <= i < |s| ==> !IsSpace(s[i])
  }

  predicate Trimmed(s: string) {
    s == "" || (!IsSpace(s[0]) && !IsSpace(s[|s| - 1]))
  }

  function LStrip(s: string): (r: string)
    ensures |r| <= |s| && (r == "" || !IsSpace(r[0]))
  {
    if s == "" || !IsSpace(s[0]) then s else LStrip(s[1..])
  }

  function RStrip(s: string): (r: string)
    ensures |r| <= |s| && (r == "" || !IsSpace(r[|r| - 1]))
  {
    if s == "" || !IsSpace(s[|s| - 1]) then s else RStrip(s[..|s| - 1])
  }

  lemma {:induction false} LStripIs(s: string) returns (k: nat)
    ensures k <= |s| && LStrip(s) == s[k..] && forall i :: 0 <= i < k ==> IsSpace(s[i])
  {
    hide IsSpace;
    k := 0;
    if s != "" && IsSpace(s[0]) {
      var n := LStripIs(s[1..]);
      k := n + 1;
      assert forall i :: 1 <= i < k ==> s[i] == s[1..][i - 1];
    }
  }

  lemma {:induction false} RStripIs(s: string) returns (k: nat)
    ensures k <= |s| && RStrip(s) == s[..k] && forall i :: k <= i < |s| ==> IsSpace(s[i])
  {
    hide IsSpace;
    k := |s|;
    if s != "" && IsSpace(s[|s| - 1]) {
      k := RStripIs(s[..|s| - 1]);
      assert forall i :: k <= i < |s| - 1 ==> s[i] == s[..|s| - 1][i];
      assert s[..|s| - 1][..k] == s[..k];
    }
  }

  function Strip(s: string): string {
    RStrip(LStrip(s))
  }

  /** What `Strip` removes is whitespace, and all of it at both ends. */
  lemma StripLocates(s: string) returns (lo: nat, hi: nat)
    ensures lo <= hi <= |s| && Strip(s) == s[lo..hi]
    ensures forall i :: 0 <= i < lo || hi <= i < |s| ==> IsSpace(s[i])
    ensures Trimmed(Strip(s))
  {
    hide IsSpace;
    hide LStrip;
    hide RStrip;
    var t := LStrip(s);
    lo := LStripIs(s);
    var k := RStripIs(t);
    hi := lo + k;
    assert s[lo..][..k] == s[lo..hi];
    assert forall i :: hi <= i < |s| ==> s[i] == t[i - lo];
    if k > 0 { assert t[..k][0] == t[0]; }
  }

  /** Stripping is determined by where the first and last visible characters are. */
  lemma StripIs(s: string, lo: nat, hi: nat)
    requires lo <= hi <= |s| && Trimmed(s[lo..hi])
    requires forall i :: 0 <= i < lo || hi <= i < |s| ==> IsSpace(s[i])
    ensures Strip(s) == s[lo..hi]
  {
    hide IsSpace;
    hide Strip;
    var l, h := StripLocates(s);
    assert l < h ==> s[l..h][0] == s[l] && s[l..h][h - l - 1] == s[h - 1];
    assert lo < hi ==> s[lo..hi][0] == s[lo] && s[lo..hi][hi - lo - 1] == s[hi - 1];
  }

  /** Membership of the characters the code names. */
  lemma NamedSpaces()
    ensures IsSpace('\r') && IsSpace('\n') && IsSpace(' ')
  {
  }

  lemma SliceOfSlice(s: string, lo: nat, hi: nat, a: nat, b: nat)
    requires lo <= hi <= |s| && a <= b <= hi - lo
    ensures s[lo..hi][a..b] == s[lo + a..lo + b]
  {
    assert forall i :: 0 <= i < b - a ==> s[lo..hi][a..b][i] == s[lo + a + i];
  }

  // ---- Words ----

  /** The maximal runs of visible characters of `s`, in order. */
  function Words(s: string): (ws: seq<string>)
    ensures s != "" && !IsSpace(s[0]) ==> ws != []
  {
    if s == "" then []
    else if IsSpace(s[0]) then Words(s[1..])
    else if |s| > 1 && !IsSpace(s[1]) then
      var rest := Words(s[1..]);
      [[s[0]] + rest[0]] + rest[1..]
    else [[s[0]]] + Words(s[1..])
  }

  lemma {:induction false} WordsAreSolid(s: string)
    ensures forall w :: w in Words(s) ==> w != "" && NoSpace(w) && |w| <= |s|
  {
    hide IsSpace;
    if s != "" { WordsAreSolid(s[1..]); }
  }

  lemma {:induction false} WordsEmptyIffBlank(s: string)
    ensures Words(s) == [] <==> AllSpace(s)
  {
    hide IsSpace;
    if s != "" {
      WordsEmptyIffBlank(s[1..]);
      assert s == [s[0]] + s[1..];
    }
  }

  lemma {:induction false} WordsOfSolid(s: string)
    requires s != "" && NoSpace(s)
    ensures Words(s) == [s]
  {
    hide IsSpace;
    if |s| > 1 {
      WordsOfSolid(s[1..]);
      assert s == [s[0]] + s[1..];
      WordsStep(s[0], s[1..]);
    } else {
      assert s[1..] == "" && s == [s[0]];
    }
  }

  /** A place where text can be cut without cutting a word. */
  predicate Separated(a: string, b: string) {
    a == "" || b == "" || IsSpace(a[|a| - 1]) || IsSpace(b[0])
  }

  lemma {:induction false} WordsConcat(a: string, b: string)
    requires Separated(a, b)
    ensures Words(a + b) == Words(a) + Words(b)
  {
    hide IsSpace;
    hide Words;
    if a == "" {
      assert a + b == b && Words("") == [] by { WordsEmptyIffBlank(""); }
    } else {
      assert a == [a[0]] + a[1..] && a + b == [a[0]] + (a[1..] + b);
      WordsConcat(a[1..], b);
      WordsStep(a[0], a[1..]);
      WordsStep(a[0], a[1..] + b);
    }
  }

  lemma WordsStep(c: char, t: string)
    ensures Words([c] + t) == if IsSpace(c) then Words(t)
                              else if t != "" && !IsSpace(t[0]) then [[c] + Words(t)[0]] + Words(t)[1..]
                              else [[c]] + Words(t)
  {
    hide IsSpace;
    assert ([c] + t)[1..] == t;
  }

  /** Cutting inside a word splits exactly that word. */
  lemma {:induction false} WordsCutInside(p: string, q: string)
    requires p != "" && NoSpace(p) && q != "" && !IsSpace(q[0])
    ensures Words(p + q) == [p + Words(q)[0]] + Words(q)[1..]
  {
    hide IsSpace;
    hide Words;
    var t := p[1..] + q;
    assert p + q == [p[0]] + t;
    WordsStep(p[0], t);
    if |p| == 1 {
      assert t == q && p == [p[0]];
    } else {
      WordsCutInside(p[1..], q);
      assert [p[0]] + (p[1..] + Words(q)[0]) == p + Words(q)[0];
    }
  }

  lemma {:induction false} WordsPadded(pre: string, s: string, post: string)
    requires AllSpace(pre) && AllSpace(post)
    ensures Words(pre + s + post) == Words(s)
  {
    hide IsSpace;
    WordsEmptyIffBlank(pre);
    WordsEmptyIffBlank(post);
    WordsConcat(pre, s);
    WordsConcat(pre + s, post);
  }

  lemma WordsStrip(s: string)
    ensures Words(Strip(s)) == Words(s)
  {
    hide IsSpace;
    hide Strip;
    hide Words;
    var lo, hi := StripLocates(s);
    assert s == s[..lo] + s[lo..hi] + s[hi..];
    WordsPadded(s[..lo], s[lo..hi], s[hi..]);
  }

  // ---- Normalization ----

  function ReplaceCrLf(s: string): (r: string)
    ensures r == "" <==> s == ""
    ensures s != "" ==> (IsSpace(r[0]) <==> IsSpace(s[0]))
  {
    if s == "" then ""
    else if |s| > 1 && s[0] == '\r' && s[1] == '\n' then "\n" + ReplaceCrLf(s[2..])
    else [s[0]] + ReplaceCrLf(s[1..])
  }

  function ReplaceCr(s: string): (r: string)
    ensures r == "" <==> s == ""
    ensures s != "" ==> (IsSpace(r[0]) <==> IsSpace(s[0]))
  {
    if s == "" then ""
    else [if s[0] == '\r' then '\n' else s[0]] + ReplaceCr(s[1..])
  }

  /** Whitespace other than a line feed: the class `[^\S\n]`. */
  predicate IsBlank(c: char) {
    IsSpace(c) && c != '\n'
  }

  /** Every run of blanks becomes one space. */
  function CollapseBlanks(s: string): (r: string)
    ensures r == "" <==> s == ""
    ensures s != "" ==> (IsSpace(r[0]) <==> IsSpace(s[0]))
    ensures s != "" ==> (IsBlank(r[0]) <==> IsBlank(s[0]))
  {
    if s == "" then ""
    else if IsBlank(s[0]) then
      if |s| > 1 && IsBlank(s[1]) then CollapseBlanks(s[1..]) else " " + CollapseBlanks(s[1..])
    else [s[0]] + CollapseBlanks(s[1..])
  }

  function Normalize(raw: string): string {
    CollapseBlanks(Strip(ReplaceCr(ReplaceCrLf(raw))))
  }

  lemma {:induction false} WordsReplaceCrLf(s: string)
    ensures Words(ReplaceCrLf(s)) == Words(s)
  {
    hide IsSpace;
    NamedSpaces();
    if s == "" {
    } else if |s| > 1 && s[0] == '\r' && s[1] == '\n' {
      WordsReplaceCrLf(s[2..]);
      assert ReplaceCrLf(s)[1..] == ReplaceCrLf(s[2..]);
      assert s[1..][1..] == s[2..];
      assert Words(s[1..]) == Words(s[2..]);
    } else {
      WordsReplaceCrLf(s[1..]);
      assert ReplaceCrLf(s)[1..] == ReplaceCrLf(s[1..]);
    }
  }

  lemma {:induction false} WordsReplaceCr(s: string)
    ensures Words(ReplaceCr(s)) == Words(s)
  {
    hide IsSpace;
    NamedSpaces();
    if s != "" {
      WordsReplaceCr(s[1..]);
      assert ReplaceCr(s)[1..] == ReplaceCr(s[1..]);
    }
  }

  lemma {:induction false} WordsCollapseBlanks(s: string)
    ensures Words(CollapseBlanks(s)) == Words(s)
  {
    hide IsSpace;
    if s != "" {
      WordsCollapseBlanks(s[1..]);
      if !(IsBlank(s[0]) && |s| > 1 && IsBlank(s[1])) {
        assert CollapseBlanks(s)[1..] == CollapseBlanks(s[1..]);
      }
    }
  }

  lemma WordsNormalize(raw: string)
    ensures Words(Normalize(raw)) == Words(raw)
  {
    hide IsSpace;
    WordsReplaceCrLf(raw);
    WordsReplaceCr(ReplaceCrLf(raw));
    WordsStrip(ReplaceCr(ReplaceCrLf(raw)));
    WordsCollapseBlanks(Strip(ReplaceCr(ReplaceCrLf(raw))));
  }

  /** Only single spaces and line feeds are left as whitespace. */
  predicate NormalForm(s: string) {
    && (forall i :: 0 <= i < |s| && IsSpace(s[i]) ==> s[i] == ' ' || s[i] == '\n')
    && (forall i :: 0 < i < |s| && s[i] == ' ' ==> s[i - 1] != ' ')
  }

  lemma {:induction false} NormalFormPrepend(c: char, t: string)
    requires NormalForm(t) && (IsSpace(c) ==> c == '\n' || (c == ' ' && (t == "" || !IsBlank(t[0]))))
    ensures NormalForm([c] + t)
  {
    hide IsSpace;
    NamedSpaces();
    var s := [c] + t;
    assert forall i :: 0 < i < |s| ==> s[i] == t[i - 1];
    assert |s| > 1 ==> s[1] == t[0];
  }

  lemma {:induction false} CollapseBlanksNormal(s: string)
    ensures NormalForm(CollapseBlanks(s))
  {
    hide IsSpace;
    if s != "" {
      CollapseBlanksNormal(s[1..]);
      var t := CollapseBlanks(s[1..]);
      if !IsBlank(s[0]) {
        NormalFormPrepend(s[0], t);
      } else if |s| == 1 || !IsBlank(s[1]) {
        NormalFormPrepend(' ', t);
      }
    }
  }

  lemma {:induction false} CollapseBlanksEnd(s: string)
    requires s != "" && !IsSpace(s[|s| - 1])
    ensures !IsSpace(CollapseBlanks(s)[|CollapseBlanks(s)| - 1])
  {
    hide IsSpace;
    if |s| > 1 {
      CollapseBlanksEnd(s[1..]);
    } else {
      assert s[1..] == "";
    }
  }

  lemma NormalizeNormal(raw: string)
    ensures NormalForm(Normalize(raw)) && Trimmed(Normalize(raw))
  {
    hide IsSpace;
    hide Strip;
    hide CollapseBlanks;
    var t := Strip(ReplaceCr(ReplaceCrLf(raw)));
    var _, _ := StripLocates(ReplaceCr(ReplaceCrLf(raw)));
    CollapseBlanksNormal(t);
    if t != "" { CollapseBlanksEnd(t); }
  }

  lemma {:induction false} ReplacementsKeepNormalForm(s: string)
    requires NormalForm(s)
    ensures ReplaceCrLf(s) == s && ReplaceCr(s) == s && CollapseBlanks(s) == s
  {
    hide IsSpace;
    NamedSpaces();
    if s != "" {
      assert NormalForm(s[1..]) by {
        assert forall i :: 0 <= i < |s| - 1 ==> s[1..][i] == s[i + 1];
      }
      ReplacementsKeepNormalForm(s[1..]);
      assert s == [s[0]] + s[1..];
    }
  }

  lemma NormalizeKeepsNormalForm(s: string)
    requires NormalForm(s) && Trimmed(s)
    ensures Normalize(s) == s
  {
    hide IsSpace;
    ReplacementsKeepNormalForm(s);
    StripIs(s, 0, |s|);
  }
}
