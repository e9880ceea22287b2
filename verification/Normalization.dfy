/** What normalization does to a text, described without the replacements that do it. */
module Normalization {
  import opened Text

  // ---- Line ends ----

  /** The lines of a text whose lines end with CR LF, a lone CR or a lone LF. */
  function UniversalLines(s: string): (lines: seq<string>)
    ensures lines != []
  {
    if s == "" then [""]
    else if |s| > 1 && s[0] == '\r' && s[1] == '\n' then [""] + UniversalLines(s[2..])
    else if s[0] == '\r' || s[0] == '\n' then [""] + UniversalLines(s[1..])
    else
      var rest := UniversalLines(s[1..]);
      [[s[0]] + rest[0]] + rest[1..]
  }

  function JoinLines(lines: seq<string>): string
    requires lines != []
  {
    if |lines| == 1 then lines[0] else lines[0] + "\n" + JoinLines(lines[1..])
  }

  lemma JoinAfter(lines: seq<string>)
    requires lines != []
    ensures JoinLines([""] + lines) == "\n" + JoinLines(lines)
  {
    assert ([""] + lines)[1..] == lines;
    assert "" + "\n" == "\n";
  }

  lemma JoinInto(c: char, lines: seq<string>)
    requires lines != []
    ensures JoinLines([[c] + lines[0]] + lines[1..]) == [c] + JoinLines(lines)
  {
    var longer := [[c] + lines[0]] + lines[1..];
    if |lines| > 1 {
      assert longer[1..] == lines[1..];
      assert ([c] + lines[0]) + "\n" + JoinLines(lines[1..]) == [c] + (lines[0] + "\n" + JoinLines(lines[1..]));
    }
  }

  /** The two replacements keep every line and end each with one line feed. */
  lemma {:induction false} LineEndsAreNormalized(s: string)
    ensures ReplaceCr(ReplaceCrLf(s)) == JoinLines(UniversalLines(s))
    decreases |s|
  {
    hide IsSpace;
    if s == "" {
    } else if |s| > 1 && s[0] == '\r' && s[1] == '\n' {
      LineEndsAreNormalized(s[2..]);
      JoinAfter(UniversalLines(s[2..]));
      ReplaceCrStep('\n', ReplaceCrLf(s[2..]));
    } else {
      LineEndsAreNormalized(s[1..]);
      ReplaceCrStep(s[0], ReplaceCrLf(s[1..]));
      if s[0] == '\r' || s[0] == '\n' { JoinAfter(UniversalLines(s[1..])); }
      else { JoinInto(s[0], UniversalLines(s[1..])); }
    }
  }

  lemma ReplaceCrStep(c: char, t: string)
    ensures ReplaceCr([c] + t) == [if c == '\r' then '\n' else c] + ReplaceCr(t)
  {
    assert ([c] + t)[1..] == t;
  }

  // ---- Blanks ----

  /** The characters other than blanks, each with whether a blank stands before it. */
  function Marks(s: string, gap: bool): seq<(char, bool)> {
    if s == "" then []
    else if IsBlank(s[0]) then Marks(s[1..], true)
    else [(s[0], gap)] + Marks(s[1..], false)
  }

  predicate EndsBlank(s: string) {
    s != "" && IsBlank(s[|s| - 1])
  }

  lemma {:induction false} CollapseBlanksKeepsMarks(s: string, gap: bool)
    ensures Marks(CollapseBlanks(s), gap) == Marks(s, gap)
    ensures EndsBlank(CollapseBlanks(s)) <==> EndsBlank(s)
  {
    hide IsSpace;
    NamedSpaces();
    if s != "" {
      var t := CollapseBlanks(s[1..]);
      CollapseBlanksKeepsMarks(s[1..], IsBlank(s[0]));
      if IsBlank(s[0]) && |s| > 1 && IsBlank(s[1]) {
        assert Marks(t, gap) == Marks(t, true) && Marks(s, gap) == Marks(s[1..], true);
      } else {
        assert CollapseBlanks(s)[1..] == t;
      }
    }
  }

  lemma NormalFormRest(s: string)
    requires NormalForm(s) && s != ""
    ensures NormalForm(s[1..])
    ensures IsBlank(s[0]) ==> s[0] == ' ' && (s[1..] == "" || !IsBlank(s[1]))
  {
    hide IsSpace;
    assert forall i :: 0 <= i < |s| - 1 ==> s[1..][i] == s[i + 1];
  }

  lemma {:induction false} NothingButBlanks(s: string, gap: bool)
    requires NormalForm(s)
    ensures Marks(s, gap) == [] ==> s == "" || s == " "
  {
    hide IsSpace;
    if s != "" {
      NormalFormRest(s);
      if IsBlank(s[0]) { NothingButBlanks(s[1..], true); }
    }
  }

  /** Normalized texts with the same marks and the same kind of end are the same. */
  lemma {:induction false} MarksDetermine(a: string, b: string, gap: bool)
    requires NormalForm(a) && NormalForm(b) && Marks(a, gap) == Marks(b, gap) && (EndsBlank(a) <==> EndsBlank(b))
    requires gap ==> (a == "" || !IsBlank(a[0])) && (b == "" || !IsBlank(b[0]))
    ensures a == b
    decreases |a| + |b|
  {
    hide IsSpace;
    if Marks(a, gap) == [] {
      NothingButBlanks(a, gap);
      NothingButBlanks(b, gap);
    } else {
      FirstMark(a, gap);
      FirstMark(b, gap);
      assert IsBlank(a[0]) <==> IsBlank(b[0]);
      NormalFormRest(a);
      NormalFormRest(b);
      EndsBlankRest(a);
      EndsBlankRest(b);
      MarksDetermine(a[1..], b[1..], IsBlank(a[0]));
      assert a == [a[0]] + a[1..] && b == [b[0]] + b[1..];
    }
  }

  lemma FirstMark(s: string, gap: bool)
    requires NormalForm(s) && Marks(s, gap) != []
    ensures s != ""
    ensures IsBlank(s[0]) ==> |s| > 1 && Marks(s, gap)[0] == (s[1], true) && Marks(s, gap) == Marks(s[1..], true)
    ensures !IsBlank(s[0]) ==> Marks(s, gap)[0] == (s[0], gap) && Marks(s, gap)[1..] == Marks(s[1..], false)
  {
    hide IsSpace;
    NormalFormRest(s);
    if IsBlank(s[0]) {
      assert s[1..] != "";
      assert s[1..][0] == s[1];
    }
  }

  lemma EndsBlankRest(s: string)
    requires s != ""
    ensures EndsBlank(s) <==> if |s| == 1 then IsBlank(s[0]) else EndsBlank(s[1..])
  {
    hide IsSpace;
    if |s| > 1 { assert s[1..][|s| - 2] == s[|s| - 1]; }
  }

  /** Collapsing blanks gives the one text with single spaces only that has the same other characters,
      with blanks at the same places. */
  lemma CollapseBlanksIsTheOne(s: string, t: string)
    requires NormalForm(t) && Marks(t, false) == Marks(s, false) && (EndsBlank(t) <==> EndsBlank(s))
    ensures t == CollapseBlanks(s)
  {
    hide IsSpace;
    hide CollapseBlanks;
    CollapseBlanksKeepsMarks(s, false);
    CollapseBlanksNormal(s);
    MarksDetermine(CollapseBlanks(s), t, false);
  }
}
