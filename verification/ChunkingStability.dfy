/** Chunking a chunk again, with the same limit, gives back exactly that chunk. */
module ChunkingStability {
  import opened Text
  import opened SentenceScanner
  import opened Chunking
  import opened ChunkingProperties

  /** Whatever the scanner finds at `i` equals the separator it is replaced by, and stands between
      two visible characters. */
  predicate FaithfulAt(c: string, i: nat)
    requires i < |c|
  {
    MatchAt(c, i).Some? ==>
      var j := MatchAt(c, i).value;
      && 0 < i < j < |c| && !IsSpace(c[i - 1]) && !IsSpace(c[j])
      && SeparatorFor(c[i..j]) == c[i..j]
  }

  predicate Faithful(c: string) {
    forall i :: 0 <= i < |c| ==> FaithfulAt(c, i)
  }

  // ---- Joining a unit keeps a chunk faithful ----

  lemma RunEndBefore(a: string, b: string, i: nat, p: char -> bool)
    requires i < |a| && !p(a[|a| - 1])
    ensures RunEnd(a + b, i, p) == RunEnd(a, i, p) < |a|
  {
    var j := RunEnd(a, i, p);
    RunEndIs(a + b, i, j, p);
  }

  /** A match that begins before a visible character is decided before it. */
  lemma MatchBefore(a: string, b: string, i: nat)
    requires i < |a| && !IsSpace(a[|a| - 1])
    ensures MatchAt(a + b, i) == MatchAt(a, i)
    ensures MatchAt(a, i).Some? ==> MatchAt(a, i).value < |a|
  {
    hide IsSpace;
    hide RunEnd;
    NamedSpaces();
    TabsAreSpace();
    RunEndBefore(a, b, i, IsSpace);
    if a[i] == '\n' {
      RunEndBefore(a, b, i + 1, IsTabOrSpace);
      var k := RunEnd(a, i + 1, IsTabOrSpace);
      RunEndBefore(a, b, k, IsNewline);
    }
  }

  lemma TabsAreSpace()
    ensures forall c :: IsTabOrSpace(c) || IsNewline(c) ==> IsSpace(c)
  {
  }

  lemma FaithfulBefore(a: string, b: string, i: nat)
    requires i < |a| && !IsSpace(a[|a| - 1]) && FaithfulAt(a, i)
    ensures FaithfulAt(a + b, i)
  {
    hide IsSpace;
    hide MatchAt;
    MatchBefore(a, b, i);
    if MatchAt(a, i).Some? {
      var j := MatchAt(a, i).value;
      assert (a + b)[i..j] == a[i..j];
    }
  }

  lemma FaithfulSeparator(a: string, separator: string, p: string, i: nat)
    requires a != "" && !IsSpace(a[|a| - 1]) && p != "" && !IsSpace(p[0])
    requires SeparatorOk(separator) && |a| <= i < |a| + |separator|
    ensures FaithfulAt(a + separator + p, i)
  {
    hide IsSpace;
    hide RunEnd;
    NamedSpaces();
    TabsAreSpace();
    var s := a + separator + p;
    var e := |a| + |separator|;
    assert s[e] == p[0] && s[|a| - 1] == a[|a| - 1];
    RunEndIs(s, |a|, e, IsSpace);
    RunEndIs(s, e - 1, e, IsNewlineOr(separator));
    if separator == "\n\n" {
      assert s[|a|..e] == "\n\n";
      RunEndIs(s, |a| + 1, |a| + 1, IsTabOrSpace);
      RunEndIs(s, e, e, IsTabOrSpace);
      RunEndIs(s, |a| + 1, e, IsNewline);
      SeparatorIsItsOwn(separator);
    } else {
      assert s[|a|..e] == " ";
      SeparatorIsItsOwn(separator);
    }
  }

  function IsNewlineOr(separator: string): char -> bool {
    c => c in separator
  }

  lemma SeparatorIsItsOwn(separator: string)
    requires SeparatorOk(separator)
    ensures SeparatorFor(separator) == separator
  {
    assert CountNewlines(" ") == CountNewlines(" "[1..]) == 0;
    assert "\n\n"[1..] == "\n" && "\n"[1..] == "";
    assert CountNewlines("\n\n") == 1 + CountNewlines("\n") == 2;
  }

  /** The last unit brings no boundary of its own: the two characters a lookbehind can see are in
      the unit, or one of them is whitespace of the separator. */
  lemma MatchInSuffix(front: string, p: string, i: nat)
    requires front != "" && IsSpace(front[|front| - 1]) && p != "" && Trimmed(p) && i < |p|
    requires MatchAt(front + p, |front| + i).Some?
    ensures MatchAt(p, i).Some?
  {
    hide IsSpace;
    hide ParagraphMatch;
    var s := front + p;
    SpaceEndsNothing(front[|front| - 1]);
    MatchIsSpace(s, |front| + i);
    assert s[|front| + i] == p[i] && i > 0;
    assert s[|front| + i - 1] == p[i - 1];
    if ParagraphMatch(s, |front| + i).Some? {
      ParagraphInSuffix(front, p, i);
    } else if i >= 2 {
      assert s[|front| + i - 2] == p[i - 2];
    } else {
      assert s[|front| + i - 2] == front[|front| - 1];
    }
  }

  lemma FaithfulInUnit(front: string, p: string, i: nat)
    requires front != "" && IsSpace(front[|front| - 1])
    requires p != "" && Trimmed(p) && Quiet(p) && i < |p|
    ensures MatchAt(front + p, |front| + i).None?
  {
    hide IsSpace;
    hide MatchAt;
    if MatchAt(front + p, |front| + i).Some? { MatchInSuffix(front, p, i); }
  }

  lemma SpaceEndsNothing(c: char)
    requires IsSpace(c)
    ensures !EndsSentence(c)
  {
  }

  lemma ParagraphInSuffix(front: string, p: string, i: nat)
    requires i < |p| && ParagraphMatch(front + p, |front| + i).Some?
    ensures ParagraphMatch(p, i).Some?
  {
    var s := front + p;
    var k := RunEnd(s, |front| + i + 1, IsTabOrSpace);
    assert forall n :: i + 1 <= n < k - |front| ==> p[n] == s[|front| + n];
    RunEndIs(p, i + 1, k - |front|, IsTabOrSpace);
  }

  lemma AppendUnit(c: string, separator: string, p: string)
    requires c != "" && Trimmed(c) && NormalForm(c) && Faithful(c) && SeparatorOk(separator) && SentenceOk(p)
    ensures NormalForm(c + separator + p) && Trimmed(c + separator + p) && Faithful(c + separator + p)
  {
    hide IsSpace;
    hide MatchAt;
    hide NormalForm;
    hide FaithfulAt;
    hide Quiet;
    NamedSpaces();
    var s := c + separator + p;
    AppendNormalForm(c, separator, p);
    forall i | 0 <= i < |s| ensures FaithfulAt(s, i) {
      if i < |c| {
        FaithfulBefore(c, separator + p, i);
        assert s == c + (separator + p);
      } else if i < |c| + |separator| {
        FaithfulSeparator(c, separator, p, i);
      } else {
        FaithfulInUnit(c + separator, p, i - |c| - |separator|);
        NoMatchIsFaithful(s, i);
      }
    }
  }

  lemma NoMatchIsFaithful(s: string, i: nat)
    requires i < |s| && MatchAt(s, i).None?
    ensures FaithfulAt(s, i)
  {
  }

  lemma AppendNormalForm(c: string, separator: string, p: string)
    requires c != "" && Trimmed(c) && NormalForm(c) && SeparatorOk(separator) && p != "" && Trimmed(p) && NormalForm(p)
    ensures NormalForm(c + separator + p) && Trimmed(c + separator + p)
  {
    hide IsSpace;
    NamedSpaces();
    var s := c + separator + p;
    var e := |c| + |separator|;
    assert forall i :: 0 <= i < |c| ==> s[i] == c[i];
    assert forall i :: |c| <= i < e ==> s[i] == separator[i - |c|];
    assert forall i :: e <= i < |s| ==> s[i] == p[i - e];
    assert !IsSpace(s[|c| - 1]) && !IsSpace(s[e]) && !IsSpace(s[0]) && !IsSpace(s[|s| - 1]);
  }

  /** Every chunk is normalized, trimmed and faithful. */
  lemma {:induction false} GreedyFaithful(current: string, rest: seq<Unit>, limit: Limit)
    requires current != "" && Trimmed(current) && NormalForm(current) && Faithful(current)
    requires forall u :: u in rest ==> SentenceOk(u.text) && SeparatorOk(u.separator)
    ensures forall c :: c in Greedy(current, rest, limit) ==> NormalForm(c) && Trimmed(c) && Faithful(c)
    decreases |rest|
  {
    hide IsSpace;
    hide MatchAt;
    hide NormalForm;
    hide FaithfulAt;
    if rest != [] {
      var u := rest[0];
      if |current + u.separator + u.text| > limit {
        SentenceIsFaithful(u.text);
        GreedyFaithful(u.text, rest[1..], limit);
      } else {
        AppendUnit(current, u.separator, u.text);
        GreedyFaithful(current + u.separator + u.text, rest[1..], limit);
      }
    }
  }

  lemma SentenceIsFaithful(t: string)
    requires SentenceOk(t)
    ensures t != "" && Trimmed(t) && NormalForm(t) && Faithful(t)
  {
    hide IsSpace;
    hide MatchAt;
    forall i | 0 <= i < |t| ensures FaithfulAt(t, i) { NoMatchIsFaithful(t, i); }
  }

  // ---- A faithful text within the limit is one chunk ----

  function Tail(units: seq<Unit>): string {
    if units == [] then "" else units[0].separator + units[0].text + Tail(units[1..])
  }

  /** The scanner takes a faithful text apart without losing a character. */
  lemma {:induction false} SentencesRejoin(c: string, start: nat, separator: string)
    requires Trimmed(c) && Faithful(c) && start < |c| && !IsSpace(c[start])
    ensures Sentences(c, start, separator) != [] && Sentences(c, start, separator)[0].separator == separator
    ensures Tail(Sentences(c, start, separator)) == separator + c[start..]
    ensures forall u :: u in Sentences(c, start, separator) ==> u.text != "" && |u.text| <= |c|
    decreases |c| - start
  {
    hide IsSpace;
    hide MatchAt;
    hide Emit;
    hide SeparatorFor;
    hide NextMatch;
    hide Tail;
    var m := NextMatch(c, start);
    if m.None? {
      EmitVisible(c, start, |c|, separator);
      assert c[start..] == c[start..|c|];
      TailStep(Unit(c[start..], separator), []);
      assert [Unit(c[start..], separator)] + [] == [Unit(c[start..], separator)];
    } else {
      var (lo, hi) := m.value;
      assert FaithfulAt(c, lo);
      MatchIsSpace(c, lo);
      EmitVisible(c, start, lo, separator);
      var rest := Sentences(c, hi, SeparatorFor(c[lo..hi]));
      SentencesRejoin(c, hi, SeparatorFor(c[lo..hi]));
      TailStep(Unit(c[start..lo], separator), rest);
      assert c[start..] == c[start..lo] + (c[lo..hi] + c[hi..]);
    }
  }

  lemma TailStep(u: Unit, rest: seq<Unit>)
    ensures Tail([u] + rest) == u.separator + (u.text + Tail(rest))
    ensures Tail([]) == ""
  {
    assert ([u] + rest)[1..] == rest;
  }

  lemma {:induction false} SplitAllNothing(units: seq<Unit>, limit: Limit)
    requires forall u :: u in units ==> u.text != "" && |u.text| <= limit
    ensures SplitAll(units, limit) == units
  {
    if units != [] {
      SplitShort(units[0].text, limit);
      SplitAllNothing(units[1..], limit);
      assert Parts([units[0].text], units[0].separator) == [units[0]];
    }
  }

  lemma {:induction false} GreedyTakesAll(current: string, rest: seq<Unit>, limit: Limit)
    requires |current + Tail(rest)| <= limit
    ensures Greedy(current, rest, limit) == [current + Tail(rest)]
    decreases |rest|
  {
    if rest == [] {
      assert current + "" == current;
    } else {
      var candidate := current + rest[0].separator + rest[0].text;
      assert candidate + Tail(rest[1..]) == current + Tail(rest);
      GreedyTakesAll(candidate, rest[1..], limit);
    }
  }

  lemma FaithfulIsOneChunk(c: string, limit: Limit)
    requires c != "" && |c| <= limit && Trimmed(c) && NormalForm(c) && Faithful(c)
    ensures ChunkText(c, limit) == [c]
  {
    hide IsSpace;
    hide MatchAt;
    hide NormalForm;
    hide Sentences;
    hide Normalize;
    NormalizeKeepsNormalForm(c);
    SentencesRejoin(c, 0, "");
    var units := Sentences(c, 0, "");
    SplitAllNothing(units, limit);
    assert Tail(units) == "" + units[0].text + Tail(units[1..]);
    assert "" + c[0..] == c && "" + units[0].text == units[0].text;
    GreedyTakesAll(units[0].text, units[1..], limit);
  }

  /** Re-chunking any produced chunk with the same limit returns exactly that chunk. */
  lemma ChunkingIsStable(raw: string, limit: Limit, c: string)
    requires c in ChunkText(raw, limit)
    ensures ChunkText(c, limit) == [c]
  {
    hide IsSpace;
    hide NormalForm;
    hide FaithfulAt;
    hide UnitsOf;
    hide MatchAt;
    UnitsOfOk(raw, limit);
    ChunksOk(raw, limit);
    var units := UnitsOf(raw, limit);
    SentenceIsFaithful(units[0].text);
    GreedyFaithful(units[0].text, units[1..], limit);
    FaithfulIsOneChunk(c, limit);
  }
}
