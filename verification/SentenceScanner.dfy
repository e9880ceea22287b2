/** Paragraph and sentence boundaries: the three-branch regular expression of the chunking
    service, written as an explicit leftmost, non-overlapping scanner. */
module SentenceScanner {
  import opened Wrappers
  import opened Text

  /** A piece of text and the separator that stands between it and the piece before it. */
  datatype Unit = Unit(text: string, separator: string)

  predicate EndsSentence(c: char) {
    c == '.' || c == '!' || c == '?'
  }

  predicate ClosesQuote(c: char) {
    c == '"' || c == '\U{201D}' || c == '\U{2019}'
  }

  predicate IsNewline(c: char) {
    c == '\n'
  }

  predicate IsTabOrSpace(c: char) {
    c == ' ' || c == '\t'
  }

  /** Where the run of characters in class `p` that begins at `i` ends. */
  function RunEnd(s: string, i: nat, p: char -> bool): (j: nat)
    requires i <= |s|
    ensures i <= j <= |s|
    ensures forall k :: i <= k < j ==> p(s[k])
    ensures j < |s| ==> !p(s[j])
    decreases |s| - i
  {
    if i < |s| && p(s[i]) then RunEnd(s, i + 1, p) else i
  }

  /** First branch: a line feed, tabs or spaces, and at least one more line feed. */
  function ParagraphMatch(s: string, i: nat): (m: Option<nat>)
    requires i < |s|
  {
    if s[i] != '\n' then None
    else
      var k := RunEnd(s, i + 1, IsTabOrSpace);
      if k < |s| && s[k] == '\n' then Some(RunEnd(s, k, IsNewline)) else None
  }

  /** The two lookbehinds: closing punctuation, or a quote that follows it. */
  predicate AfterSentence(s: string, i: nat)
    requires i <= |s|
  {
    || (i >= 1 && EndsSentence(s[i - 1]))
    || (i >= 2 && ClosesQuote(s[i - 1]) && EndsSentence(s[i - 2]))
  }

  /** Where a match that begins at `i` ends. The branches are tried in order; the second and the
      third consume the same whitespace and differ only in their lookbehind. */
  function MatchAt(s: string, i: nat): (m: Option<nat>)
    requires i < |s|
  {
    var paragraph := ParagraphMatch(s, i);
    if paragraph.Some? then paragraph
    else if AfterSentence(s, i) && IsSpace(s[i]) then Some(RunEnd(s, i, IsSpace))
    else None
  }

  /** Matches are nonempty and consist of whitespace. */
  lemma MatchIsSpace(s: string, i: nat)
    requires i < |s| && MatchAt(s, i).Some?
    ensures i < MatchAt(s, i).value <= |s|
    ensures forall k :: i <= k < MatchAt(s, i).value ==> IsSpace(s[k])
  {
  }

  /** The next match a left-to-right search finds. */
  function NextMatch(s: string, from: nat): (m: Option<(nat, nat)>)
    requires from <= |s|
    ensures m.Some? ==> from <= m.value.0 < |s| && MatchAt(s, m.value.0) == Some(m.value.1)
    ensures forall k :: from <= k < (if m.Some? then m.value.0 else |s|) ==> MatchAt(s, k).None?
    decreases |s| - from
  {
    if from == |s| then None
    else
      var m := MatchAt(s, from);
      if m.Some? then Some((from, m.value)) else NextMatch(s, from + 1)
  }

  function CountNewlines(s: string): nat {
    if s == "" then 0 else (if s[0] == '\n' then 1 else 0) + CountNewlines(s[1..])
  }

  function SeparatorFor(gap: string): string {
    if CountNewlines(gap) >= 2 then "\n\n" else " "
  }

  function Emit(piece: string, separator: string): seq<Unit> {
    var sentence := Strip(piece);
    if sentence == "" then [] else [Unit(sentence, separator)]
  }

  /** The sentences from `start` on, before oversized ones are split. */
  function Sentences(s: string, start: nat, separator: string): seq<Unit>
    requires start <= |s|
    decreases |s| - start
  {
    var m := NextMatch(s, start);
    if m.None? then Emit(s[start..], separator)
    else
      var (lo, hi) := m.value;
      MatchIsSpace(s, lo);
      Emit(s[start..lo], separator) + Sentences(s, hi, SeparatorFor(s[lo..hi]))
  }

  lemma EmitVisible(s: string, a: nat, b: nat, separator: string)
    requires a < b <= |s| && !IsSpace(s[a]) && !IsSpace(s[b - 1])
    ensures Emit(s[a..b], separator) == [Unit(s[a..b], separator)]
  {
    hide IsSpace;
    hide Strip;
    StripIs(s[a..b], 0, b - a);
    assert s[a..b][0..b - a] == s[a..b];
  }

  // ---- No boundary inside a sentence ----

  /** The scanner finds nothing in `t`. */
  predicate Quiet(t: string) {
    forall i :: 0 <= i < |t| ==> MatchAt(t, i).None?
  }

  lemma {:induction false} RunEndIs(s: string, i: nat, j: nat, p: char -> bool)
    requires i <= j <= |s| && (forall k :: i <= k < j ==> p(s[k])) && (j < |s| ==> !p(s[j]))
    ensures RunEnd(s, i, p) == j
  {
  }

  /** A boundary seen in a piece of a text is also there in the text. */
  lemma MatchInContext(s: string, lo: nat, hi: nat, i: nat)
    requires lo <= hi <= |s| && i < hi - lo
    requires MatchAt(s[lo..hi], i).Some?
    ensures MatchAt(s, lo + i).Some?
  {
    hide IsSpace;
    var t := s[lo..hi];
    if ParagraphMatch(t, i).Some? {
      var k := RunEnd(t, i + 1, IsTabOrSpace);
      assert forall n :: i + 1 <= n < k ==> t[n] == s[lo + n];
      assert forall n :: lo + i + 1 <= n < lo + k ==> IsTabOrSpace(s[n]) by {
        assert forall n :: lo + i + 1 <= n < lo + k ==> s[n] == t[n - lo];
      }
      RunEndIs(s, lo + i + 1, lo + k, IsTabOrSpace);
    }
  }

  lemma QuietPiece(s: string, lo: nat, hi: nat)
    requires lo <= hi <= |s|
    requires forall k :: lo <= k < hi ==> MatchAt(s, k).None?
    ensures Quiet(s[lo..hi])
  {
    hide MatchAt;
    forall i | 0 <= i < hi - lo ensures MatchAt(s[lo..hi], i).None? {
      if MatchAt(s[lo..hi], i).Some? { MatchInContext(s, lo, hi, i); }
    }
  }

  predicate SeparatorOk(separator: string) {
    separator == " " || separator == "\n\n"
  }

  predicate SentenceOk(t: string) {
    t != "" && Trimmed(t) && NormalForm(t) && Quiet(t)
  }

  lemma NormalFormPiece(s: string, lo: nat, hi: nat)
    requires lo <= hi <= |s| && NormalForm(s)
    ensures NormalForm(s[lo..hi])
  {
    hide IsSpace;
    assert forall i :: 0 <= i < hi - lo ==> s[lo..hi][i] == s[lo + i];
  }

  lemma EmitOk(s: string, lo: nat, hi: nat, separator: string)
    requires NormalForm(s) && lo <= hi <= |s|
    requires forall k :: lo <= k < hi ==> MatchAt(s, k).None?
    ensures forall u :: u in Emit(s[lo..hi], separator) ==> SentenceOk(u.text) && u.separator == separator
  {
    hide IsSpace;
    hide Strip;
    hide MatchAt;
    hide NormalForm;
    var a, b := StripLocates(s[lo..hi]);
    SliceOfSlice(s, lo, hi, a, b);
    QuietPiece(s, lo + a, lo + b);
    NormalFormPiece(s, lo + a, lo + b);
  }

  /** Every sentence is a trimmed, normalized piece with no boundary inside, and only the very
      first one may carry a separator other than a space or a blank line. */
  lemma {:induction false} SentencesOk(s: string, start: nat, separator: string)
    requires start <= |s| && NormalForm(s)
    ensures forall u :: u in Sentences(s, start, separator) ==> SentenceOk(u.text)
    ensures forall k :: 0 <= k < |Sentences(s, start, separator)| && (k > 0 || SeparatorOk(separator))
                        ==> SeparatorOk(Sentences(s, start, separator)[k].separator)
    decreases |s| - start
  {
    hide IsSpace;
    hide MatchAt;
    hide NormalForm;
    hide Emit;
    hide CountNewlines;
    var m := NextMatch(s, start);
    if m.None? {
      EmitOk(s, start, |s|, separator);
      assert s[start..] == s[start..|s|];
      EmitShort(s[start..], separator);
    } else {
      var (lo, hi) := m.value;
      MatchIsSpace(s, lo);
      EmitOk(s, start, lo, separator);
      EmitShort(s[start..lo], separator);
      SentencesOk(s, hi, SeparatorFor(s[lo..hi]));
    }
  }

  lemma EmitShort(piece: string, separator: string)
    ensures |Emit(piece, separator)| <= 1
  {
  }

  // ---- Content ----

  function FlatWords(texts: seq<string>): seq<string> {
    if texts == [] then [] else Words(texts[0]) + FlatWords(texts[1..])
  }

  function Texts(units: seq<Unit>): seq<string> {
    seq(|units|, i requires 0 <= i < |units| => units[i].text)
  }

  lemma FlatWordsStep(t: string, rest: seq<string>)
    ensures FlatWords([t] + rest) == Words(t) + FlatWords(rest)
    ensures FlatWords([]) == []
  {
    assert ([t] + rest)[1..] == rest;
  }

  lemma {:induction false} FlatWordsConcat(a: seq<string>, b: seq<string>)
    ensures FlatWords(a + b) == FlatWords(a) + FlatWords(b)
  {
    hide Words;
    hide FlatWords;
    if a == [] {
      FlatWordsStep("", b);
      assert a + b == b;
    } else {
      FlatWordsConcat(a[1..], b);
      assert a + b == [a[0]] + (a[1..] + b) && a == [a[0]] + a[1..];
      FlatWordsStep(a[0], a[1..] + b);
      FlatWordsStep(a[0], a[1..]);
    }
  }

  lemma EmitWords(piece: string, separator: string)
    ensures FlatWords(Texts(Emit(piece, separator))) == Words(piece)
  {
    hide IsSpace;
    hide Strip;
    hide Words;
    WordsStrip(piece);
    var _, _ := StripLocates(piece);
    if Strip(piece) == "" {
      WordsEmptyIffBlank("");
    } else {
      assert Texts(Emit(piece, separator)) == [Strip(piece)];
      assert FlatWords([Strip(piece)]) == Words(Strip(piece)) + FlatWords([]);
    }
  }

  /** The sentences hold the words of the text, in order. */
  lemma {:induction false} SentencesWords(s: string, start: nat, separator: string)
    requires start <= |s|
    ensures FlatWords(Texts(Sentences(s, start, separator))) == Words(s[start..])
    decreases |s| - start
  {
    hide IsSpace;
    hide MatchAt;
    hide Emit;
    hide Words;
    hide FlatWords;
    hide SeparatorFor;
    var m := NextMatch(s, start);
    if m.None? {
      EmitWords(s[start..], separator);
    } else {
      var (lo, hi) := m.value;
      MatchIsSpace(s, lo);
      EmitWords(s[start..lo], separator);
      var rest := Sentences(s, hi, SeparatorFor(s[lo..hi]));
      SentencesWords(s, hi, SeparatorFor(s[lo..hi]));
      assert Texts(Emit(s[start..lo], separator) + rest) == Texts(Emit(s[start..lo], separator)) + Texts(rest);
      FlatWordsConcat(Texts(Emit(s[start..lo], separator)), Texts(rest));
      assert s[start..] == s[start..lo] + (s[lo..hi] + s[hi..]);
      assert IsSpace((s[lo..hi] + s[hi..])[0]);
      WordsConcat(s[start..lo], s[lo..hi] + s[hi..]);
      assert s[lo..hi] + s[hi..] == s[lo..hi] + s[hi..] + "";
      WordsPadded(s[lo..hi], s[hi..], "");
    }
  }
}
