/** What the chunking service computes: sentences, oversized sentences split, units regrouped. */
module Chunking {
  import opened Text
  import opened SentenceScanner

  type Limit = n: nat | n > 0 witness 1

  // ---- Splitting an oversized sentence ----

  /** The last position in `1..k` that holds whitespace, or 0. */
  function LastSpace(s: string, k: nat): (b: nat)
    requires k < |s|
    ensures b <= k && (b > 0 ==> IsSpace(s[b]))
    ensures forall i :: b < i <= k ==> !IsSpace(s[i])
  {
    if k == 0 || IsSpace(s[k]) then k else LastSpace(s, k - 1)
  }

  /** Cut at the last whitespace that keeps the part within the limit, else by character. */
  function Split(s: string, limit: Limit): seq<string>
    decreases |s|
  {
    if |s| <= limit then
      if s == "" then [] else [s]
    else
      var b := LastSpace(s, limit);
      if b > 0 then [RStrip(s[..b])] + Split(LStrip(s[b..]), limit)
      else [s[..limit]] + Split(LStrip(s[limit..]), limit)
  }

  /** The parts of one sentence: the first keeps the separator, the others get a space. */
  function Parts(parts: seq<string>, separator: string): seq<Unit> {
    seq(|parts|, i requires 0 <= i < |parts| => Unit(parts[i], if i == 0 then separator else " "))
  }

  function SplitAll(sentences: seq<Unit>, limit: Limit): seq<Unit> {
    if sentences == [] then []
    else Parts(Split(sentences[0].text, limit), sentences[0].separator) + SplitAll(sentences[1..], limit)
  }

  function UnitsOf(raw: string, limit: Limit): seq<Unit> {
    SplitAll(Sentences(Normalize(raw), 0, ""), limit)
  }

  // ---- Regrouping ----

  /** Extend the current chunk while the next unit, separator included, still fits. */
  function Greedy(current: string, rest: seq<Unit>, limit: Limit): seq<string>
    decreases |rest|
  {
    if rest == [] then [current]
    else
      var candidate := current + rest[0].separator + rest[0].text;
      if |candidate| > limit then [current] + Greedy(rest[0].text, rest[1..], limit)
      else Greedy(candidate, rest[1..], limit)
  }

  function ChunkText(raw: string, limit: Limit): seq<string> {
    var units := UnitsOf(raw, limit);
    if units == [] then [] else Greedy(units[0].text, units[1..], limit)
  }

  // ---- Properties of splitting ----

  predicate UnitOk(t: string, limit: Limit) {
    SentenceOk(t) && |t| <= limit
  }

  lemma PieceOk(t: string, lo: nat, hi: nat)
    requires SentenceOk(t) && lo < hi <= |t| && !IsSpace(t[lo]) && !IsSpace(t[hi - 1])
    ensures SentenceOk(t[lo..hi])
  {
    hide IsSpace;
    hide MatchAt;
    hide NormalForm;
    NormalFormPiece(t, lo, hi);
    QuietPiece(t, lo, hi);
    assert t[lo..hi][0] == t[lo] && t[lo..hi][hi - lo - 1] == t[hi - 1];
  }

  /** Where the two ends of a cut lie: both sides of `Split`'s whitespace cut are visible. */
  lemma CutAtSpace(t: string, b: nat) returns (p: nat, q: nat)
    requires t != "" && Trimmed(t) && 0 < b < |t| && IsSpace(t[b])
    ensures 0 < p <= b < q < |t| && RStrip(t[..b]) == t[..p] && LStrip(t[b..]) == t[q..]
    ensures !IsSpace(t[p - 1]) && !IsSpace(t[q])
    ensures forall i :: p <= i < q ==> IsSpace(t[i])
  {
    hide IsSpace;
    hide LStrip;
    hide RStrip;
    p := RStripIs(t[..b]);
    var k := LStripIs(t[b..]);
    q := b + k;
    assert t[..b][0] == t[0] && t[b..][|t| - b - 1] == t[|t| - 1];
    assert forall i :: p <= i < b ==> t[i] == t[..b][i];
    assert forall i :: b <= i < q ==> t[i] == t[b..][i - b];
    assert t[..b][..p] == t[..p] && t[b..][k..] == t[q..];
    assert p > 0 ==> t[..p][p - 1] == t[p - 1];
    assert q < |t|;
    assert t[q..][0] == t[q];
  }

  /** One cut of an oversized text `t`: the part is `t[..p]` and the loop goes on with `t[q..]`.
      Either whitespace lies between the two, or a word is cut after exactly `limit` characters. */
  lemma SplitUnfolds(t: string, limit: Limit) returns (p: nat, q: nat)
    requires |t| > limit && Trimmed(t)
    ensures 0 < p <= limit && p <= q < |t| && !IsSpace(t[0]) && !IsSpace(t[p - 1]) && !IsSpace(t[q])
    ensures Split(t, limit) == [t[..p]] + Split(t[q..], limit)
    ensures forall i :: p <= i < q ==> IsSpace(t[i])
    ensures p == q ==> p == limit && NoSpace(t[..p])
  {
    hide IsSpace;
    hide LStrip;
    hide RStrip;
    var b := LastSpace(t, limit);
    if b > 0 {
      p, q := CutAtSpace(t, b);
    } else {
      p, q := limit, limit;
      StartsVisible(t[limit..]);
    }
  }

  /** A word ends right before position `k`. */
  predicate EndsWord(t: string, k: nat) {
    0 < k < |t| && !IsSpace(t[k - 1]) && IsSpace(t[k])
  }

  /** Which part is cut off an oversized text: its longest beginning within the limit that ends with a
      word or, when the first word alone is too long, exactly `limit` characters of it. The rest,
      stripped on the left, is split in turn. */
  lemma FirstPartIsLongest(t: string, limit: Limit)
    requires |t| > limit && Trimmed(t)
    ensures var parts := Split(t, limit);
            && parts != [] && parts[0] <= t && 0 < |parts[0]| <= limit
            && (forall k :: |parts[0]| < k <= limit ==> !EndsWord(t, k))
            && (EndsWord(t, |parts[0]|) || (|parts[0]| == limit && forall k :: 0 < k <= limit ==> !EndsWord(t, k)))
            && parts[1..] == Split(LStrip(t[|parts[0]|..]), limit)
  {
    hide IsSpace;
    hide LStrip;
    hide RStrip;
    var b := LastSpace(t, limit);
    if b > 0 {
      var p, q := CutAtSpace(t, b);
      assert Split(t, limit) == [t[..p]] + Split(t[q..], limit);
      LStripPast(t, p, q);
    } else {
      assert Split(t, limit) == [t[..limit]] + Split(LStrip(t[limit..]), limit);
    }
  }

  lemma {:induction false} LStripPast(t: string, p: nat, q: nat)
    requires p <= q < |t| && !IsSpace(t[q]) && forall i :: p <= i < q ==> IsSpace(t[i])
    ensures LStrip(t[p..]) == t[q..]
    decreases q - p
  {
    hide IsSpace;
    if p < q {
      assert t[p..][1..] == t[p + 1..];
      LStripPast(t, p + 1, q);
    }
  }

  lemma SplitShort(t: string, limit: Limit)
    requires |t| <= limit
    ensures Split(t, limit) == if t == "" then [] else [t]
  {
  }

  lemma StartsVisible(s: string)
    requires s != "" && !IsSpace(s[0])
    ensures LStrip(s) == s
  {
  }

  lemma {:induction false} SplitOk(t: string, limit: Limit)
    requires SentenceOk(t)
    ensures Split(t, limit) != [] && forall p :: p in Split(t, limit) ==> UnitOk(p, limit)
    decreases |t|
  {
    hide IsSpace;
    hide SentenceOk;
    hide Split;
    SentenceOkBasics(t);
    if |t| <= limit {
      SplitShort(t, limit);
    } else {
      var p, q := SplitUnfolds(t, limit);
      PieceOk(t, 0, p);
      PieceOk(t, q, |t|);
      assert t[0..p] == t[..p] && t[q..|t|] == t[q..];
      SplitOk(t[q..], limit);
    }
  }

  lemma SentenceOkBasics(t: string)
    requires SentenceOk(t)
    ensures t != "" && Trimmed(t)
  {
  }

  /** A word in pieces of at most the limit, every piece but the last of exactly the limit. */
  function Pieces(w: string, limit: Limit): seq<string>
    decreases |w|
  {
    if |w| <= limit then [w] else [w[..limit]] + Pieces(w[limit..], limit)
  }

  function FlatPieces(ws: seq<string>, limit: Limit): seq<string> {
    if ws == [] then [] else Pieces(ws[0], limit) + FlatPieces(ws[1..], limit)
  }

  lemma FlatPiecesStep(w: string, rest: seq<string>, limit: Limit)
    ensures FlatPieces([w] + rest, limit) == Pieces(w, limit) + FlatPieces(rest, limit)
    ensures FlatPieces([], limit) == []
  {
    assert ([w] + rest)[1..] == rest;
  }

  lemma {:induction false} FlatPiecesConcat(a: seq<string>, b: seq<string>, limit: Limit)
    ensures FlatPieces(a + b, limit) == FlatPieces(a, limit) + FlatPieces(b, limit)
  {
    hide Pieces;
    hide FlatPieces;
    if a == [] {
      FlatPiecesStep("", b, limit);
      assert a + b == b;
    } else {
      FlatPiecesConcat(a[1..], b, limit);
      assert a + b == [a[0]] + (a[1..] + b) && a == [a[0]] + a[1..];
      FlatPiecesStep(a[0], a[1..] + b, limit);
      FlatPiecesStep(a[0], a[1..], limit);
    }
  }

  lemma {:induction false} FlatPiecesOfShort(ws: seq<string>, limit: Limit)
    requires forall w :: w in ws ==> |w| <= limit
    ensures FlatPieces(ws, limit) == ws
  {
    if ws != [] { FlatPiecesOfShort(ws[1..], limit); }
  }

  /** Splitting cuts exactly the words that are longer than the limit, into their pieces. */
  lemma {:induction false} SplitWords(t: string, limit: Limit)
    requires Trimmed(t)
    ensures FlatWords(Split(t, limit)) == FlatPieces(Words(t), limit)
    decreases |t|
  {
    hide IsSpace;
    hide Words;
    hide Split;
    if |t| <= limit {
      SplitShort(t, limit);
      ShortTextWords(t, limit);
      if t == "" { WordsEmptyIffBlank(t); } else { assert FlatWords([t]) == Words(t) + FlatWords([]); }
    } else {
      var p, q := SplitUnfolds(t, limit);
      SplitWords(t[q..], limit);
      if p == q { HardCutWords(t, p, limit); } else { SoftCutWords(t, p, q, limit); }
    }
  }

  lemma ShortTextWords(t: string, limit: Limit)
    requires |t| <= limit
    ensures FlatPieces(Words(t), limit) == Words(t)
  {
    hide Words;
    WordsAreSolid(t);
    FlatPiecesOfShort(Words(t), limit);
  }

  lemma SoftCutWords(t: string, p: nat, q: nat, limit: Limit)
    requires 0 < p < q < |t| && p <= limit && forall i :: p <= i < q ==> IsSpace(t[i])
    ensures FlatPieces(Words(t), limit) == Words(t[..p]) + FlatPieces(Words(t[q..]), limit)
  {
    hide IsSpace;
    hide Words;
    hide FlatPieces;
    assert t == t[..p] + (t[p..q] + t[q..]);
    WordsConcat(t[..p], t[p..q] + t[q..]);
    assert t[p..q] + t[q..] == t[p..q] + t[q..] + "";
    WordsPadded(t[p..q], t[q..], "");
    FlatPiecesConcat(Words(t[..p]), Words(t[q..]), limit);
    ShortTextWords(t[..p], limit);
  }

  lemma HardCutWords(t: string, p: nat, limit: Limit)
    requires p == limit < |t| && NoSpace(t[..p]) && !IsSpace(t[p])
    ensures FlatPieces(Words(t), limit) == Words(t[..p]) + FlatPieces(Words(t[p..]), limit)
  {
    hide IsSpace;
    hide Words;
    var a, b := t[..p], t[p..];
    assert t == a + b;
    WordsCutInside(a, b);
    WordsOfSolid(a);
    WordsAreSolid(b);
    LongWordPieces(a, Words(b)[0], Words(b)[1..], limit);
    assert Words(b) == [Words(b)[0]] + Words(b)[1..];
  }

  lemma LongWordPieces(a: string, w: string, ws: seq<string>, limit: Limit)
    requires |a| == limit && w != ""
    ensures FlatPieces([a + w] + ws, limit) == [a] + FlatPieces([w] + ws, limit)
  {
    assert (a + w)[..limit] == a && (a + w)[limit..] == w;
  }

  lemma {:induction false} SplitAllOk(sentences: seq<Unit>, limit: Limit)
    requires forall u :: u in sentences ==> SentenceOk(u.text)
    requires forall k :: 0 < k < |sentences| ==> SeparatorOk(sentences[k].separator)
    ensures SplitAll(sentences, limit) == [] <==> sentences == []
    ensures forall u :: u in SplitAll(sentences, limit) ==> UnitOk(u.text, limit)
    ensures forall k :: 0 <= k < |SplitAll(sentences, limit)|
                        && (k > 0 || (sentences != [] && SeparatorOk(sentences[0].separator)))
                        ==> SeparatorOk(SplitAll(sentences, limit)[k].separator)
  {
    hide SentenceOk;
    hide Split;
    if sentences != [] {
      SplitOk(sentences[0].text, limit);
      SplitAllOk(sentences[1..], limit);
    }
  }

  lemma TextsConcat(a: seq<Unit>, b: seq<Unit>)
    ensures Texts(a + b) == Texts(a) + Texts(b)
  {
  }

  lemma {:induction false} SplitAllWords(sentences: seq<Unit>, limit: Limit)
    requires forall u :: u in sentences ==> SentenceOk(u.text)
    ensures FlatWords(Texts(SplitAll(sentences, limit)))
         == FlatPieces(FlatWords(Texts(sentences)), limit)
  {
    hide SentenceOk;
    hide Split;
    hide Words;
    hide Pieces;
    hide FlatWords;
    hide FlatPieces;
    FlatWordsStep("", []);
    FlatPiecesStep("", [], limit);
    if sentences != [] {
      var u, rest := sentences[0], sentences[1..];
      SentenceOkBasics(u.text);
      SplitWords(u.text, limit);
      SplitAllWords(rest, limit);
      var parts := Parts(Split(u.text, limit), u.separator);
      assert Texts(parts) == Split(u.text, limit);
      TextsConcat(parts, SplitAll(rest, limit));
      FlatWordsConcat(Texts(parts), Texts(SplitAll(rest, limit)));
      assert Texts(sentences) == [u.text] + Texts(rest);
      FlatWordsStep(u.text, Texts(rest));
      FlatPiecesConcat(Words(u.text), FlatWords(Texts(rest)), limit);
    }
  }

  /** What the regrouping loop receives. */
  predicate UnitsOk(units: seq<Unit>, limit: Limit) {
    && (forall u :: u in units ==> UnitOk(u.text, limit))
    && (forall k :: 0 < k < |units| ==> SeparatorOk(units[k].separator))
  }

  lemma UnitsOfOk(raw: string, limit: Limit)
    ensures UnitsOk(UnitsOf(raw, limit), limit)
    ensures FlatWords(Texts(UnitsOf(raw, limit))) == FlatPieces(Words(raw), limit)
  {
    hide IsSpace;
    hide SentenceOk;
    hide Words;
    hide Sentences;
    var s := Normalize(raw);
    NormalizeNormal(raw);
    WordsNormalize(raw);
    SentencesOk(s, 0, "");
    SentencesWords(s, 0, "");
    assert s[0..] == s;
    SplitAllOk(Sentences(s, 0, ""), limit);
    SplitAllWords(Sentences(s, 0, ""), limit);
  }
}
