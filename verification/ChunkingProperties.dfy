/** What the chunks of a text are worth: bounded, complete, tiling the input, and stable. */
module ChunkingProperties {
  import opened Text
  import opened SentenceScanner
  import opened Chunking

  // ---- Every chunk is bounded and trimmed ----

  predicate ChunkOk(c: string, limit: Limit) {
    c != "" && |c| <= limit && Trimmed(c)
  }

  lemma {:induction false} GreedyOk(current: string, rest: seq<Unit>, limit: Limit)
    requires ChunkOk(current, limit) && forall u :: u in rest ==> ChunkOk(u.text, limit)
    ensures forall c :: c in Greedy(current, rest, limit) ==> ChunkOk(c, limit)
    decreases |rest|
  {
    hide IsSpace;
    if rest != [] {
      var candidate := current + rest[0].separator + rest[0].text;
      if |candidate| > limit {
        GreedyOk(rest[0].text, rest[1..], limit);
      } else {
        assert candidate[0] == current[0];
        assert candidate[|candidate| - 1] == rest[0].text[|rest[0].text| - 1];
        GreedyOk(candidate, rest[1..], limit);
      }
    }
  }

  lemma UnitIsChunkOk(t: string, limit: Limit)
    requires UnitOk(t, limit)
    ensures ChunkOk(t, limit)
  {
  }

  lemma ChunksOk(raw: string, limit: Limit)
    ensures forall c :: c in ChunkText(raw, limit) ==> c != "" && |c| <= limit && Trimmed(c)
  {
    hide IsSpace;
    hide UnitOk;
    hide UnitsOf;
    UnitsOfOk(raw, limit);
    var units := UnitsOf(raw, limit);
    if units != [] {
      forall u | u in units ensures ChunkOk(u.text, limit) { UnitIsChunkOk(u.text, limit); }
      GreedyOk(units[0].text, units[1..], limit);
    }
  }

  /** Every chunk is nonempty, at most the limit, and has no whitespace at either end. */
  lemma ChunksAreBounded(raw: string, limit: Limit, c: string)
    requires c in ChunkText(raw, limit)
    ensures c != "" && |c| <= limit && Trimmed(c)
  {
    hide ChunkText;
    ChunksOk(raw, limit);
  }

  // ---- Nothing is lost, added or reordered ----

  lemma {:induction false} GreedyWords(current: string, rest: seq<Unit>, limit: Limit)
    requires forall u :: u in rest ==> SeparatorOk(u.separator)
    ensures FlatWords(Greedy(current, rest, limit)) == Words(current) + FlatWords(Texts(rest))
    decreases |rest|
  {
    hide IsSpace;
    hide Words;
    if rest == [] {
      assert FlatWords([current]) == Words(current) + FlatWords([]);
    } else {
      var u := rest[0];
      assert Texts(rest)[1..] == Texts(rest[1..]);
      assert FlatWords(Texts(rest)) == Words(u.text) + FlatWords(Texts(rest[1..]));
      var candidate := current + u.separator + u.text;
      if |candidate| > limit {
        GreedyWords(u.text, rest[1..], limit);
      } else {
        GreedyWords(candidate, rest[1..], limit);
        JoinWords(current, u.separator, u.text);
      }
    }
  }

  lemma JoinWords(a: string, separator: string, b: string)
    requires SeparatorOk(separator)
    ensures Words(a + separator + b) == Words(a) + Words(b)
  {
    hide IsSpace;
    hide Words;
    NamedSpaces();
    WordsConcat(a + separator, b);
    WordsConcat(a, separator);
    WordsEmptyIffBlank(separator);
  }

  /** The words of the chunks are the words of the text, those longer than the limit cut into
      pieces of exactly the limit and a remainder. */
  predicate HoldWords(chunks: seq<string>, raw: string, limit: Limit) {
    FlatWords(chunks) == FlatPieces(Words(raw), limit)
  }

  lemma ChunksHoldTheWords(raw: string, limit: Limit)
    ensures HoldWords(ChunkText(raw, limit), raw, limit)
  {
    hide UnitsOf;
    hide UnitOk;
    hide Words;
    UnitsOfOk(raw, limit);
    var units := UnitsOf(raw, limit);
    if units != [] {
      GreedyWords(units[0].text, units[1..], limit);
      assert Texts(units)[1..] == Texts(units[1..]);
    }
  }

  lemma {:induction false} FlatPiecesEmpty(ws: seq<string>, limit: Limit)
    ensures FlatPieces(ws, limit) == [] <==> ws == []
  {
    if ws != [] { assert |Pieces(ws[0], limit)| > 0; }
  }

  /** There is no chunk exactly when the input is blank. */
  lemma NoChunksIffBlank(raw: string, limit: Limit)
    ensures ChunkText(raw, limit) == [] <==> AllSpace(raw)
  {
    hide IsSpace;
    hide Words;
    hide ChunkText;
    ChunksHoldTheWords(raw, limit);
    ChunksOk(raw, limit);
    FlatPiecesEmpty(Words(raw), limit);
    WordsEmptyIffBlank(raw);
    var chunks := ChunkText(raw, limit);
    if chunks != [] {
      assert chunks[0] in chunks;
      WordsEmptyIffBlank(chunks[0]);
    }
  }

  /** A word no longer than the limit is a whole word of some chunk. */
  lemma ShortWordSurvives(raw: string, limit: Limit, w: string)
    requires w in Words(raw) && |w| <= limit
    ensures exists c :: c in ChunkText(raw, limit) && w in Words(c)
  {
    hide Words;
    hide ChunkText;
    ChunksHoldTheWords(raw, limit);
    PieceOfShortWord(Words(raw), w, limit);
    WordHasChunk(ChunkText(raw, limit), w);
  }

  lemma {:induction false} PieceOfShortWord(ws: seq<string>, w: string, limit: Limit)
    requires w in ws && |w| <= limit
    ensures w in FlatPieces(ws, limit)
  {
    if ws[0] != w { PieceOfShortWord(ws[1..], w, limit); }
  }

  lemma {:induction false} WordHasChunk(chunks: seq<string>, w: string)
    requires w in FlatWords(chunks)
    ensures exists c :: c in chunks && w in Words(c)
  {
    hide Words;
    if w !in Words(chunks[0]) { WordHasChunk(chunks[1..], w); }
  }

  // ---- The chunks tile the collapsed input ----

  /** Words joined by single spaces: the text with every whitespace run collapsed. */
  function Joined(ws: seq<string>): string {
    if ws == [] then "" else if |ws| == 1 then ws[0] else ws[0] + " " + Joined(ws[1..])
  }

  function Collapse(s: string): string {
    Joined(Words(s))
  }

  /** For every piece: is it followed by more of the same word? */
  function Continues(ws: seq<string>, limit: Limit): (flags: seq<bool>)
    ensures |flags| == |FlatPieces(ws, limit)|
  {
    if ws == [] then []
    else WordFlags(|Pieces(ws[0], limit)|) + Continues(ws[1..], limit)
  }

  /** All pieces of a word but the last are followed by more of it. */
  function WordFlags(n: nat): seq<bool> {
    seq(n, i => i + 1 < n)
  }

  /** Pieces glued back: nothing inside a word, a space between words. */
  function Glued(ps: seq<string>, flags: seq<bool>): string
    requires |ps| == |flags|
  {
    if ps == [] then ""
    else if |ps| == 1 then ps[0]
    else ps[0] + (if flags[0] then "" else " ") + Glued(ps[1..], flags[1..])
  }

  lemma {:induction false} GlueWord(w: string, rest: seq<string>, flags: seq<bool>, limit: Limit)
    requires |rest| == |flags|
    ensures Glued(Pieces(w, limit) + rest, WordFlags(|Pieces(w, limit)|) + flags)
         == if rest == [] then w else w + " " + Glued(rest, flags)
    decreases |w|
  {
    hide Glued;
    if |w| <= limit {
      GluedStopping(w, rest, flags);
      assert WordFlags(1) == [false];
    } else {
      GlueWord(w[limit..], rest, flags, limit);
      var qs := Pieces(w[limit..], limit);
      var gs := WordFlags(|qs|);
      assert ([w[..limit]] + qs) + rest == [w[..limit]] + (qs + rest);
      assert WordFlags(1 + |qs|) + flags == [true] + (gs + flags);
      GluedContinuing(w[..limit], qs + rest, gs + flags);
      assert w == w[..limit] + w[limit..];
    }
  }

  lemma GluedStopping(p: string, rest: seq<string>, flags: seq<bool>)
    requires |rest| == |flags|
    ensures Glued([p] + rest, [false] + flags) == if rest == [] then p else p + " " + Glued(rest, flags)
  {
    assert ([p] + rest)[1..] == rest && ([false] + flags)[1..] == flags;
  }

  lemma GluedContinuing(p: string, rest: seq<string>, flags: seq<bool>)
    requires rest != [] && |rest| == |flags|
    ensures Glued([p] + rest, [true] + flags) == p + Glued(rest, flags)
  {
    assert ([p] + rest)[1..] == rest && ([true] + flags)[1..] == flags;
  }

  lemma {:induction false} GluePieces(ws: seq<string>, limit: Limit)
    requires forall k :: 0 <= k < |ws| ==> ws[k] != ""
    ensures Glued(FlatPieces(ws, limit), Continues(ws, limit)) == Joined(ws)
  {
    hide Pieces;
    hide Glued;
    if ws == [] {
      GluedNothing();
    } else {
      GluePieces(ws[1..], limit);
      FlatPiecesEmpty(ws[1..], limit);
      GlueWord(ws[0], FlatPieces(ws[1..], limit), Continues(ws[1..], limit), limit);
    }
  }

  lemma {:induction false} ContinuingPiece(ws: seq<string>, limit: Limit, k: nat)
    requires k < |FlatPieces(ws, limit)| && Continues(ws, limit)[k]
    ensures |FlatPieces(ws, limit)[k]| == limit
  {
    hide Pieces;
    var n := |Pieces(ws[0], limit)|;
    if k < n { ContinuingInWord(ws[0], limit, k); } else { ContinuingPiece(ws[1..], limit, k - n); }
  }

  lemma {:induction false} ContinuingInWord(w: string, limit: Limit, k: nat)
    requires k + 1 < |Pieces(w, limit)|
    ensures |Pieces(w, limit)[k]| == limit
    decreases |w|
  {
    if k > 0 { ContinuingInWord(w[limit..], limit, k - 1); }
  }

  /** Texts one after another, each followed by its joint. */
  function WithJoints(texts: seq<string>, joints: seq<string>): string
    requires |texts| == |joints|
  {
    if texts == [] then "" else texts[0] + joints[0] + WithJoints(texts[1..], joints[1..])
  }

  function Collapsed(chunks: seq<string>): seq<string> {
    seq(|chunks|, i requires 0 <= i < |chunks| => Collapse(chunks[i]))
  }

  /** How the chunks of `chunks` hang together when their words are glued by `flags`. */
  function Joints(chunks: seq<string>, flags: seq<bool>): (joints: seq<string>)
    requires |flags| == |FlatWords(chunks)|
    requires forall c :: c in chunks ==> Words(c) != []
    ensures |joints| == |chunks|
  {
    if chunks == [] then []
    else
      var n := |Words(chunks[0])|;
      [if |chunks| == 1 || flags[n - 1] then "" else " "] + Joints(chunks[1..], flags[n..])
  }

  lemma {:induction false} GluedPrefix(ps: seq<string>, rest: seq<string>, flags: seq<bool>)
    requires ps != [] && |flags| == |ps| + |rest|
    requires forall k :: 0 <= k < |ps| - 1 ==> !flags[k]
    ensures Glued(ps + rest, flags)
         == if rest == [] then Joined(ps)
            else Joined(ps) + (if flags[|ps| - 1] then "" else " ") + Glued(rest, flags[|ps|..])
  {
    hide Glued;
    hide Joined;
    var front, others, tail := ps[0], ps[1..], flags[1..];
    assert ps == [front] + others && flags == [flags[0]] + tail;
    assert ps + rest == [front] + (others + rest);
    JoinedStep(front, others);
    if others == [] {
      assert others + rest == rest;
      if flags[0] && rest != [] { GluedContinuing(front, rest, tail); } else { GluedLast(front, rest, flags); }
    } else {
      GluedPrefix(others, rest, tail);
      GluedStopping(front, others + rest, tail);
      assert tail[|others|..] == flags[|ps|..];
    }
  }

  lemma GluedLast(p: string, rest: seq<string>, flags: seq<bool>)
    requires |flags| == 1 + |rest| && (rest == [] || !flags[0])
    ensures Glued([p] + rest, flags) == if rest == [] then p else p + " " + Glued(rest, flags[1..])
  {
    assert ([p] + rest)[1..] == rest;
  }

  lemma JoinedStep(p: string, rest: seq<string>)
    ensures Joined([p] + rest) == if rest == [] then p else p + " " + Joined(rest)
  {
    assert ([p] + rest)[1..] == rest;
  }

  /** A piece that continues fills its chunk. */
  predicate OnlyLastContinues(chunks: seq<string>, flags: seq<bool>)
    requires |flags| == |FlatWords(chunks)|
  {
    chunks == [] ||
    var n := |Words(chunks[0])|;
    && (forall k :: 0 <= k < n && flags[k] ==> n == 1)
    && OnlyLastContinues(chunks[1..], flags[n..])
  }

  lemma {:induction false} ChunksGlue(chunks: seq<string>, flags: seq<bool>)
    requires |flags| == |FlatWords(chunks)| && OnlyLastContinues(chunks, flags)
    requires forall c :: c in chunks ==> Words(c) != []
    ensures WithJoints(Collapsed(chunks), Joints(chunks, flags)) == Glued(FlatWords(chunks), flags)
  {
    hide Words;
    hide Joined;
    hide Glued;
    if chunks == [] {
      assert Glued([], []) == "" by { GluedNothing(); }
    } else {
      var n := |Words(chunks[0])|;
      ChunksGlue(chunks[1..], flags[n..]);
      assert Collapsed(chunks)[1..] == Collapsed(chunks[1..]);
      GluedPrefix(Words(chunks[0]), FlatWords(chunks[1..]), flags);
      if |chunks| > 1 { assert chunks[1..][0] in chunks; }
    }
  }

  lemma GluedNothing()
    ensures Glued([], []) == ""
  {
  }

  lemma DropFirstChunk(chunks: seq<string>, flags: seq<bool>, limit: Limit)
    requires chunks != [] && |flags| == |FlatWords(chunks)|
    requires forall k :: 0 <= k < |flags| && flags[k] ==> |FlatWords(chunks)[k]| == limit
    ensures var n := |Words(chunks[0])|;
            |flags| >= n && |flags[n..]| == |FlatWords(chunks[1..])|
            && forall k :: 0 <= k < |flags| - n && flags[n..][k] ==> |FlatWords(chunks[1..])[k]| == limit
  {
    hide Words;
    hide FlatWords;
    var ws, rest := Words(chunks[0]), FlatWords(chunks[1..]);
    assert chunks == [chunks[0]] + chunks[1..];
    FlatWordsStep(chunks[0], chunks[1..]);
    var n := |ws|;
    forall k | 0 <= k < |flags| - n && flags[n..][k] ensures |rest[k]| == limit {
      assert flags[n + k] && (ws + rest)[n + k] == rest[k];
    }
  }

  lemma {:induction false} LongWordsFillChunks(chunks: seq<string>, flags: seq<bool>, limit: Limit)
    requires |flags| == |FlatWords(chunks)|
    requires forall c :: c in chunks ==> ChunkOk(c, limit)
    requires forall k :: 0 <= k < |flags| && flags[k] ==> |FlatWords(chunks)[k]| == limit
    ensures OnlyLastContinues(chunks, flags)
  {
    hide IsSpace;
    hide Words;
    if chunks != [] {
      var ws, all := Words(chunks[0]), FlatWords(chunks);
      var n := |ws|;
      assert all == ws + FlatWords(chunks[1..]);
      forall k | 0 <= k < n && flags[k] ensures n == 1 {
        assert all[k] == ws[k];
        FullWordIsChunk(chunks[0], ws[k], limit);
      }
      DropFirstChunk(chunks, flags, limit);
      LongWordsFillChunks(chunks[1..], flags[n..], limit);
    }
  }

  lemma {:induction false} WordFits(s: string, w: string)
    requires w in Words(s)
    ensures |w| <= |s| && (|w| == |s| ==> w == s)
  {
    hide IsSpace;
    WordsAreSolid(s[1..]);
    if !IsSpace(s[0]) && |s| > 1 && !IsSpace(s[1]) {
      WordFits(s[1..], Words(s[1..])[0]);
    }
  }

  /** A chunk that holds a word of the limit's length is that word: no space was put beside a
      hard-cut piece. */
  lemma FullWordIsChunk(c: string, w: string, limit: Limit)
    requires ChunkOk(c, limit) && w in Words(c) && |w| == limit
    ensures c == w && Words(c) == [w]
  {
    hide IsSpace;
    hide Words;
    WordFits(c, w);
    WordsAreSolid(c);
    WordsOfSolid(c);
  }

  lemma {:induction false} HardJoints(chunks: seq<string>, flags: seq<bool>, limit: Limit, i: nat)
    requires |flags| == |FlatWords(chunks)|
    requires forall c :: c in chunks ==> ChunkOk(c, limit) && Words(c) != []
    requires forall k :: 0 <= k < |flags| && flags[k] ==> |FlatWords(chunks)[k]| == limit
    requires i + 1 < |chunks| && Joints(chunks, flags)[i] == ""
    ensures |chunks[i]| == limit && NoSpace(chunks[i])
  {
    hide IsSpace;
    hide Words;
    hide ChunkOk;
    var ws, all := Words(chunks[0]), FlatWords(chunks);
    var n := |ws|;
    assert all == ws + FlatWords(chunks[1..]);
    if i == 0 {
      assert flags[n - 1] && all[n - 1] == ws[n - 1];
      assert ws[n - 1] in ws && chunks[0] in chunks;
      FullWordIsChunk(chunks[0], ws[n - 1], limit);
      WordsAreSolid(chunks[0]);
    } else {
      DropFirstChunk(chunks, flags, limit);
      HardJoints(chunks[1..], flags[n..], limit, i - 1);
    }
  }

  /** Gluing the collapsed chunks by `joints` reproduces the collapsed text. A joint is a space, or
      nothing after a chunk that is a single piece of exactly the limit's length. */
  predicate Tiles(chunks: seq<string>, joints: seq<string>, raw: string, limit: Limit) {
    && |joints| == |chunks|
    && WithJoints(Collapsed(chunks), joints) == Collapse(raw)
    && (forall i :: 0 <= i < |joints| ==> joints[i] == "" || joints[i] == " ")
    && (forall i :: 0 <= i < |joints| - 1 && joints[i] == "" ==> |chunks[i]| == limit && NoSpace(chunks[i]))
  }

  /** Any chunks that hold the words of the text, each nonblank and within the limit, tile it. */
  lemma HoldingTiles(chunks: seq<string>, raw: string, limit: Limit) returns (joints: seq<string>)
    requires HoldWords(chunks, raw, limit)
    requires forall c :: c in chunks ==> ChunkOk(c, limit)
    ensures |joints| == |chunks| && WithJoints(Collapsed(chunks), joints) == Collapse(raw)
    ensures forall i :: 0 <= i < |joints| ==> joints[i] == "" || joints[i] == " "
    ensures forall i :: 0 <= i < |joints| - 1 && joints[i] == "" ==> |chunks[i]| == limit && NoSpace(chunks[i])
  {
    hide IsSpace;
    hide Words;
    hide OnlyLastContinues;
    WordsAreSolid(raw);
    var flags := Continues(Words(raw), limit);
    forall c | c in chunks ensures Words(c) != [] { WordsEmptyIffBlank(c); }
    forall k | 0 <= k < |flags| && flags[k] ensures |FlatWords(chunks)[k]| == limit {
      ContinuingPiece(Words(raw), limit, k);
    }
    LongWordsFillChunks(chunks, flags, limit);
    ChunksGlue(chunks, flags);
    GluePieces(Words(raw), limit);
    joints := Joints(chunks, flags);
    JointsAreJoints(chunks, flags);
    forall i | 0 <= i < |joints| - 1 && joints[i] == "" ensures |chunks[i]| == limit && NoSpace(chunks[i]) {
      HardJoints(chunks, flags, limit, i);
    }
  }

  /** The collapsed chunks, glued by the returned joints, are exactly the collapsed input: each
      collapsed chunk is a contiguous part of it, and nothing is lost or put in between. */
  lemma ChunksTile(raw: string, limit: Limit) returns (joints: seq<string>)
    ensures Tiles(ChunkText(raw, limit), joints, raw, limit)
  {
    hide IsSpace;
    hide ChunkText;
    hide HoldWords;
    hide WithJoints;
    hide Collapse;
    hide Collapsed;
    ChunksHoldTheWords(raw, limit);
    ChunksOk(raw, limit);
    joints := HoldingTiles(ChunkText(raw, limit), raw, limit);
  }

  lemma {:induction false} JointsAreJoints(chunks: seq<string>, flags: seq<bool>)
    requires |flags| == |FlatWords(chunks)| && forall c :: c in chunks ==> Words(c) != []
    ensures forall i :: 0 <= i < |chunks| ==> Joints(chunks, flags)[i] == "" || Joints(chunks, flags)[i] == " "
  {
    hide Words;
    if chunks != [] { JointsAreJoints(chunks[1..], flags[|Words(chunks[0])|..]); }
  }
}
