/** The chunking service as the program runs it: loops over mutable lists, proved to compute the
    chunks specified in module `Chunking`. */
module ChunkingServices {
  import opened Wrappers
  import opened Text
  import opened SentenceScanner
  import opened Chunking
  import opened ChunkingParagraphs
  import opened ChunkingProperties

  /** The list of units that `AppendSentence` extends in place. */
  class UnitList {
    var items: seq<Unit>

    constructor ()
      ensures items == []
    {
      items := [];
    }
  }

  class ChunkingService {
    const maxChunkSize: Limit

    constructor (maxChunkSize: Limit)
      ensures this.maxChunkSize == maxChunkSize
    {
      this.maxChunkSize := maxChunkSize;
    }

    /** The size check that precedes construction. */
    static method Create(maxChunkSize: int) returns (service: Result<ChunkingService, string>)
      ensures maxChunkSize <= 0 ==> service.Err?
      ensures maxChunkSize > 0 ==> service.Ok? && fresh(service.value) && service.value.maxChunkSize == maxChunkSize
    {
      if maxChunkSize <= 0 {
        return Err("max_chunk_size must be greater than zero");
      }
      var created := new ChunkingService(maxChunkSize);
      service := Ok(created);
    }

    method SplitOversized(paragraph: string) returns (parts: seq<string>)
      ensures parts == Split(paragraph, maxChunkSize)
    {
      hide IsSpace;
      hide LStrip;
      hide RStrip;
      hide Split;
      parts := [];
      var remaining := paragraph;
      while |remaining| > maxChunkSize
        invariant parts + Split(remaining, maxChunkSize) == Split(paragraph, maxChunkSize)
        decreases |remaining|
      {
        SplitStep(remaining, maxChunkSize);
        var boundary := LastSpace(remaining, maxChunkSize);
        if boundary > 0 {
          parts := parts + [RStrip(remaining[..boundary])];
          remaining := LStrip(remaining[boundary..]);
        } else {
          parts := parts + [remaining[..maxChunkSize]];
          remaining := LStrip(remaining[maxChunkSize..]);
        }
      }
      SplitShort(remaining, maxChunkSize);
      if remaining != "" {
        parts := parts + [remaining];
      }
    }

    method AppendSentence(units: UnitList, sentence: string, separator: string)
      modifies units
      ensures units.items == old(units.items) + Parts(Split(sentence, maxChunkSize), separator)
      ensures forall k :: |old(units.items)| <= k < |units.items| ==>
                            units.items[k].separator == if k == |old(units.items)| then separator else " "
    {
      hide Split;
      var parts := SplitOversized(sentence);
      ghost var all := Parts(parts, separator);
      for index := 0 to |parts|
        invariant units.items == old(units.items) + all[..index]
      {
        assert all[..index + 1] == all[..index] + [all[index]];
        units.items := units.items + [Unit(parts[index], if index == 0 then separator else " ")];
      }
    }

    method Units(rawText: string) returns (units: UnitList)
      ensures fresh(units) && units.items == UnitsOf(rawText, maxChunkSize)
    {
      hide IsSpace;
      hide MatchAt;
      hide NextMatch;
      hide Strip;
      hide Split;
      hide SplitAll;
      hide Sentences;
      hide SeparatorFor;
      hide Normalize;
      var normalized := Normalize(rawText);
      units := new UnitList();
      var start := 0;
      var separator := "";
      var boundary := NextMatch(normalized, start);
      while boundary.Some?
        invariant fresh(units) && start <= |normalized| && boundary == NextMatch(normalized, start)
        invariant units.items + SplitAll(Sentences(normalized, start, separator), maxChunkSize)
               == SplitAll(Sentences(normalized, 0, ""), maxChunkSize)
        decreases |normalized| - start
      {
        var (lo, hi) := boundary.value;
        MatchIsSpace(normalized, lo);
        SplitAllStep(normalized, start, separator, maxChunkSize);
        var sentence := Strip(normalized[start..lo]);
        if sentence != "" {
          AppendSentence(units, sentence, separator);
        }
        separator := SeparatorFor(normalized[lo..hi]);
        start := hi;
        boundary := NextMatch(normalized, start);
      }
      SplitAllEnd(normalized, start, separator, maxChunkSize);
      var sentence := Strip(normalized[start..]);
      if sentence != "" {
        AppendSentence(units, sentence, separator);
      }
    }

    /** Group the units of a text greedily. */
    method Chunk(rawText: string) returns (chunks: seq<string>)
      ensures chunks == ChunkText(rawText, maxChunkSize)
      ensures chunks == [] <==> AllSpace(rawText)
      ensures forall c :: c in chunks ==> c != "" && |c| <= maxChunkSize && Trimmed(c)
      ensures FlatWords(chunks) == FlatPieces(Words(rawText), maxChunkSize)
      ensures KeepsParagraphs(chunks, rawText, maxChunkSize)
    {
      ghost var specified := ChunkText(rawText, maxChunkSize);
      NoChunksIffBlank(rawText, maxChunkSize);
      ChunksOk(rawText, maxChunkSize);
      ChunksHoldTheWords(rawText, maxChunkSize);
      ParagraphsAreKept(rawText, maxChunkSize);
      hide KeepsParagraphs;
      hide IsSpace;
      hide Words;
      hide FlatWords;
      hide FlatPieces;
      hide AllSpace;
      hide Trimmed;
      var list := Units(rawText);
      hide UnitsOf;
      var units := list.items;
      if |units| == 0 {
        return [];
      }
      if |units| == 1 {
        return [units[0].text];
      }
      chunks := [];
      var current := units[0].text;
      for k := 1 to |units|
        invariant chunks + Greedy(current, units[k..], maxChunkSize) == specified
      {
        var Unit(text, separator) := units[k];
        var candidate := current + separator + text;
        if |candidate| > maxChunkSize {
          chunks := chunks + [current];
          current := text;
        } else {
          current := candidate;
        }
      }
      chunks := chunks + [current];
    }
  }

  /** One round of the splitting loop. */
  lemma SplitStep(s: string, limit: Limit)
    requires |s| > limit
    ensures LastSpace(s, limit) > 0 ==>
              Split(s, limit) == [RStrip(s[..LastSpace(s, limit)])] + Split(LStrip(s[LastSpace(s, limit)..]), limit)
    ensures LastSpace(s, limit) == 0 ==> Split(s, limit) == [s[..limit]] + Split(LStrip(s[limit..]), limit)
  {
    hide IsSpace;
    hide LStrip;
    hide RStrip;
  }

  /** One boundary of the scan, as the loop of `Units` consumes it. */
  lemma SplitAllStep(s: string, start: nat, separator: string, limit: Limit)
    requires start <= |s| && NextMatch(s, start).Some?
    ensures var (lo, hi) := NextMatch(s, start).value;
            var sentence := Strip(s[start..lo]);
            hi <= |s| &&
            SplitAll(Sentences(s, start, separator), limit)
              == (if sentence == "" then [] else Parts(Split(sentence, limit), separator))
                 + SplitAll(Sentences(s, hi, SeparatorFor(s[lo..hi])), limit)
  {
    hide IsSpace;
    hide MatchAt;
    hide Strip;
    hide Split;
    var (lo, hi) := NextMatch(s, start).value;
    MatchIsSpace(s, lo);
    var rest := Sentences(s, hi, SeparatorFor(s[lo..hi]));
    var sentence := Strip(s[start..lo]);
    if sentence == "" {
      assert Sentences(s, start, separator) == [] + rest == rest;
    } else {
      assert Sentences(s, start, separator) == [Unit(sentence, separator)] + rest;
    }
  }

  lemma SplitAllEnd(s: string, start: nat, separator: string, limit: Limit)
    requires start <= |s| && NextMatch(s, start).None?
    ensures var sentence := Strip(s[start..]);
            SplitAll(Sentences(s, start, separator), limit)
              == if sentence == "" then [] else Parts(Split(sentence, limit), separator)
  {
    hide IsSpace;
    hide Strip;
    hide Split;
    var sentence := Strip(s[start..]);
    if sentence != "" {
      assert SplitAll([Unit(sentence, separator)], limit)
          == Parts(Split(sentence, limit), separator) + SplitAll([], limit);
    }
  }
}
