/** The regrouping loop against every other way to cut the unit list into consecutive groups. */
module Regrouping {
  import opened SentenceScanner
  import opened Chunking

  /** The texts of consecutive groups: `cuts[k]` starts a new group at `rest[k]`. */
  function Regroup(current: string, rest: seq<Unit>, cuts: seq<bool>): seq<string>
    requires |cuts| == |rest|
    decreases |rest|
  {
    if rest == [] then [current]
    else if cuts[0] then [current] + Regroup(rest[0].text, rest[1..], cuts[1..])
    else Regroup(current + rest[0].separator + rest[0].text, rest[1..], cuts[1..])
  }

  predicate AllFit(chunks: seq<string>, limit: Limit) {
    forall c :: c in chunks ==> |c| <= limit
  }

  /** At every cut, the group before it could not also have taken the next unit. */
  predicate NoRoomAtCuts(current: string, rest: seq<Unit>, cuts: seq<bool>, limit: Limit)
    requires |cuts| == |rest|
    decreases |rest|
  {
    rest == [] ||
    var candidate := current + rest[0].separator + rest[0].text;
    if cuts[0] then |candidate| > limit && NoRoomAtCuts(rest[0].text, rest[1..], cuts[1..], limit)
    else NoRoomAtCuts(candidate, rest[1..], cuts[1..], limit)
  }

  function GreedyCuts(current: string, rest: seq<Unit>, limit: Limit): (cuts: seq<bool>)
    ensures |cuts| == |rest|
    decreases |rest|
  {
    if rest == [] then []
    else
      var candidate := current + rest[0].separator + rest[0].text;
      if |candidate| > limit then [true] + GreedyCuts(rest[0].text, rest[1..], limit)
      else [false] + GreedyCuts(candidate, rest[1..], limit)
  }

  /** The loop's output is a grouping of the whole unit list that wastes no room at any cut. */
  lemma {:induction false} GreedyWastesNoRoom(current: string, rest: seq<Unit>, limit: Limit)
    ensures var cuts := GreedyCuts(current, rest, limit);
            Greedy(current, rest, limit) == Regroup(current, rest, cuts) && NoRoomAtCuts(current, rest, cuts, limit)
    decreases |rest|
  {
    if rest != [] {
      GreedyWastesNoRoom(rest[0].text, rest[1..], limit);
      GreedyWastesNoRoom(current + rest[0].separator + rest[0].text, rest[1..], limit);
      var cuts := GreedyCuts(current, rest, limit);
      assert cuts[1..] == GreedyCuts(rest[0].text, rest[1..], limit)
          || cuts[1..] == GreedyCuts(current + rest[0].separator + rest[0].text, rest[1..], limit);
    }
  }

  lemma {:induction false} FirstFits(current: string, rest: seq<Unit>, cuts: seq<bool>, limit: Limit)
    requires |cuts| == |rest| && AllFit(Regroup(current, rest, cuts), limit)
    ensures |current| <= limit
    decreases |rest|
  {
    if rest == [] {
      assert current in Regroup(current, rest, cuts);
    } else if cuts[0] {
      assert Regroup(current, rest, cuts)[0] == current;
    } else {
      FirstFits(current + rest[0].separator + rest[0].text, rest[1..], cuts[1..], limit);
    }
  }

  lemma RestFits(current: string, rest: seq<Unit>, cuts: seq<bool>, limit: Limit)
    requires |cuts| == |rest| > 0 && cuts[0] && AllFit(Regroup(current, rest, cuts), limit)
    ensures AllFit(Regroup(rest[0].text, rest[1..], cuts[1..]), limit)
    ensures |Regroup(current, rest, cuts)| == 1 + |Regroup(rest[0].text, rest[1..], cuts[1..])|
  {
    var tail := Regroup(rest[0].text, rest[1..], cuts[1..]);
    assert Regroup(current, rest, cuts) == [current] + tail;
    assert forall c :: c in tail ==> c in [current] + tail;
  }

  /** It is the only such grouping: fitting and wasting no room determines the output. */
  lemma {:induction false} GreedyIsTheOne(current: string, rest: seq<Unit>, cuts: seq<bool>, limit: Limit)
    requires |cuts| == |rest| && AllFit(Regroup(current, rest, cuts), limit)
    requires NoRoomAtCuts(current, rest, cuts, limit)
    ensures Greedy(current, rest, limit) == Regroup(current, rest, cuts)
    decreases |rest|
  {
    if rest != [] {
      if cuts[0] {
        RestFits(current, rest, cuts, limit);
        GreedyIsTheOne(rest[0].text, rest[1..], cuts[1..], limit);
      } else {
        FirstFits(current + rest[0].separator + rest[0].text, rest[1..], cuts[1..], limit);
        GreedyIsTheOne(current + rest[0].separator + rest[0].text, rest[1..], cuts[1..], limit);
      }
    }
  }

  /** The loop stays ahead: a shorter open group never leads to more groups. */
  lemma {:induction false} GreedyStaysAhead(mine: string, other: string, rest: seq<Unit>, cuts: seq<bool>, limit: Limit)
    requires |cuts| == |rest| && |mine| <= |other| && AllFit(Regroup(other, rest, cuts), limit)
    ensures |Greedy(mine, rest, limit)| <= |Regroup(other, rest, cuts)|
    decreases |rest|, 1
  {
    if rest != [] {
      var u := rest[0];
      if cuts[0] {
        RestFits(other, rest, cuts, limit);
        GreedyStaysAhead(u.text, u.text, rest[1..], cuts[1..], limit);
        GreedyOneSpare(mine + u.separator + u.text, u.text, rest[1..], cuts[1..], limit);
      } else {
        FirstFits(other + u.separator + u.text, rest[1..], cuts[1..], limit);
        GreedyStaysAhead(mine + u.separator + u.text, other + u.separator + u.text, rest[1..], cuts[1..], limit);
      }
    }
  }

  /** With one group in hand, the loop's open group may even be the longer one. */
  lemma {:induction false} GreedyOneSpare(mine: string, other: string, rest: seq<Unit>, cuts: seq<bool>, limit: Limit)
    requires |cuts| == |rest| && AllFit(Regroup(other, rest, cuts), limit)
    ensures |Greedy(mine, rest, limit)| <= |Regroup(other, rest, cuts)| + 1
    decreases |rest|, 0
  {
    if rest != [] {
      var u := rest[0];
      if cuts[0] {
        RestFits(other, rest, cuts, limit);
        GreedyStaysAhead(u.text, u.text, rest[1..], cuts[1..], limit);
        GreedyOneSpare(mine + u.separator + u.text, u.text, rest[1..], cuts[1..], limit);
      } else {
        GreedyStaysAhead(u.text, other + u.separator + u.text, rest[1..], cuts[1..], limit);
        GreedyOneSpare(mine + u.separator + u.text, other + u.separator + u.text, rest[1..], cuts[1..], limit);
      }
    }
  }

  /** No split of the unit list into consecutive fitting groups has fewer groups than `chunk`. */
  lemma ChunkCountIsMinimal(raw: string, limit: Limit, cuts: seq<bool>)
    requires var units := UnitsOf(raw, limit);
             units != [] && |cuts| == |units| - 1 && AllFit(Regroup(units[0].text, units[1..], cuts), limit)
    ensures |ChunkText(raw, limit)| <= |Regroup(UnitsOf(raw, limit)[0].text, UnitsOf(raw, limit)[1..], cuts)|
  {
    hide UnitsOf;
    var units := UnitsOf(raw, limit);
    GreedyStaysAhead(units[0].text, units[0].text, units[1..], cuts, limit);
  }
}
