/** Cleaning of generated ad texts: strip, drop invalid ones, drop case-insensitive duplicates, cut. */
module AdCleaning {
  import opened Prelude
  import opened Text

  /** Case folding; nothing is assumed of it. */
  type Fold = string -> string

  predicate ValidText(t: string, maxLen: nat) {
    t != "" && |t| <= maxLen
  }

  function ValidTexts(items: seq<string>, maxLen: nat): seq<string> {
    if items == [] then []
    else
      var t := Strip(Last(items));
      var front := ValidTexts(items[..|items| - 1], maxLen);
      if ValidText(t, maxLen) then front + [t] else front
  }

  ghost predicate Seen(ts: seq<string>, key: string, fold: Fold) {
    exists i :: 0 <= i < |ts| && fold(ts[i]) == key
  }

  /** The texts that do not repeat an earlier one up to `fold`. */
  ghost function FirstOccurrences(ts: seq<string>, fold: Fold): seq<string> {
    if ts == [] then []
    else
      var front := ts[..|ts| - 1];
      if Seen(front, fold(Last(ts)), fold) then FirstOccurrences(front, fold)
      else FirstOccurrences(front, fold) + [Last(ts)]
  }

  function Take<T>(s: seq<T>, n: nat): seq<T> {
    if n < |s| then s[..n] else s
  }

  /** How many texts the loop can keep: it looks at the limit only after adding one. */
  function Room(maxCount: nat): nat {
    if maxCount == 0 then 1 else maxCount
  }

  /** The first `maxCount` of the first occurrences of valid stripped items (at least one is allowed). */
  ghost function Cleaned(items: seq<string>, maxLen: nat, maxCount: nat, fold: Fold): seq<string> {
    Take(FirstOccurrences(ValidTexts(items, maxLen), fold), Room(maxCount))
  }

  // ---------------------------------------------------------------- what cleaning achieves

  ghost predicate DistinctUnder(ts: seq<string>, fold: Fold) {
    forall i, j :: 0 <= i < j < |ts| ==> fold(ts[i]) != fold(ts[j])
  }

  ghost predicate AllClean(ts: seq<string>, maxLen: nat) {
    forall i :: 0 <= i < |ts| ==> ValidText(ts[i], maxLen) && Trimmed(ts[i])
  }

  lemma {:induction false} ValidTextsAreClean(items: seq<string>, maxLen: nat)
    ensures AllClean(ValidTexts(items, maxLen), maxLen)
  {
    if items == [] {
    } else {
      ValidTextsAreClean(items[..|items| - 1], maxLen);
      var _, _ := StripCuts(Last(items));
    }
  }

  lemma SeenAppend(ts: seq<string>, t: string, key: string, fold: Fold)
    ensures Seen(ts + [t], key, fold) <==> Seen(ts, key, fold) || fold(t) == key
  {
    if Seen(ts, key, fold) {
      var i :| 0 <= i < |ts| && fold(ts[i]) == key;
      assert (ts + [t])[i] == ts[i];
    }
    if fold(t) == key {
      assert (ts + [t])[|ts|] == t;
    }
  }

  lemma {:induction false} FirstOccurrencesSubset(ts: seq<string>, fold: Fold)
    ensures forall t :: t in FirstOccurrences(ts, fold) ==> t in ts
    ensures forall key :: Seen(FirstOccurrences(ts, fold), key, fold) <==> Seen(ts, key, fold)
    ensures DistinctUnder(FirstOccurrences(ts, fold), fold)
  {
    if ts == [] {
    } else {
      var front := ts[..|ts| - 1];
      FirstOccurrencesSubset(front, fold);
      var kept := FirstOccurrences(front, fold);
      forall key ensures Seen(FirstOccurrences(ts, fold), key, fold) <==> Seen(ts, key, fold) {
        SeenAppend(front, Last(ts), key, fold);
        SeenAppend(kept, Last(ts), key, fold);
        assert front + [Last(ts)] == ts;
      }
      if !Seen(front, fold(Last(ts)), fold) {
        assert !Seen(kept, fold(Last(ts)), fold);
      }
    }
  }

  /** The distinct keys of some texts. */
  ghost function Keys(ts: seq<string>, fold: Fold): set<string> {
    set i | 0 <= i < |ts| :: fold(ts[i])
  }

  lemma {:induction false} DistinctKeysCount(ts: seq<string>, fold: Fold)
    requires DistinctUnder(ts, fold)
    ensures |Keys(ts, fold)| == |ts|
  {
    if ts == [] {
    } else {
      var front := ts[..|ts| - 1];
      DistinctKeysCount(front, fold);
      assert Keys(ts, fold) == Keys(front, fold) + {fold(Last(ts))};
      assert fold(Last(ts)) !in Keys(front, fold);
    }
  }

  /** The result is clean, distinct, no longer than allowed, and as long as the distinct valid texts permit. */
  lemma CleanedIsValid(items: seq<string>, maxLen: nat, maxCount: nat, fold: Fold)
    ensures var out := Cleaned(items, maxLen, maxCount, fold);
            var distinct := |Keys(ValidTexts(items, maxLen), fold)|;
            AllClean(out, maxLen) && DistinctUnder(out, fold) &&
            |out| == if distinct < Room(maxCount) then distinct else Room(maxCount)
  {
    var valid := ValidTexts(items, maxLen);
    var kept := FirstOccurrences(valid, fold);
    ValidTextsAreClean(items, maxLen);
    FirstOccurrencesSubset(valid, fold);
    DistinctKeysCount(kept, fold);
    assert Keys(kept, fold) == Keys(valid, fold) by {
      forall key ensures key in Keys(kept, fold) <==> key in Keys(valid, fold) {
        assert key in Keys(kept, fold) <==> Seen(kept, key, fold);
        assert key in Keys(valid, fold) <==> Seen(valid, key, fold);
      }
    }
    forall i | 0 <= i < |kept| ensures ValidText(kept[i], maxLen) && Trimmed(kept[i]) {
      assert kept[i] in valid;
    }
  }

  lemma DistinctTextsStay(front: seq<string>, last: string, fold: Fold)
    requires DistinctUnder(front + [last], fold) && FirstOccurrences(front, fold) == front
    ensures FirstOccurrences(front + [last], fold) == front + [last]
  {
    var ts := front + [last];
    assert ts[..|ts| - 1] == front && ts[|front|] == last;
    assert forall i :: 0 <= i < |front| ==> ts[i] == front[i];
    assert !Seen(front, fold(last), fold);
  }

  lemma {:induction false} CleanTextsStay(ts: seq<string>, maxLen: nat, fold: Fold)
    requires AllClean(ts, maxLen) && DistinctUnder(ts, fold)
    ensures ValidTexts(ts, maxLen) == ts && FirstOccurrences(ts, fold) == ts
  {
    if ts == [] {
    } else {
      var front := ts[..|ts| - 1];
      CleanTextsStay(front, maxLen, fold);
      StripTrimmed(Last(ts));
      assert ts == front + [Last(ts)];
      assert ValidTexts(ts, maxLen) == ts;
      DistinctTextsStay(front, Last(ts), fold);
    }
  }

  /** Cleaning what is already clean changes nothing. */
  lemma CleanedTwice(items: seq<string>, maxLen: nat, maxCount: nat, fold: Fold)
    ensures var once := Cleaned(items, maxLen, maxCount, fold);
            Cleaned(once, maxLen, maxCount, fold) == once
  {
    CleanedIsValid(items, maxLen, maxCount, fold);
    CleanTextsStay(Cleaned(items, maxLen, maxCount, fold), maxLen, fold);
  }

  /** Item `i` is valid once stripped, and the first such item with its key. */
  ghost predicate FirstOfItsKey(items: seq<string>, maxLen: nat, fold: Fold, i: nat) {
    i < |items| && 1 <= |Strip(items[i])| <= maxLen &&
    forall j :: 0 <= j < i && 1 <= |Strip(items[j])| <= maxLen ==> fold(Strip(items[j])) != fold(Strip(items[i]))
  }

  lemma {:induction false} SeenIsItem(items: seq<string>, maxLen: nat, fold: Fold, key: string)
    ensures Seen(ValidTexts(items, maxLen), key, fold) <==>
            exists j :: 0 <= j < |items| && 1 <= |Strip(items[j])| <= maxLen && fold(Strip(items[j])) == key
  {
    if items == [] {
    } else {
      var front, t := items[..|items| - 1], Strip(Last(items));
      SeenIsItem(front, maxLen, fold, key);
      SeenAppend(ValidTexts(front, maxLen), t, key, fold);
      if j :| 0 <= j < |items| && 1 <= |Strip(items[j])| <= maxLen && fold(Strip(items[j])) == key {
        assert j == |items| - 1 || front[j] == items[j];
      }
    }
  }

  /** `at` lists items that are the first of their keys, in order, and `out` their stripped texts. */
  ghost predicate PicksFirsts(items: seq<string>, maxLen: nat, fold: Fold, out: seq<string>, at: seq<nat>) {
    |at| == |out| && (forall k, m :: 0 <= k < m < |at| ==> at[k] < at[m]) &&
    forall k :: 0 <= k < |at| ==> FirstOfItsKey(items, maxLen, fold, at[k]) && out[k] == Strip(items[at[k]])
  }

  /** Being the first of a key among all items or all but the last is the same, but for the last item itself. */
  lemma FirstsOfFront(items: seq<string>, maxLen: nat, fold: Fold)
    requires items != []
    ensures var front, n := items[..|items| - 1], |items| - 1;
            (forall i: nat :: i < n ==>
               (FirstOfItsKey(front, maxLen, fold, i) <==> FirstOfItsKey(items, maxLen, fold, i))) &&
            (FirstOfItsKey(items, maxLen, fold, n) <==>
              ValidText(Strip(items[n]), maxLen) &&
              !Seen(ValidTexts(front, maxLen), fold(Strip(items[n])), fold))
  {
    var front, n := items[..|items| - 1], |items| - 1;
    SeenIsItem(front, maxLen, fold, fold(Strip(items[n])));
    assert forall j :: 0 <= j < n ==> front[j] == items[j];
  }

  lemma FirstOccurrencesAppend(ts: seq<string>, t: string, fold: Fold)
    ensures FirstOccurrences(ts + [t], fold) ==
            FirstOccurrences(ts, fold) + if Seen(ts, fold(t), fold) then [] else [t]
  {
    assert (ts + [t])[..|ts|] == ts;
  }

  lemma {:induction false} FirstsArePicked(items: seq<string>, maxLen: nat, fold: Fold) returns (at: seq<nat>)
    ensures PicksFirsts(items, maxLen, fold, FirstOccurrences(ValidTexts(items, maxLen), fold), at)
    ensures forall i :: FirstOfItsKey(items, maxLen, fold, i) ==> i in at
  {
    if items == [] {
      at := [];
    } else {
      var n := |items| - 1;
      var front, t := items[..n], Strip(items[n]);
      at := FirstsArePicked(front, maxLen, fold);
      var valid := ValidTexts(front, maxLen);
      FirstsOfFront(items, maxLen, fold);
      if ValidText(t, maxLen) {
        FirstOccurrencesAppend(valid, t, fold);
        if !Seen(valid, fold(t), fold) {
          at := at + [n];
        }
      }
    }
  }

  /**
   Cleaning keeps, in order, the stripped text of every item that is the first of
   its key, as many as there is room for.
   */
  lemma CleanedPicksFirsts(items: seq<string>, maxLen: nat, maxCount: nat, fold: Fold) returns (at: seq<nat>)
    ensures PicksFirsts(items, maxLen, fold, Cleaned(items, maxLen, maxCount, fold), at)
    ensures forall i :: FirstOfItsKey(items, maxLen, fold, i) ==>
              i in at || (|at| == Room(maxCount) && forall k :: 0 <= k < |at| ==> at[k] < i)
  {
    var all := FirstsArePicked(items, maxLen, fold);
    var room := Room(maxCount);
    at := Take(all, room);
    forall i | FirstOfItsKey(items, maxLen, fold, i)
      ensures i in at || (|at| == room && forall k :: 0 <= k < |at| ==> at[k] < i)
    {
      var m :| 0 <= m < |all| && all[m] == i;
      if m < |at| {
        assert at[m] == i;
      }
    }
  }

  // ---------------------------------------------------------------- the loop

  lemma {:induction false} FirstOccurrencesGrow(ts: seq<string>, n: nat, fold: Fold)
    requires n <= |ts|
    ensures FirstOccurrences(ts[..n], fold) <= FirstOccurrences(ts, fold)
  {
    if n < |ts| {
      FirstOccurrencesGrow(ts[..|ts| - 1], n, fold);
      assert ts[..|ts| - 1][..n] == ts[..n];
    } else {
      assert ts[..n] == ts;
    }
  }

  lemma {:induction false} ValidTextsGrow(items: seq<string>, n: nat, maxLen: nat)
    requires n <= |items|
    ensures ValidTexts(items[..n], maxLen) <= ValidTexts(items, maxLen)
  {
    if n < |items| {
      ValidTextsGrow(items[..|items| - 1], n, maxLen);
      assert items[..|items| - 1][..n] == items[..n];
    } else {
      assert items[..n] == items;
    }
  }

  lemma PrefixOfResult(items: seq<string>, n: nat, maxLen: nat, fold: Fold)
    requires n <= |items|
    ensures FirstOccurrences(ValidTexts(items[..n], maxLen), fold) <= FirstOccurrences(ValidTexts(items, maxLen), fold)
  {
    ValidTextsGrow(items, n, maxLen);
    var part, all := ValidTexts(items[..n], maxLen), ValidTexts(items, maxLen);
    FirstOccurrencesGrow(all, |part|, fold);
    assert all[..|part|] == part;
  }

  ghost predicate KeysSeen(seen: set<string>, ts: seq<string>, fold: Fold) {
    forall key :: key in seen <==> Seen(ts, key, fold)
  }

  /** What one more item does to the keys seen and to the result. */
  lemma OneMoreItem(items: seq<string>, n: nat, maxLen: nat, fold: Fold, seen: set<string>)
    requires n < |items|
    requires KeysSeen(seen, ValidTexts(items[..n], maxLen), fold)
    ensures var text := Strip(items[n]);
            var before, after := ValidTexts(items[..n], maxLen), ValidTexts(items[..n + 1], maxLen);
            if ValidText(text, maxLen) && fold(text) !in seen then
              KeysSeen(seen + {fold(text)}, after, fold) &&
              FirstOccurrences(after, fold) == FirstOccurrences(before, fold) + [text]
            else
              KeysSeen(seen, after, fold) && FirstOccurrences(after, fold) == FirstOccurrences(before, fold)
  {
    var text, before := Strip(items[n]), ValidTexts(items[..n], maxLen);
    assert items[..n + 1][..n] == items[..n] && Last(items[..n + 1]) == items[n];
    if ValidText(text, maxLen) {
      assert (before + [text])[..|before|] == before;
      forall key ensures Seen(before + [text], key, fold) <==> Seen(before, key, fold) || fold(text) == key {
        SeenAppend(before, text, key, fold);
      }
    }
  }

  /** `out` and `seen` are what the loop holds after the texts `items`. */
  ghost predicate CleanedSoFar(items: seq<string>, maxLen: nat, fold: Fold, seen: set<string>, out: seq<string>) {
    KeysSeen(seen, ValidTexts(items, maxLen), fold) && out == FirstOccurrences(ValidTexts(items, maxLen), fold)
  }

  /** Stopping after all items, or as soon as there is no room left, gives the specified texts. */
  lemma StoppedInTime(
    items: seq<string>, n: nat, maxLen: nat, maxCount: nat, fold: Fold, seen: set<string>, out: seq<string>)
    requires n <= |items| && CleanedSoFar(items[..n], maxLen, fold, seen, out)
    requires |out| <= Room(maxCount) && (n == |items| || |out| == Room(maxCount))
    ensures out == Cleaned(items, maxLen, maxCount, fold)
  {
    if n < |items| {
      PrefixOfResult(items, n, maxLen, fold);
    } else {
      assert items[..n] == items;
    }
  }

  method Clean(items: seq<string>, maxLen: nat, maxCount: nat, fold: Fold) returns (out: seq<string>)
    ensures out == Cleaned(items, maxLen, maxCount, fold)
  {
    var seen: set<string> := {};
    out := [];
    for n := 0 to |items|
      invariant CleanedSoFar(items[..n], maxLen, fold, seen, out)
      invariant out == [] || |out| < maxCount
    {
      OneMoreItem(items, n, maxLen, fold, seen);
      var text := Strip(items[n]);
      if text == "" || |text| > maxLen {
        continue;
      }
      var key := fold(text);
      if key in seen {
        continue;
      }
      seen := seen + {key};
      out := out + [text];
      assert CleanedSoFar(items[..n + 1], maxLen, fold, seen, out);
      if |out| >= maxCount {
        StoppedInTime(items, n + 1, maxLen, maxCount, fold, seen, out);
        return;
      }
    }
    StoppedInTime(items, |items|, maxLen, maxCount, fold, seen, out);
  }
}
