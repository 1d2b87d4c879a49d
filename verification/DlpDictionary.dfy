/** `DLPScanner._dictionary_spans` of src/app/dlp.py: terms are searched in the case-folded text and mapped back.
    Folding one character gives any text, and `word` tells letters, digits and the underscore. */
module DlpDictionary {
  import opened Prelude

  // ---------------------------------------------------------------- folding and its origins

  function Folded(text: string, fold: char -> string): string {
    if |text| == 0 then "" else Folded(text[..|text| - 1], fold) + fold(text[|text| - 1])
  }

  /** `folded_origins`: the source index of each folded character. */
  function Origins(text: string, fold: char -> string): seq<nat> {
    if |text| == 0 then []
    else Origins(text[..|text| - 1], fold) + Repeat(|text| - 1, |fold(text[|text| - 1])|)
  }

  predicate Nondecreasing(s: seq<nat>) { forall i, j :: 0 <= i <= j < |s| ==> s[i] <= s[j] }

  /** One origin per folded character, in range, in order, and none skipped. */
  lemma {:induction false} OriginsAligned(text: string, fold: char -> string)
    ensures |Origins(text, fold)| == |Folded(text, fold)| && Nondecreasing(Origins(text, fold))
    ensures forall i :: 0 <= i < |Origins(text, fold)| ==> Origins(text, fold)[i] < |text|
    ensures forall p :: 0 <= p < |text| && fold(text[p]) != "" ==> p in Origins(text, fold)
  {
    if |text| > 0 {
      var n := |text| - 1;
      OriginsAligned(text[..n], fold);
      var front, all := Origins(text[..n], fold), Origins(text, fold);
      var k := |fold(text[n])|;
      assert forall i :: 0 <= i < |front| ==> all[i] == front[i];
      assert forall i :: |front| <= i < |all| ==> all[i] == n;
      forall p | 0 <= p < |text| && fold(text[p]) != "" ensures p in all {
        if p < n {
          assert text[..n][p] == text[p];
          assert p in front;
        } else {
          assert all[|front|] == n;
        }
      }
    }
  }

  datatype Range = Range(start: nat, end: nat)

  /** The source range reported for a match of the folded text. */
  function SourceRange(origins: seq<nat>, start: nat, end: nat): Range
    requires start < end <= |origins|
  {
    Range(origins[start], origins[end - 1] + 1)
  }

  predicate Feeds(origins: seq<nat>, p: nat, start: nat, end: nat)
    requires start <= end <= |origins|
  {
    exists i :: start <= i < end && origins[i] == p
  }

  /** The reported range is exact: it holds every source character that feeds the match, it begins and ends
      with one, and any other character inside it folds to nothing. */
  lemma RangeIsExact(text: string, fold: char -> string, start: nat, end: nat, p: nat)
    requires start < end <= |Origins(text, fold)| && p < |text|
    ensures var o := Origins(text, fold);
      var r := SourceRange(o, start, end);
      && r.end <= |text| && Feeds(o, r.start, start, end) && Feeds(o, r.end - 1, start, end)
      && (Feeds(o, p, start, end) ==> r.start <= p < r.end)
      && (r.start <= p < r.end && fold(text[p]) != "" ==> Feeds(o, p, start, end))
  {
    var o := Origins(text, fold);
    var r := SourceRange(o, start, end);
    OriginsAligned(text, fold);
    assert o[start] == r.start && o[end - 1] == r.end - 1;
    if r.start <= p < r.end && fold(text[p]) != "" {
      var i :| 0 <= i < |o| && o[i] == p;
      if p == r.start {
        assert o[start] == p;
      } else if p == r.end - 1 {
        assert o[end - 1] == p;
      } else {
        assert start < i < end - 1;
      }
    }
  }

  // ---------------------------------------------------------------- a scan that jumps over what it finds

  /** The first position from `p` on, below `n`, that passes. */
  function Next(n: nat, at: nat -> bool, p: nat): (r: Option<nat>)
    ensures r.Some? ==> p <= r.value < n && at(r.value)
    ensures forall q :: p <= q < (if r.Some? then r.value else n) ==> !at(q)
    decreases if p < n then n - p else 0
  {
    if p >= n then None else if at(p) then Some(p) else Next(n, at, p + 1)
  }

  /** The positions the scan stops at from `cursor` on, going on `step` after each. */
  function Stops(n: nat, at: nat -> bool, step: nat, cursor: nat): seq<nat>
    requires step > 0
    decreases if cursor < n then n - cursor else 0
  {
    var r := Next(n, at, cursor);
    if r.None? then [] else [r.value] + Stops(n, at, step, r.value + step)
  }

  /** Those of the stops that are kept. */
  function Kept(n: nat, at: nat -> bool, step: nat, keep: nat -> bool, cursor: nat): seq<nat>
    requires step > 0
    decreases if cursor < n then n - cursor else 0
  {
    var r := Next(n, at, cursor);
    if r.None? then []
    else (if keep(r.value) then [r.value] else []) + Kept(n, at, step, keep, r.value + step)
  }

  lemma {:induction false} StopsPass(n: nat, at: nat -> bool, step: nat, cursor: nat, p: nat)
    requires step > 0 && p in Stops(n, at, step, cursor)
    ensures cursor <= p < n && at(p)
    decreases if cursor < n then n - cursor else 0
  {
    var first := Next(n, at, cursor).value;
    if p != first { StopsPass(n, at, step, first + step, p); }
  }

  /** A passing position is passed over only when it lies within a step of an earlier stop. */
  lemma {:induction false} NearestStop(n: nat, at: nat -> bool, step: nat, cursor: nat, p: nat) returns (r: nat)
    requires step > 0 && cursor <= p < n && at(p)
    ensures r in Stops(n, at, step, cursor) && r <= p < r + step
    decreases n - cursor
  {
    var first := Next(n, at, cursor).value;
    if p < first + step { r := first; } else { r := NearestStop(n, at, step, first + step, p); }
  }

  lemma {:induction false} KeptAre(n: nat, at: nat -> bool, step: nat, keep: nat -> bool, cursor: nat, p: nat)
    requires step > 0
    ensures p in Kept(n, at, step, keep, cursor) <==> p in Stops(n, at, step, cursor) && keep(p)
    decreases if cursor < n then n - cursor else 0
  {
    var r := Next(n, at, cursor);
    if r.Some? {
      KeptAre(n, at, step, keep, r.value + step, p);
      var rest, stops := Kept(n, at, step, keep, r.value + step), Stops(n, at, step, r.value + step);
      assert Stops(n, at, step, cursor) == [r.value] + stops;
      assert Kept(n, at, step, keep, cursor) == (if keep(r.value) then [r.value] else []) + rest;
      assert p in [r.value] + stops <==> p == r.value || p in stops;
      assert keep(r.value) ==> (p in [r.value] + rest <==> p == r.value || p in rest);
    }
  }

  // ---------------------------------------------------------------- searching for a term

  predicate Occurs(s: string, t: string, p: nat) { p + |t| <= |s| && s[p..p + |t|] == t }

  function Occurrences(s: string, t: string): nat -> bool { (p: nat) => Occurs(s, t, p) }

  /** `whole_word`: no word character touches the match. */
  predicate Bounded(s: string, t: string, p: nat, word: char -> bool) {
    && !(0 < p <= |s| && word(s[p - 1]))
    && !(p + |t| < |s| && word(s[p + |t|]))
  }

  function Acceptable(s: string, t: string, whole: bool, word: char -> bool): nat -> bool {
    (p: nat) => !whole || Bounded(s, t, p, word)
  }

  /** Where the search for a term stops, and which of these matches it reports. */
  function Found(s: string, t: string): seq<nat>
    requires |t| > 0
  {
    Stops(|s| + 1, Occurrences(s, t), |t|, 0)
  }

  function Hits(s: string, t: string, whole: bool, word: char -> bool): seq<nat>
    requires |t| > 0
  {
    Kept(|s| + 1, Occurrences(s, t), |t|, Acceptable(s, t, whole, word), 0)
  }

  lemma KeptTurn(n: nat, at: nat -> bool, step: nat, keep: nat -> bool, cursor: nat, hits: seq<nat>)
    requires step > 0 && Next(n, at, cursor).Some?
    ensures var p := Next(n, at, cursor).value;
      Remaining(n, at, step, keep, cursor, hits)
      == Remaining(n, at, step, keep, p + step, hits + (if keep(p) then [p] else []))
  {
    var p := Next(n, at, cursor).value;
    Associative(hits, if keep(p) then [p] else [], Kept(n, at, step, keep, p + step));
  }

  /** The search loop, over any test for a match. */
  method Search(n: nat, at: nat -> bool, step: nat, keep: nat -> bool) returns (hits: seq<nat>)
    requires step > 0
    ensures hits == Kept(n, at, step, keep, 0)
  {
    hits := [];
    var cursor := 0;
    while Next(n, at, cursor).Some?
      invariant Remaining(n, at, step, keep, cursor, hits) == Kept(n, at, step, keep, 0)
      decreases if cursor < n then n - cursor else 0
    {
      var start := Next(n, at, cursor).value;
      KeptTurn(n, at, step, keep, cursor, hits);
      cursor := start + step;
      hits := hits + (if keep(start) then [start] else []);
    }
    assert hits + [] == hits;
  }

  /** The matches kept so far and those still to come. */
  function Remaining(n: nat, at: nat -> bool, step: nat, keep: nat -> bool, cursor: nat, hits: seq<nat>): seq<nat>
    requires step > 0
  {
    hits + Kept(n, at, step, keep, cursor)
  }

  /** One term in one text: the reported matches and their source ranges. */
  method SearchTerm(s: string, origins: seq<nat>, t: string, whole: bool, word: char -> bool)
    returns (ranges: seq<Range>)
    requires |t| > 0 && |origins| == |s|
    ensures |ranges| == |Hits(s, t, whole, word)|
    ensures forall i :: 0 <= i < |ranges| ==>
      var p := Hits(s, t, whole, word)[i]; p + |t| <= |s| && ranges[i] == SourceRange(origins, p, p + |t|)
  {
    var hits := Search(|s| + 1, Occurrences(s, t), |t|, Acceptable(s, t, whole, word));
    HitsOccur(s, t, whole, word);
    assert hits == Hits(s, t, whole, word);
    assert forall k :: 0 <= k < |hits| ==> hits[k] + |t| <= |s|;
    ranges := [];
    for i := 0 to |hits|
      invariant |ranges| == i && forall k :: 0 <= k < i ==> ranges[k] == SourceRange(origins, hits[k], hits[k] + |t|)
    {
      ranges := ranges + [SourceRange(origins, hits[i], hits[i] + |t|)];
    }
  }

  lemma HitsOccur(s: string, t: string, whole: bool, word: char -> bool)
    requires |t| > 0
    ensures forall i :: 0 <= i < |Hits(s, t, whole, word)| ==> Hits(s, t, whole, word)[i] + |t| <= |s|
  {
    forall i | 0 <= i < |Hits(s, t, whole, word)| ensures Hits(s, t, whole, word)[i] + |t| <= |s| {
      var p := Hits(s, t, whole, word)[i];
      KeptAre(|s| + 1, Occurrences(s, t), |t|, Acceptable(s, t, whole, word), 0, p);
      StopsPass(|s| + 1, Occurrences(s, t), |t|, 0, p);
    }
  }

  // ---------------------------------------------------------------- which occurrences are found

  /** A proper border of length `b`: the term ends as it begins. */
  predicate Border(t: string, b: nat) { 0 < b < |t| && t[|t| - b..] == t[..b] }

  predicate Unbordered(t: string) { forall b :: 0 < b < |t| ==> !Border(t, b) }

  /** Two overlapping occurrences show a border. */
  lemma OverlapIsBorder(s: string, t: string, r: nat, p: nat)
    requires Occurs(s, t, r) && Occurs(s, t, p) && r < p < r + |t|
    ensures Border(t, r + |t| - p)
  {
    var b := r + |t| - p;
    assert s[r..r + |t|][p - r..] == s[p..r + |t|];
    assert s[p..p + |t|][..b] == s[p..p + b];
  }

  /** Every occurrence of a term without a border is found, in every text. */
  lemma UnborderedAllFound(s: string, t: string, p: nat)
    requires |t| > 0 && Unbordered(t) && Occurs(s, t, p)
    ensures p in Found(s, t)
  {
    var r := NearestStop(|s| + 1, Occurrences(s, t), |t|, 0, p);
    if r != p {
      StopsPass(|s| + 1, Occurrences(s, t), |t|, 0, r);
      OverlapIsBorder(s, t, r, p);
    }
  }

  /** For such a term the reported matches are exactly the occurrences that pass the whole-word test. */
  lemma UnborderedHits(s: string, t: string, whole: bool, word: char -> bool, p: nat)
    requires |t| > 0 && Unbordered(t)
    ensures p in Hits(s, t, whole, word) <==> Occurs(s, t, p) && (whole ==> Bounded(s, t, p, word))
  {
    KeptAre(|s| + 1, Occurrences(s, t), |t|, Acceptable(s, t, whole, word), 0, p);
    if Occurs(s, t, p) { UnborderedAllFound(s, t, p); }
    if p in Found(s, t) { StopsPass(|s| + 1, Occurrences(s, t), |t|, 0, p); }
  }

  lemma BorderOccurs(t: string, b: nat)
    requires Border(t, b)
    ensures Occurs(t + t[b..], t, |t| - b) && Occurs(t + t[b..], t, 0)
  {
    var s, p := t + t[b..], |t| - b;
    assert s[p..p + |t|] == t[p..] + t[b..];
    assert t == t[..b] + t[b..];
    assert s[0..0 + |t|] == t;
  }

  /** A term with a border has a text with an occurrence that is passed over. */
  lemma BorderedMissesOne(t: string, b: nat)
    requires Border(t, b)
    ensures Occurs(t + t[b..], t, |t| - b) && |t| - b !in Found(t + t[b..], t)
  {
    var s, p := t + t[b..], |t| - b;
    BorderOccurs(t, b);
    FirstStopOnly(|s| + 1, Occurrences(s, t), |t|, 0, p);
  }

  /** Nothing strictly between a stop and the end of its step is a stop. */
  lemma FirstStopOnly(n: nat, at: nat -> bool, step: nat, first: nat, p: nat)
    requires step > 0 && first < n && at(first) && first < p < first + step
    ensures p !in Stops(n, at, step, first)
  {
    assert Next(n, at, first) == Some(first);
    StopsFrom(n, at, step, first + step, p);
  }

  lemma StopsFrom(n: nat, at: nat -> bool, step: nat, cursor: nat, p: nat)
    requires step > 0 && p < cursor
    ensures p !in Stops(n, at, step, cursor)
    decreases if cursor < n then n - cursor else 0
  {
    var r := Next(n, at, cursor);
    if r.Some? { StopsFrom(n, at, step, r.value + step, p); }
  }

  /** The search finds every occurrence in every text exactly for the terms without a border. */
  lemma AllFoundIffUnbordered(t: string)
    requires |t| > 0
    ensures (forall s, p :: Occurs(s, t, p) ==> p in Found(s, t)) <==> Unbordered(t)
  {
    if Unbordered(t) {
      forall s, p | Occurs(s, t, p) ensures p in Found(s, t) { UnborderedAllFound(s, t, p); }
    } else {
      var b :| 0 < b < |t| && Border(t, b);
      BorderedMissesOne(t, b);
    }
  }

  /** Every border is preceded, inside the term, by a word character. */
  ghost predicate WordBeforeBorders(t: string, word: char -> bool) {
    forall b :: 0 < b < |t| && Border(t, b) ==> word(t[|t| - b - 1])
  }

  lemma CharacterBefore(s: string, t: string, r: nat, p: nat)
    requires Occurs(s, t, r) && r < p <= r + |t|
    ensures s[p - 1] == t[p - r - 1]
  {
    assert s[r..r + |t|][p - r - 1] == s[p - 1];
  }

  /** A bounded occurrence cannot begin inside an earlier stop when every border has a word character before it. */
  lemma BoundedIsFound(s: string, t: string, word: char -> bool, p: nat)
    requires |t| > 0 && WordBeforeBorders(t, word) && Occurs(s, t, p) && Bounded(s, t, p, word)
    ensures p in Found(s, t)
  {
    var r := NearestStop(|s| + 1, Occurrences(s, t), |t|, 0, p);
    if r != p {
      StopsPass(|s| + 1, Occurrences(s, t), |t|, 0, r);
      CharacterBefore(s, t, r, p);
      OverlapIsBorder(s, t, r, p);
    }
  }

  predicate BoundedIsReported(s: string, t: string, p: nat, word: char -> bool)
    requires |t| > 0
  {
    Occurs(s, t, p) && Bounded(s, t, p, word) ==> p in Hits(s, t, true, word)
  }

  lemma GuardedIsReported(s: string, t: string, word: char -> bool, p: nat)
    requires |t| > 0 && WordBeforeBorders(t, word) && Occurs(s, t, p) && Bounded(s, t, p, word)
    ensures p in Hits(s, t, true, word)
  {
    BoundedIsFound(s, t, word, p);
    KeptAre(|s| + 1, Occurrences(s, t), |t|, Acceptable(s, t, true, word), 0, p);
  }

  /** Where a border has none, the whole-word search misses a bounded occurrence. */
  lemma UnguardedBorderMisses(t: string, word: char -> bool, b: nat)
    requires Border(t, b) && !word(t[|t| - b - 1])
    ensures var s, p := t + t[b..], |t| - b;
      Occurs(s, t, p) && Bounded(s, t, p, word) && p !in Hits(s, t, true, word)
  {
    var s, p := t + t[b..], |t| - b;
    BorderedMissesOne(t, b);
    assert s[p - 1] == t[p - 1];
    KeptAre(|s| + 1, Occurrences(s, t), |t|, Acceptable(s, t, true, word), 0, p);
  }

  /** The whole-word search, which is the default, reports every bounded occurrence in every text exactly for the
      terms whose borders are all preceded by a word character. */
  lemma AllBoundedReportedIff(t: string, word: char -> bool)
    requires |t| > 0
    ensures (forall s, p :: BoundedIsReported(s, t, p, word)) <==> WordBeforeBorders(t, word)
  {
    if WordBeforeBorders(t, word) {
      forall s, p ensures BoundedIsReported(s, t, p, word) {
        if Occurs(s, t, p) && Bounded(s, t, p, word) { GuardedIsReported(s, t, word, p); }
      }
    } else {
      var b :| 0 < b < |t| && Border(t, b) && !word(t[|t| - b - 1]);
      UnguardedBorderMisses(t, word, b);
      assert !BoundedIsReported(t + t[b..], t, |t| - b, word);
    }
  }

  /** With the whole-word test even a clean match can be missed: in "xa a a" the search for "a a" stops inside the
      first word, rejects that match, and jumps over the one that is bounded on both sides. */
  lemma WholeWordMiss(word: char -> bool)
    requires word('x') && word('a') && !word(' ')
    ensures Occurs("xa a a", "a a", 3) && Bounded("xa a a", "a a", 3, word) && 3 !in Hits("xa a a", "a a", true, word)
  {
    var s, t := "xa a a", "a a";
    var at := Occurrences(s, t);
    assert s[0..0 + 3] == "xa " && s[1..1 + 3] == "a a" && s[3..3 + 3] == "a a";
    assert !at(0) && at(1);
    assert Next(7, at, 0) == Next(7, at, 1) == Some(1);
    KeptAre(7, at, 3, Acceptable(s, t, true, word), 0, 3);
    StopsFrom(7, at, 3, 4, 3);
  }
}
