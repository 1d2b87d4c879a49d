/** Excerpts of a document that is too long to send whole (src/app/chat_files.py): cutting into chunks, choosing
    chunks within a budget, and joining them with a marker at every gap. */
module Excerpts {
  import opened Prelude
  import opened CanonicalJson

  const RESERVE := 400
  const CHUNK := 1800

  function Gap(): (s: string)
    ensures |s| == 7
  {
    "\n\n[\U{2026}]\n\n"
  }

  function OpeningGap(): (s: string)
    ensures |s| == 5
  {
    "[\U{2026}]\n\n"
  }

  function ClosingGap(): (s: string)
    ensures |s| == 5
  {
    "\n\n[\U{2026}]"
  }

  // ---------------------------------------------------------------- chunks

  /** `text.rfind(c, lo, hi)`. */
  function RFind(text: string, c: char, lo: nat, hi: nat): (r: Option<nat>)
    requires hi <= |text|
    ensures r.Some? ==> lo <= r.value < hi && text[r.value] == c && forall k :: r.value < k < hi ==> text[k] != c
    ensures r.None? ==> forall k :: lo <= k < hi ==> text[k] != c
    decreases hi
  {
    if hi <= lo then None
    else if text[hi - 1] == c then Some(hi - 1)
    else RFind(text, c, lo, hi - 1)
  }

  function Concat(pieces: seq<string>): string {
    if |pieces| == 0 then "" else Concat(pieces[..|pieces| - 1]) + pieces[|pieces| - 1]
  }

  /** A break is wanted after a line end in the second half of the chunk, or else after a space there. */
  predicate GoodBreak(text: string, start: nat, end: nat, size: nat)
    requires start < end <= start + size <= |text|
  {
    var half, hard := start + size / 2, start + size;
    || (half < end && text[end - 1] == '\n' && forall k :: end <= k < hard ==> text[k] != '\n')
    || ((forall k :: half <= k < hard ==> text[k] != '\n')
        && half < end && text[end - 1] == ' ' && forall k :: end <= k < hard ==> text[k] != ' ')
    || (end == hard && forall k :: half <= k < hard ==> text[k] != '\n' && text[k] != ' ')
  }

  /** Where the chunk that begins at `start` ends. */
  function ChunkEnd(text: string, start: nat, size: nat): (end: nat)
    requires start < |text| && size > 0
    ensures start < end <= |text| && end <= start + size
    ensures start + size < |text| ==> GoodBreak(text, start, end, size)
    ensures start + size >= |text| ==> end == |text|
  {
    if start + size >= |text| then |text|
    else
      var line := RFind(text, '\n', start + size / 2, start + size);
      if line.Some? then line.value + 1
      else
        var space := RFind(text, ' ', start + size / 2, start + size);
        if space.Some? then space.value + 1 else start + size
  }

  predicate Sized(pieces: seq<string>, size: nat) { forall i :: 0 <= i < |pieces| ==> 0 < |pieces[i]| <= size }

  /** The chunks of the text from `start` on. */
  function ChunksFrom(text: string, start: nat, size: nat): seq<string>
    requires start <= |text| && size > 0
    decreases |text| - start
  {
    if start == |text| then []
    else
      var end := ChunkEnd(text, start, size);
      [text[start..end]] + ChunksFrom(text, end, size)
  }

  /** `_chunks`: the pieces concatenate to the text, and none is empty or longer than the size. */
  method Chunks(text: string, size: nat) returns (pieces: seq<string>)
    requires size > 0
    ensures Concat(pieces) == text && Sized(pieces, size) && (text != "" ==> |pieces| > 0)
    ensures pieces == ChunksFrom(text, 0, size)
  {
    pieces := [];
    var start := 0;
    while start < |text|
      invariant 0 <= start <= |text| && pieces + ChunksFrom(text, start, size) == ChunksFrom(text, 0, size)
    {
      var end := ChunkEnd(text, start, size);
      Associative(pieces, [text[start..end]], ChunksFrom(text, end, size));
      pieces := pieces + [text[start..end]];
      start := end;
    }
    assert pieces + [] == pieces;
    ChunksMakeText(text, 0, size);
    assert text[0..] == text;
  }

  lemma FirstChunk(text: string, start: nat, size: nat) returns (end: nat)
    requires start < |text| && size > 0
    ensures start < end <= |text| && end <= start + size
    ensures ChunksFrom(text, start, size) == [text[start..end]] + ChunksFrom(text, end, size)
  {
    end := ChunkEnd(text, start, size);
  }

  lemma {:induction false} ChunksMakeText(text: string, start: nat, size: nat)
    requires start <= |text| && size > 0
    ensures var pieces := ChunksFrom(text, start, size);
      Concat(pieces) == text[start..] && Sized(pieces, size) && (start < |text| ==> |pieces| > 0)
    decreases |text| - start
  {
    if start < |text| {
      var end := FirstChunk(text, start, size);
      ChunksMakeText(text, end, size);
      ConcatCons(text[start..end], ChunksFrom(text, end, size));
      assert text[start..] == text[start..end] + text[end..];
    }
  }

  lemma {:induction false} ConcatCons(p: string, pieces: seq<string>)
    ensures Concat([p] + pieces) == p + Concat(pieces)
    decreases |pieces|
  {
    if |pieces| == 0 {
      assert [p] + pieces == [p] && Concat([p]) == Concat([]) + p;
    } else {
      var n := |pieces| - 1;
      assert ([p] + pieces)[..n + 1] == [p] + pieces[..n];
      ConcatCons(p, pieces[..n]);
      Associative(p, Concat(pieces[..n]), pieces[n]);
    }
  }

  // ---------------------------------------------------------------- selection

  /** What the chosen chunks from `i` on cost, each with one marker. */
  function Cost(chunks: seq<string>, chosen: set<nat>, i: nat): nat
    requires i <= |chunks|
    decreases |chunks| - i
  {
    if i == |chunks| then 0
    else Cost(chunks, chosen, i + 1) + if i in chosen then |chunks[i]| + 7 else 0
  }

  lemma {:induction false} CostAdd(chunks: seq<string>, chosen: set<nat>, x: nat, i: nat)
    requires i <= |chunks| && x < |chunks| && x !in chosen
    ensures Cost(chunks, chosen + {x}, i) == Cost(chunks, chosen, i) + if i <= x then |chunks[x]| + 7 else 0
    decreases |chunks| - i
  {
    if i < |chunks| { CostAdd(chunks, chosen, x, i + 1); }
  }

  lemma {:induction false} CostOfNone(chunks: seq<string>, i: nat)
    requires i <= |chunks|
    ensures Cost(chunks, {}, i) == 0
    decreases |chunks| - i
  {
    if i < |chunks| { CostOfNone(chunks, i + 1); }
  }

  predicate InRange(order: seq<nat>, n: nat) { forall i :: 0 <= i < |order| ==> order[i] < n }

  /** The selection loop, over any candidate list: the budget holds, nothing that was tried and would still fit is
      left out, and the first candidate is taken exactly when it fits alone. */
  method Choose(chunks: seq<string>, order: seq<nat>, available: int) returns (chosen: set<nat>)
    requires InRange(order, |chunks|) && |order| > 0
    ensures forall i :: i in chosen ==> i in order
    ensures Cost(chunks, chosen, 0) <= available || chosen == {}
    ensures order[0] in chosen <==> |chunks[order[0]]| + 7 <= available
    ensures chosen == {} <==> forall i :: i in order ==> |chunks[i]| + 7 > available
    ensures forall i :: i in order && i !in chosen ==> Cost(chunks, chosen, 0) + |chunks[i]| + 7 > available
  {
    chosen := {};
    CostOfNone(chunks, 0);
    var used := 0;
    for k := 0 to |order|
      invariant used == Cost(chunks, chosen, 0) && (used <= available || chosen == {})
      invariant forall i :: i in chosen ==> i in order[..k]
      invariant chosen == {} ==> used == 0
      invariant k == 0 ==> chosen == {}
      invariant chosen == {} <==> forall j :: 0 <= j < k ==> |chunks[order[j]]| + 7 > available
      invariant k > 0 ==> (order[0] in chosen <==> |chunks[order[0]]| + 7 <= available)
      invariant forall j :: 0 <= j < k && order[j] !in chosen ==> used + |chunks[order[j]]| + 7 > available
    {
      var index := order[k];
      if index !in chosen && used + |chunks[index]| + 7 <= available {
        CostAdd(chunks, chosen, index, 0);
        chosen := chosen + {index};
        used := used + |chunks[index]| + 7;
        assert order[..k + 1] == order[..k] + [index];
      }
    }
  }

  /** `neighbours`. */
  function Neighbours(ranked: seq<nat>, n: nat): (r: seq<nat>)
    requires n > 0
    ensures InRange(r, n)
  {
    if |ranked| == 0 then []
    else
      var i := ranked[|ranked| - 1];
      Neighbours(ranked[..|ranked| - 1], n) + (if i + 1 < n then [i + 1] else []) + (if 0 < i <= n then [i - 1] else [])
  }

  // ---------------------------------------------------------------- the excerpt

  /** The end of the omitted run that begins at `i`. */
  function RunEnd(n: nat, chosen: set<nat>, i: nat): (j: nat)
    requires i <= n
    ensures i <= j <= n && (forall k :: i <= k < j ==> k !in chosen) && (j < n ==> j in chosen)
    decreases n - i
  {
    if i == n || i in chosen then i else RunEnd(n, chosen, i + 1)
  }

  /** The marker for the omitted chunks `i` to `j` of `n`. */
  function Marker(i: nat, j: nat, n: nat): string {
    if j == n then ClosingGap() else if i == 0 then OpeningGap() else Gap()
  }

  /** The document from chunk `i` on with every maximal omitted run replaced by one marker. */
  function Abridged(chunks: seq<string>, chosen: set<nat>, i: nat): string
    requires i <= |chunks|
    decreases |chunks| - i
  {
    if i == |chunks| then ""
    else if i in chosen then chunks[i] + Abridged(chunks, chosen, i + 1)
    else
      var j := RunEnd(|chunks|, chosen, i);
      Marker(i, j, |chunks|) + Abridged(chunks, chosen, j)
  }

  lemma {:induction false} RunEndIs(n: nat, chosen: set<nat>, i: nat, j: nat)
    requires i <= j <= n && (forall k :: i <= k < j ==> k !in chosen) && (j < n ==> j in chosen)
    ensures RunEnd(n, chosen, i) == j
    decreases j - i
  {
    if i < j { RunEndIs(n, chosen, i + 1, j); }
  }

  /** The joining loop: the chosen chunks verbatim and in order, a marker exactly at each gap. */
  method Join(chunks: seq<string>, chosen: set<nat>) returns (text: string)
    requires Sized(chunks, CHUNK) && forall i :: i in chosen ==> i < |chunks|
    ensures text == Abridged(chunks, chosen, 0)
  {
    text := "";
    var next := 0; // previous + 1
    for index := 0 to |chunks|
      invariant 0 <= next <= index && (text == "" <==> next == 0)
      invariant forall k :: next <= k < index ==> k !in chosen
      invariant text + Abridged(chunks, chosen, next) == Abridged(chunks, chosen, 0)
    {
      if index in chosen {
        if index != next {
          RunEndIs(|chunks|, chosen, next, index);
          Associative(text, Marker(next, index, |chunks|), Abridged(chunks, chosen, index));
          text := text + if text != "" then Gap() else OpeningGap();
        }
        Associative(text, chunks[index], Abridged(chunks, chosen, index + 1));
        text := text + chunks[index];
        next := index + 1;
      }
    }
    if next != |chunks| {
      RunEndIs(|chunks|, chosen, next, |chunks|);
      assert Abridged(chunks, chosen, |chunks|) == "";
      assert Abridged(chunks, chosen, next) == ClosingGap();
      text := text + ClosingGap();
    } else {
      assert text + "" == text;
    }
  }

  /** The markers stay within what the selection paid for. */
  lemma {:induction false} AbridgedFits(chunks: seq<string>, chosen: set<nat>, i: nat)
    requires i <= |chunks|
    ensures i < |chunks| && i in chosen ==> |Abridged(chunks, chosen, i)| + 2 <= Cost(chunks, chosen, i)
    ensures i !in chosen ==> |Abridged(chunks, chosen, i)| <= Cost(chunks, chosen, i) + 5
    decreases |chunks| - i
  {
    if i < |chunks| {
      if i in chosen {
        AbridgedFits(chunks, chosen, i + 1);
      } else {
        var j := RunEnd(|chunks|, chosen, i);
        AbridgedFits(chunks, chosen, j);
        CostSkips(chunks, chosen, i, j);
      }
    }
  }

  /** With anything chosen the markers exceed what was paid by at most three characters, and by none when the first
      chunk is among the chosen; with nothing chosen the closing marker alone is left. */
  lemma AbridgedLength(chunks: seq<string>, chosen: set<nat>)
    requires |chunks| > 0 && forall i :: i in chosen ==> i < |chunks|
    ensures 0 in chosen ==> |Abridged(chunks, chosen, 0)| + 2 <= Cost(chunks, chosen, 0)
    ensures chosen != {} ==> |Abridged(chunks, chosen, 0)| <= Cost(chunks, chosen, 0) + 3
    ensures chosen == {} ==> Abridged(chunks, chosen, 0) == ClosingGap()
  {
    AbridgedFits(chunks, chosen, 0);
    if 0 !in chosen {
      var n := |chunks|;
      var j := RunEnd(n, chosen, 0);
      CostSkips(chunks, chosen, 0, j);
      AbridgedFits(chunks, chosen, j);
      assert Abridged(chunks, chosen, n) == "";
      if chosen != {} {
        var x :| x in chosen;
        assert j < n;
      }
    }
  }

  lemma {:induction false} CostSkips(chunks: seq<string>, chosen: set<nat>, i: nat, j: nat)
    requires i <= j <= |chunks| && forall k :: i <= k < j ==> k !in chosen
    ensures Cost(chunks, chosen, i) == Cost(chunks, chosen, j)
    decreases j - i
  {
    if i < j { CostSkips(chunks, chosen, i + 1, j); }
  }

  /** Choosing everything leaves the document whole. */
  lemma {:induction false} NothingOmitted(chunks: seq<string>, chosen: set<nat>, i: nat)
    requires i <= |chunks| && forall k :: i <= k < |chunks| ==> k in chosen
    ensures Abridged(chunks, chosen, i) == Concat(chunks[i..])
    decreases |chunks| - i
  {
    if i < |chunks| {
      NothingOmitted(chunks, chosen, i + 1);
      ConcatPrepend(chunks[i], chunks[i + 1..]);
      assert chunks[i..] == [chunks[i]] + chunks[i + 1..];
    }
  }

  lemma {:induction false} ConcatPrepend(p: string, pieces: seq<string>)
    ensures Concat([p] + pieces) == p + Concat(pieces)
  {
    if |pieces| == 0 {
      assert [p] + pieces == [p];
      assert Concat([p]) == Concat([p][..0]) + p;
    } else {
      var n := |pieces| - 1;
      ConcatPrepend(p, pieces[..n]);
      assert ([p] + pieces)[..n + 1] == [p] + pieces[..n];
      Associative(p, Concat(pieces[..n]), pieces[n]);
    }
  }

  // ---------------------------------------------------------------- the header

  /** The remainder below a thousand, with its leading zeros. */
  function Group(n: nat): (s: string)
    requires n < 1000
    ensures |s| == 3
  {
    [Digit(n / 100), Digit(n / 10 % 10), Digit(n % 10)]
  }

  /** A number with a comma after every three digits, as the format `:,` prints it. */
  function Grouped(n: nat): string {
    if n < 1000 then DigitsOf(n) else Grouped(n / 1000) + "," + Group(n % 1000)
  }

  function Thousands(k: nat): nat { if k == 0 then 1 else 1000 * Thousands(k - 1) }

  lemma SmallDigits(n: nat)
    requires n < 1000
    ensures 1 <= |DigitsOf(n)| <= 3
  {
    assert n >= 10 ==> DigitsOf(n) == DigitsOf(n / 10) + [Digit(n % 10)];
    assert n >= 100 ==> DigitsOf(n / 10) == DigitsOf(n / 100) + [Digit(n / 10 % 10)];
  }

  lemma ThreeMoreDigits(n: nat)
    requires n >= 1000
    ensures |DigitsOf(n)| == |DigitsOf(n / 1000)| + 3
  {
    assert DigitsOf(n) == DigitsOf(n / 10) + [Digit(n % 10)];
    assert n / 10 / 10 == n / 100 && n / 100 / 10 == n / 1000;
    assert DigitsOf(n / 10) == DigitsOf(n / 100) + [Digit(n / 10 % 10)];
    assert DigitsOf(n / 100) == DigitsOf(n / 1000) + [Digit(n / 100 % 10)];
  }

  lemma {:induction false} NumberLength(n: nat, k: nat)
    requires k > 0 && n < Thousands(k)
    ensures 1 <= |DigitsOf(n)| <= 3 * k && 1 <= |Grouped(n)| <= 4 * k - 1
    decreases k
  {
    if n < 1000 {
      SmallDigits(n);
    } else {
      assert Thousands(1) == 1000 * Thousands(0);
      assert n / 1000 < Thousands(k - 1);
      NumberLength(n / 1000, k - 1);
      ThreeMoreDigits(n);
    }
  }

  function Opening(): (s: string)
    ensures |s| == 24
  {
    "[SCAP: tài liệu gốc dài "
  }

  function Exceeds(): (s: string)
    ensures |s| == 22
  {
    " ký tự, vượt giới hạn "
  }

  function PerRequest(): (s: string)
    ensures |s| == 39
  {
    " ký tự cho mỗi lần gửi AI. Dưới đây là "
  }

  function Pieces(): (s: string)
    ensures |s| == 12
  {
    " đoạn trích "
  }

  function Mode(ranked: bool): (s: string)
    ensures 24 <= |s| <= 26
  {
    if ranked then "liên quan nhất tới câu hỏi" else "rải đều toàn bộ tài liệu"
  }

  function Legend(): (s: string)
    ensures |s| == 58
  {
    ", giữ nguyên thứ tự; dấu […] đánh dấu phần đã lược bớt.]\n\n"
  }

  /** The line that introduces an excerpt. */
  function Header(length: nat, budget: nat, picked: nat, total: nat, ranked: bool): string {
    Opening() + Grouped(length) + Exceeds() + Grouped(budget) + PerRequest() + DigitsOf(picked) + "/" + DigitsOf(total)
      + Pieces() + Mode(ranked) + Legend()
  }

  /** For every text below ten to the thirty-sixth characters the header leaves three characters of its reserve. */
  lemma HeaderFits(length: nat, budget: nat, picked: nat, total: nat, ranked: bool)
    requires length < Thousands(12) && budget < length && picked <= total <= length
    ensures 184 <= |Header(length, budget, picked, total, ranked)|
    ensures |Header(length, budget, picked, total, ranked)| + 3 <= RESERVE
  {
    NumberLength(length, 12);
    NumberLength(budget, 12);
    NumberLength(picked, 12);
    NumberLength(total, 12);
  }

  // ---------------------------------------------------------------- select_file_excerpts

  /** `strip`, with Unicode white space as a parameter: what is left is a middle part that neither begins nor ends with
      white space, and only white space was taken from either side. */
  function Strip(s: string, white: char -> bool): (r: string)
    ensures |r| <= |s| && (|r| > 0 ==> !white(r[0]) && !white(r[|r| - 1]))
    ensures Trims(s, r, white)
  {
    if |s| > 0 && white(s[0]) then
      var r := Strip(s[1..], white);
      StripLeft(s, r, white);
      r
    else if |s| > 0 && white(s[|s| - 1]) then
      var r := Strip(s[..|s| - 1], white);
      StripRight(s, r, white);
      r
    else
      assert s == "" + s + "" && AllWhite("", white);
      s
  }

  predicate AllWhite(s: string, white: char -> bool) { forall i :: 0 <= i < |s| ==> white(s[i]) }

  ghost predicate Trims(s: string, r: string, white: char -> bool) {
    exists left, right :: s == left + r + right && AllWhite(left, white) && AllWhite(right, white)
  }

  lemma StripLeft(s: string, r: string, white: char -> bool)
    requires |s| > 0 && white(s[0]) && Trims(s[1..], r, white)
    ensures Trims(s, r, white)
  {
    var left, right :| s[1..] == left + r + right && AllWhite(left, white) && AllWhite(right, white);
    assert s == [s[0]] + s[1..] && s == ([s[0]] + left) + r + right && AllWhite([s[0]] + left, white);
  }

  lemma StripRight(s: string, r: string, white: char -> bool)
    requires |s| > 0 && white(s[|s| - 1]) && Trims(s[..|s| - 1], r, white)
    ensures Trims(s, r, white)
  {
    var n := |s| - 1;
    var left, right :| s[..n] == left + r + right && AllWhite(left, white) && AllWhite(right, white);
    assert s == s[..n] + [s[n]] && s == left + r + (right + [s[n]]) && AllWhite(right + [s[n]], white);
  }

  function Truncated(s: string, n: nat): (r: string)
    ensures |r| <= n && (r == s <==> |s| <= n)
  {
    if |s| <= n then s else s[..n]
  }

  /** Header and abridged document, before the final truncation. */
  function FullExcerpt(text: string, budget: nat, chosen: set<nat>, ranked: bool): string {
    var chunks := ChunksFrom(text, 0, CHUNK);
    Header(|text|, budget, |chosen|, |chunks|, ranked) + Abridged(chunks, chosen, 0)
  }

  predicate Candidates(text: string, ranked: seq<nat>, spread: seq<nat>) {
    forall i :: i in ranked + spread ==> i < |ChunksFrom(text, 0, CHUNK)|
  }

  /** What the selection loop leaves. */
  ghost predicate Selected(text: string, budget: nat, chosen: set<nat>) {
    var chunks := ChunksFrom(text, 0, CHUNK);
    && Concat(chunks) == text && Sized(chunks, CHUNK) && |chunks| > 0 && (forall i :: i in chosen ==> i < |chunks|)
    && (Cost(chunks, chosen, 0) + RESERVE <= budget || chosen == {})
    && (0 in chosen <==> |chunks[0]| + 7 <= budget - RESERVE)
    && (budget < RESERVE ==> chosen == {})
  }

  method SelectChunks(text: string, budget: nat, ranked: seq<nat>, spread: seq<nat>)
    returns (chunks: seq<string>, chosen: set<nat>)
    requires Candidates(text, ranked, spread) && |text| > budget
    ensures chunks == ChunksFrom(text, 0, CHUNK) && Selected(text, budget, chosen)
  {
    chunks := Chunks(text, CHUNK);
    var order := [0] + ranked + Neighbours(ranked, |chunks|) + spread;
    OrderInRange(ranked, Neighbours(ranked, |chunks|), spread, |chunks|);
    chosen := Choose(chunks, order, budget - RESERVE);
    ChosenInRange(order, chosen, |chunks|);
    if budget < RESERVE { assert chosen == {}; }
  }

  /** `select_file_excerpts` with the ranking and the even spread as inputs. */
  method SelectFileExcerpts(text: string, budget: nat, ranked: seq<nat>, spread: seq<nat>, white: char -> bool)
    returns (result: string, chosen: set<nat>)
    requires Candidates(text, ranked, spread)
    ensures |result| <= budget
    ensures |text| <= budget ==> result == text
    ensures |text| > budget ==> Excerpted(text, budget, chosen, |ranked| > 0)
    ensures |text| > budget ==>
      result == Strip(Truncated(FullExcerpt(text, budget, chosen, |ranked| > 0), budget), white)
  {
    chosen := {};
    if |text| <= budget { return text, chosen; }
    var chunks;
    chunks, chosen := SelectChunks(text, budget, ranked, spread);
    var body := Join(chunks, chosen);
    ExcerptedHolds(text, budget, chosen, |ranked| > 0);
    var full := Header(|text|, budget, |chosen|, |chunks|, |ranked| > 0) + body;
    result := Strip(if |full| <= budget then full else full[..budget], white);
  }

  /** What holds of every excerpt.  The chunks make up the text.  The first chunk is chosen exactly when it fits beside
      the reserve, so always at the real budget.  With anything chosen the truncation removes nothing while the header
      keeps within its reserve; with nothing chosen it removes something exactly when the budget does not hold the
      header and the closing marker. */
  ghost predicate Excerpted(text: string, budget: nat, chosen: set<nat>, ranked: bool) {
    var chunks := ChunksFrom(text, 0, CHUNK);
    var header, full := Header(|text|, budget, |chosen|, |chunks|, ranked), FullExcerpt(text, budget, chosen, ranked);
    && Concat(chunks) == text && Sized(chunks, CHUNK) && |chunks| > 0 && (forall i :: i in chosen ==> i < |chunks|)
    && (0 in chosen <==> |chunks[0]| + 7 + RESERVE <= budget)
    && (RESERVE + CHUNK + 7 <= budget ==> 0 in chosen)
    && (budget < RESERVE ==> chosen == {})
    && (chosen != {} && |header| + 3 <= RESERVE ==> |full| <= budget)
    && (|text| < Thousands(12) ==> |header| + 3 <= RESERVE)
    && (chosen == {} ==> (|full| <= budget <==> |header| + 5 <= budget))
  }

  lemma ExcerptedHolds(text: string, budget: nat, chosen: set<nat>, ranked: bool)
    requires |text| > budget && Selected(text, budget, chosen)
    ensures Excerpted(text, budget, chosen, ranked)
  {
    AbridgedLength(ChunksFrom(text, 0, CHUNK), chosen);
    ShortTextHeader(text, budget, chosen, ranked);
  }

  lemma ShortTextHeader(text: string, budget: nat, chosen: set<nat>, ranked: bool)
    requires |text| > budget && Selected(text, budget, chosen)
    ensures |text| < Thousands(12) ==>
      |Header(|text|, budget, |chosen|, |ChunksFrom(text, 0, CHUNK)|, ranked)| + 3 <= RESERVE
  {
    var chunks := ChunksFrom(text, 0, CHUNK);
    PiecesWithinText(chunks, CHUNK);
    IndicesBounded(chosen, |chunks|);
    if |text| < Thousands(12) { HeaderFits(|text|, budget, |chosen|, |chunks|, ranked); }
  }

  /** There are no more chunks than characters. */
  lemma {:induction false} PiecesWithinText(pieces: seq<string>, size: nat)
    requires Sized(pieces, size)
    ensures |pieces| <= |Concat(pieces)|
  {
    if |pieces| > 0 { PiecesWithinText(pieces[..|pieces| - 1], size); }
  }

  lemma {:induction false} IndicesBounded(s: set<nat>, n: nat)
    requires forall i :: i in s ==> i < n
    ensures |s| <= n
    decreases n
  {
    if n == 0 {
      assert s == {};
    } else {
      var rest := s - {n - 1};
      IndicesBounded(rest, n - 1);
      if n - 1 in s { assert s == rest + {n - 1}; } else { assert s == rest; }
    }
  }

  /** A budget below the header's own length does lose something: two hundred characters cut down to a hundred. */
  method CutAtTinyBudget(white: char -> bool) returns (result: string, chosen: set<nat>)
    ensures var text := seq(200, i => 'x');
      && chosen == {} && |FullExcerpt(text, 100, chosen, false)| > 100
      && result == Strip(FullExcerpt(text, 100, chosen, false)[..100], white)
  {
    var text := seq(200, i => 'x');
    result, chosen := SelectFileExcerpts(text, 100, [], [], white);
    var chunks := ChunksFrom(text, 0, CHUNK);
    PiecesWithinText(chunks, CHUNK);
    assert Thousands(12) > 200 by { ThousandsGrow(12); }
    HeaderFits(200, 100, 0, |chunks|, false);
  }

  lemma {:induction false} ThousandsGrow(k: nat)
    requires k > 0
    ensures Thousands(k) >= 1000
  {
    if k > 1 { ThousandsGrow(k - 1); }
  }

  lemma OrderInRange(ranked: seq<nat>, neighbours: seq<nat>, spread: seq<nat>, n: nat)
    requires n > 0 && InRange(neighbours, n) && forall i :: i in ranked + spread ==> i < n
    ensures var order := [0] + ranked + neighbours + spread; InRange(order, n) && order[0] == 0
  {
    var order := [0] + ranked + neighbours + spread;
    forall i | 0 <= i < |order| ensures order[i] < n {
      if 1 <= i < 1 + |ranked| {
        assert order[i] == ranked[i - 1];
        assert ranked[i - 1] in ranked + spread;
      } else if i >= 1 + |ranked| + |neighbours| {
        assert order[i] == spread[i - 1 - |ranked| - |neighbours|];
        assert order[i] in ranked + spread;
      }
    }
  }

  lemma ChosenInRange(order: seq<nat>, chosen: set<nat>, n: nat)
    requires InRange(order, n) && forall i :: i in chosen ==> i in order
    ensures forall i :: i in chosen ==> i < n
  {
  }
}
