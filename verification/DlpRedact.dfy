/** Merging, redaction and the release decision of src/app/dlp.py. */
module DlpRedact {
  import opened Prelude
  import opened DlpViews
  import opened DlpScan

  /** Released text, before placeholders are spelled out: a kept character, or one
      `[REDACTED:...]` for the finding types of a withheld block. */
  datatype Piece = Plain(c: char) | Placeholder(kinds: set<FindingType>)

  predicate Covers(x: Span, i: int) { x.start <= i < x.end }

  predicate Covered(spans: seq<Span>, i: int) { exists x :: x in spans && Covers(x, i) }

  /** The end of the maximal covered block that contains `i`. */
  function BlockEnd(spans: seq<Span>, i: nat, n: nat): (j: nat)
    requires i <= n
    ensures i <= j <= n
    ensures forall k :: i <= k < j ==> Covered(spans, k)
    ensures j < n ==> !Covered(spans, j)
    decreases n - i
  {
    if i < n && Covered(spans, i) then BlockEnd(spans, i + 1, n) else i
  }

  function KindsIn(spans: seq<Span>, a: int, b: int): set<FindingType> {
    set x | x in spans && a <= x.start && x.end <= b :: x.kind
  }

  /** The reference: read the text left to right, keep what no span covers, and put one
      placeholder for each maximal covered block. */
  function Reference(text: string, spans: seq<Span>, i: nat): seq<Piece>
    requires i <= |text|
    decreases |text| - i
  {
    if i == |text| then []
    else if !Covered(spans, i) then [Plain(text[i])] + Reference(text, spans, i + 1)
    else
      var j := BlockEnd(spans, i + 1, |text|);
      [Placeholder(KindsIn(spans, i, j))] + Reference(text, spans, j)
  }

  datatype Block = Block(start: nat, end: nat, kinds: set<FindingType>)

  /** The alphabetical position of a finding type's value. */
  function NameRank(k: FindingType): nat {
    match k
    case ApiKey => 0
    case BearerToken => 1
    case Cccd => 2
    case CustomDictionary => 3
    case Email => 4
    case HealthData => 5
    case InspectionLimit => 6
    case Jwt => 7
    case PaymentCard => 8
    case Phone => 9
    case PrivateKey => 10
    case Secret => 11
    case TaxId => 12
  }

  /** Order by (start, end), or with `named` by (start, end, type name). */
  predicate Before(a: Span, b: Span, named: bool) {
    || a.start < b.start
    || (a.start == b.start && a.end < b.end)
    || (a.start == b.start && a.end == b.end && (named ==> NameRank(a.kind) <= NameRank(b.kind)))
  }

  predicate Sorted(spans: seq<Span>, named: bool) {
    forall i, j :: 0 <= i < j < |spans| ==> Before(spans[i], spans[j], named)
  }

  lemma FirstIsBeforeAll(spans: seq<Span>, x: Span, named: bool)
    requires Sorted(spans, named) && |spans| > 0 && !Before(spans[0], x, named)
    ensures Sorted([x] + spans, named)
  {
    forall k | 0 <= k < |spans| ensures Before(x, spans[k], named) {
      assert k > 0 ==> Before(spans[0], spans[k], named);
    }
  }

  lemma FirstStaysFirst(spans: seq<Span>, x: Span, rest: seq<Span>, named: bool)
    requires |spans| > 0 && Sorted(spans, named) && Sorted(rest, named) && Before(spans[0], x, named)
    requires forall y :: y in rest ==> y in spans[1..] || y == x
    ensures Sorted([spans[0]] + rest, named)
  {
    var r := [spans[0]] + rest;
    forall k | 0 <= k < |rest| ensures Before(spans[0], rest[k], named) {
      assert rest[k] in rest;
      if rest[k] != x {
        var j :| 0 <= j < |spans| - 1 && spans[1..][j] == rest[k];
        assert spans[j + 1] == rest[k];
      }
    }
    assert forall k :: 0 < k < |r| ==> r[k] == rest[k - 1];
  }

  function Insert(spans: seq<Span>, x: Span, named: bool): (r: seq<Span>)
    requires Sorted(spans, named)
    ensures Sorted(r, named) && multiset(r) == multiset(spans) + multiset{x}
    ensures forall y :: y in r <==> y in spans || y == x
    decreases |spans|
  {
    if |spans| == 0 then [x]
    else if !Before(spans[0], x, named) then
      FirstIsBeforeAll(spans, x, named);
      [x] + spans
    else
      assert spans == [spans[0]] + spans[1..];
      FirstStaysFirst(spans, x, Insert(spans[1..], x, named), named);
      [spans[0]] + Insert(spans[1..], x, named)
  }

  /** `sorted` with the key (start, end) or (start, end, type name). */
  function SortSpans(spans: seq<Span>, named: bool): (r: seq<Span>)
    ensures Sorted(r, named) && multiset(r) == multiset(spans)
    ensures forall x :: x in r <==> x in spans
  {
    if |spans| == 0 then []
    else
      assert spans == spans[..|spans| - 1] + [spans[|spans| - 1]];
      Insert(SortSpans(spans[..|spans| - 1], named), spans[|spans| - 1], named)
  }

  predicate SameKey(a: Span, b: Span, named: bool) { Before(a, b, named) && Before(b, a, named) }

  function IfPeer(x: Span, y: Span, named: bool): seq<Span> { if SameKey(x, y, named) then [x] else [] }

  /** The spans that share the sort key of `y`, in order. */
  function Peers(spans: seq<Span>, y: Span, named: bool): seq<Span> {
    if |spans| == 0 then [] else IfPeer(spans[0], y, named) + Peers(spans[1..], y, named)
  }

  lemma {:induction false} PeersAppend(spans: seq<Span>, x: Span, y: Span, named: bool)
    ensures Peers(spans + [x], y, named) == Peers(spans, y, named) + IfPeer(x, y, named)
  {
    if |spans| == 0 {
      assert spans + [x] == [x];
    } else {
      assert (spans + [x])[1..] == spans[1..] + [x];
      PeersAppend(spans[1..], x, y, named);
    }
  }

  lemma {:induction false} NoPeers(spans: seq<Span>, y: Span, named: bool)
    requires forall z :: z in spans ==> !SameKey(z, y, named)
    ensures Peers(spans, y, named) == []
  {
    if |spans| > 0 { NoPeers(spans[1..], y, named); }
  }

  lemma PeersCons(x: Span, spans: seq<Span>, y: Span, named: bool)
    ensures Peers([x] + spans, y, named) == IfPeer(x, y, named) + Peers(spans, y, named)
  {
    assert ([x] + spans)[1..] == spans;
  }

  /** What comes strictly after a span has none of its peers. */
  lemma FrontHasNoPeers(spans: seq<Span>, x: Span, y: Span, named: bool)
    requires Sorted(spans, named) && |spans| > 0 && !Before(spans[0], x, named) && SameKey(x, y, named)
    ensures Peers(spans, y, named) == []
  {
    forall z | z in spans ensures !SameKey(z, y, named) {
      var k :| 0 <= k < |spans| && spans[k] == z;
      assert k > 0 ==> Before(spans[0], z, named);
    }
    NoPeers(spans, y, named);
  }

  lemma InsertStep(spans: seq<Span>, x: Span, named: bool)
    requires Sorted(spans, named) && |spans| > 0
    ensures Insert(spans, x, named)
         == if Before(spans[0], x, named) then [spans[0]] + Insert(spans[1..], x, named) else [x] + spans
  {
  }

  lemma {:induction false} InsertIsStable(spans: seq<Span>, x: Span, y: Span, named: bool)
    requires Sorted(spans, named)
    ensures Peers(Insert(spans, x, named), y, named) == Peers(spans, y, named) + IfPeer(x, y, named)
    decreases |spans|
  {
    if |spans| > 0 {
      InsertStep(spans, x, named);
      if !Before(spans[0], x, named) {
        PeersCons(x, spans, y, named);
        if SameKey(x, y, named) { FrontHasNoPeers(spans, x, y, named); }
      } else {
        PeersCons(spans[0], Insert(spans[1..], x, named), y, named);
        InsertIsStable(spans[1..], x, y, named);
        Associative(IfPeer(spans[0], y, named), Peers(spans[1..], y, named), IfPeer(x, y, named));
      }
    }
  }

  /** Sorting is stable: spans with the same key stay in their order. */
  lemma {:induction false} SortIsStable(spans: seq<Span>, y: Span, named: bool)
    ensures Peers(SortSpans(spans, named), y, named) == Peers(spans, y, named)
  {
    if |spans| > 0 {
      var n := |spans| - 1;
      assert spans == spans[..n] + [spans[n]];
      SortIsStable(spans[..n], y, named);
      InsertIsStable(SortSpans(spans[..n], named), spans[n], y, named);
      PeersAppend(spans[..n], spans[n], y, named);
    }
  }

  // ---------------------------------------------------------------- merging

  /** Blocks in order with a gap before the next one. */
  predicate Separated(bs: seq<Block>) {
    && (forall k :: 0 <= k < |bs| ==> bs[k].start < bs[k].end)
    && (forall k, l :: 0 <= k < l < |bs| ==> bs[k].end < bs[l].start)
  }

  predicate InBlock(b: Block, i: int) { b.start <= i < b.end }

  predicate InBlocks(bs: seq<Block>, i: int) { exists k :: 0 <= k < |bs| && InBlock(bs[k], i) }

  /** The blocks cover what the spans cover, each span lies in one block, and a block names
      exactly the finding types of its spans. */
  ghost predicate Merges(bs: seq<Block>, spans: seq<Span>) {
    && Separated(bs)
    && (forall i :: Covered(spans, i) <==> InBlocks(bs, i))
    && (forall k :: 0 <= k < |bs| ==> bs[k].kinds == KindsIn(spans, bs[k].start, bs[k].end))
  }

  /** The merge step of `_redact_spans`. */
  function MergeStep(bs: seq<Block>, x: Span): seq<Block> {
    if |bs| == 0 || x.start > bs[|bs| - 1].end then bs + [Block(x.start, x.end, {x.kind})]
    else
      var last := bs[|bs| - 1];
      bs[..|bs| - 1] + [Block(last.start, if x.end > last.end then x.end else last.end, last.kinds + {x.kind})]
  }

  /** Nothing merged so far reaches beyond the last block, and the next span starts no earlier
      than any merged one. */
  predicate Ready(bs: seq<Block>, spans: seq<Span>, x: Span) {
    && x.start < x.end
    && (forall y :: y in spans ==> y.start < y.end && y.start <= x.start)
    && (forall y :: y in spans ==> |bs| > 0 && y.end <= bs[|bs| - 1].end)
    && (|bs| > 0 ==> spans != [] && bs[|bs| - 1].start <= x.start)
  }

  lemma CoveredAppend(spans: seq<Span>, x: Span, i: int)
    ensures Covered(spans + [x], i) <==> Covered(spans, i) || Covers(x, i)
  {
    if Covered(spans, i) {
      var y :| y in spans && Covers(y, i);
      assert y in spans + [x];
    }
    if Covers(x, i) { assert x in spans + [x]; }
  }

  lemma MergeCoverage(bs: seq<Block>, spans: seq<Span>, x: Span, i: int)
    requires Merges(bs, spans) && Ready(bs, spans, x)
    ensures InBlocks(MergeStep(bs, x), i) <==> Covered(spans + [x], i)
  {
    var bs' := MergeStep(bs, x);
    CoveredAppend(spans, x, i);
    if InBlocks(bs, i) {
      var k :| 0 <= k < |bs| && InBlock(bs[k], i);
      assert InBlock(bs'[k], i);
    }
    if Covers(x, i) { assert InBlock(bs'[|bs'| - 1], i); }
    if InBlocks(bs', i) {
      var k :| 0 <= k < |bs'| && InBlock(bs'[k], i);
      if k < |bs'| - 1 || (|bs'| == |bs| && InBlock(bs[k], i)) {
        assert InBlock(bs[k], i);
      }
    }
  }

  lemma MergeSeparated(bs: seq<Block>, spans: seq<Span>, x: Span)
    requires Merges(bs, spans) && Ready(bs, spans, x)
    ensures Separated(MergeStep(bs, x))
  {
  }

  /** A block keeps naming exactly the types of the spans inside it. */
  lemma MergeKinds(bs: seq<Block>, spans: seq<Span>, x: Span, k: nat)
    requires Merges(bs, spans) && Ready(bs, spans, x) && k < |MergeStep(bs, x)|
    ensures var b := MergeStep(bs, x)[k]; b.kinds == KindsIn(spans + [x], b.start, b.end)
  {
    var bs' := MergeStep(bs, x);
    var b := bs'[k];
    var n := |bs|;
    forall t | t in b.kinds ensures t in KindsIn(spans + [x], b.start, b.end) {
      if k < n && t in bs[k].kinds {
        var y :| y in spans && bs[k].start <= y.start && y.end <= bs[k].end && y.kind == t;
        assert y in spans + [x];
      } else {
        assert x in spans + [x];
      }
    }
    forall t | t in KindsIn(spans + [x], b.start, b.end) ensures t in b.kinds {
      var y :| y in spans + [x] && b.start <= y.start && y.end <= b.end && y.kind == t;
      if y in spans {
        InsideOneBlock(bs, spans, y);
        var l :| 0 <= l < n && bs[l].start <= y.start && y.end <= bs[l].end;
        assert l == k;
      }
    }
  }

  /** A span of the input lies inside one block. */
  lemma InsideOneBlock(bs: seq<Block>, spans: seq<Span>, y: Span)
    requires Merges(bs, spans) && y in spans && y.start < y.end
    ensures exists l :: 0 <= l < |bs| && bs[l].start <= y.start && y.end <= bs[l].end
  {
    assert Covers(y, y.start) && Covered(spans, y.start);
    var l :| 0 <= l < |bs| && InBlock(bs[l], y.start);
    BlockEndIsOutside(bs, l);
    assert !Covered(spans, bs[l].end);
    assert !Covers(y, bs[l].end);
  }

  lemma BlockEndIsOutside(bs: seq<Block>, l: nat)
    requires Separated(bs) && l < |bs|
    ensures !InBlocks(bs, bs[l].end)
  {
    forall m | 0 <= m < |bs| ensures !InBlock(bs[m], bs[l].end) {
      if m < l { assert bs[m].end < bs[l].start; }
      if l < m { assert bs[l].end < bs[m].start; }
    }
  }

  lemma MergeStepKeeps(bs: seq<Block>, spans: seq<Span>, x: Span)
    requires Merges(bs, spans) && Ready(bs, spans, x)
    ensures Merges(MergeStep(bs, x), spans + [x])
  {
    MergeSeparated(bs, spans, x);
    forall i ensures Covered(spans + [x], i) <==> InBlocks(MergeStep(bs, x), i) { MergeCoverage(bs, spans, x, i); }
    forall k | 0 <= k < |MergeStep(bs, x)|
      ensures MergeStep(bs, x)[k].kinds == KindsIn(spans + [x], MergeStep(bs, x)[k].start, MergeStep(bs, x)[k].end)
    {
      MergeKinds(bs, spans, x, k);
    }
  }

  // ---------------------------------------------------------------- emitting

  function Plains(s: string): (r: seq<Piece>)
    ensures |r| == |s| && forall i :: 0 <= i < |s| ==> r[i] == Plain(s[i])
  {
    seq(|s|, i requires 0 <= i < |s| => Plain(s[i]))
  }

  function Emit(text: string, bs: seq<Block>, cursor: nat): seq<Piece>
    requires Separated(bs) && cursor <= |text| && (|bs| > 0 ==> cursor <= bs[0].start)
    requires forall k :: 0 <= k < |bs| ==> bs[k].end <= |text|
    decreases |bs|
  {
    if |bs| == 0 then Plains(text[cursor..])
    else Plains(text[cursor..bs[0].start]) + [Placeholder(bs[0].kinds)] + Emit(text, bs[1..], bs[0].end)
  }

  lemma PlainsStep(text: string, i: nat, j: nat)
    requires i < j <= |text|
    ensures Plains(text[i..j]) == [Plain(text[i])] + Plains(text[i + 1..j])
  {
    assert text[i..j] == [text[i]] + text[i + 1..j];
  }

  /** An uncovered stretch is kept verbatim. */
  lemma {:induction false} ReferenceKeepsStretch(text: string, spans: seq<Span>, i: nat, j: nat)
    requires i <= j <= |text| && forall k :: i <= k < j ==> !Covered(spans, k)
    ensures Reference(text, spans, i) == Plains(text[i..j]) + Reference(text, spans, j)
    decreases j - i
  {
    if i < j {
      ReferenceKeepsStretch(text, spans, i + 1, j);
      PlainsStep(text, i, j);
      Associative([Plain(text[i])], Plains(text[i + 1..j]), Reference(text, spans, j));
    } else {
      assert Plains(text[i..j]) == [];
    }
  }

  lemma {:induction false} BlockEndIs(spans: seq<Span>, i: nat, j: nat, n: nat)
    requires i <= j <= n && (forall k :: i <= k < j ==> Covered(spans, k)) && (j < n ==> !Covered(spans, j))
    ensures BlockEnd(spans, i, n) == j
    decreases j - i
  {
    if i < j { BlockEndIs(spans, i + 1, j, n); }
  }

  /** From `cursor` on, the blocks are exactly the covered stretches. */
  ghost predicate Describes(bs: seq<Block>, spans: seq<Span>, cursor: nat) {
    && Separated(bs)
    && (|bs| > 0 ==> cursor <= bs[0].start)
    && (forall i :: i >= cursor ==> (Covered(spans, i) <==> InBlocks(bs, i)))
    && (forall k :: 0 <= k < |bs| ==> bs[k].kinds == KindsIn(spans, bs[k].start, bs[k].end))
  }

  lemma DescribesRest(bs: seq<Block>, spans: seq<Span>, cursor: nat)
    requires Describes(bs, spans, cursor) && |bs| > 0
    ensures Describes(bs[1..], spans, bs[0].end)
    ensures !Covered(spans, bs[0].end)
  {
    forall i | i >= bs[0].end ensures Covered(spans, i) <==> InBlocks(bs[1..], i) {
      if InBlocks(bs, i) {
        var k :| 0 <= k < |bs| && InBlock(bs[k], i);
        assert InBlock(bs[1..][k - 1], i);
      }
      if InBlocks(bs[1..], i) {
        var k :| 0 <= k < |bs[1..]| && InBlock(bs[1..][k], i);
        assert InBlock(bs[k + 1], i);
      }
    }
  }

  /** At the start of a block the reference emits its placeholder and jumps to its end. */
  lemma ReferenceJumps(text: string, spans: seq<Span>, i: nat, j: nat)
    requires i < |text| && Covered(spans, i) && BlockEnd(spans, i + 1, |text|) == j
    ensures Reference(text, spans, i) == [Placeholder(KindsIn(spans, i, j))] + Reference(text, spans, j)
  {
  }

  lemma FirstBlock(bs: seq<Block>, spans: seq<Span>, cursor: nat)
    requires Describes(bs, spans, cursor) && |bs| > 0
    ensures forall i :: cursor <= i < bs[0].start ==> !Covered(spans, i)
    ensures forall i :: bs[0].start <= i < bs[0].end ==> Covered(spans, i)
  {
    forall i | bs[0].start <= i < bs[0].end ensures Covered(spans, i) { assert InBlock(bs[0], i); }
  }

  /** What comes before the end of the first block. */
  lemma ReferenceThroughBlock(text: string, bs: seq<Block>, spans: seq<Span>, cursor: nat)
    requires Describes(bs, spans, cursor) && |bs| > 0 && cursor <= |text| && bs[0].end <= |text|
    ensures Reference(text, spans, cursor)
         == Plains(text[cursor..bs[0].start]) + ([Placeholder(bs[0].kinds)] + Reference(text, spans, bs[0].end))
  {
    FirstBlock(bs, spans, cursor);
    DescribesRest(bs, spans, cursor);
    BlockEndIs(spans, bs[0].start + 1, bs[0].end, |text|);
    ReferenceKeepsStretch(text, spans, cursor, bs[0].start);
    ReferenceJumps(text, spans, bs[0].start, bs[0].end);
  }

  lemma ReferenceOfRest(text: string, spans: seq<Span>, cursor: nat)
    requires cursor <= |text| && forall i :: cursor <= i < |text| ==> !Covered(spans, i)
    ensures Reference(text, spans, cursor) == Plains(text[cursor..])
  {
    ReferenceKeepsStretch(text, spans, cursor, |text|);
    assert text[cursor..|text|] == text[cursor..];
  }

  lemma EmitUnfolds(text: string, bs: seq<Block>, cursor: nat)
    requires Separated(bs) && |bs| > 0 && cursor <= bs[0].start <= |text|
    requires forall k :: 0 <= k < |bs| ==> bs[k].end <= |text|
    ensures Separated(bs[1..])
    ensures Emit(text, bs, cursor)
         == Plains(text[cursor..bs[0].start]) + ([Placeholder(bs[0].kinds)] + Emit(text, bs[1..], bs[0].end))
  {
    Associative(Plains(text[cursor..bs[0].start]), [Placeholder(bs[0].kinds)], Emit(text, bs[1..], bs[0].end));
  }

  lemma {:induction false} EmitIsReference(text: string, bs: seq<Block>, spans: seq<Span>, cursor: nat)
    requires Describes(bs, spans, cursor) && cursor <= |text| && forall k :: 0 <= k < |bs| ==> bs[k].end <= |text|
    ensures Emit(text, bs, cursor) == Reference(text, spans, cursor)
    decreases |bs|
  {
    if |bs| == 0 {
      ReferenceOfRest(text, spans, cursor);
    } else {
      DescribesRest(bs, spans, cursor);
      EmitIsReference(text, bs[1..], spans, bs[0].end);
      EmitUnfolds(text, bs, cursor);
      ReferenceThroughBlock(text, bs, spans, cursor);
    }
  }

  /** The merge loop has dealt with the first spans of a sorted list. */
  ghost predicate MergedSoFar(bs: seq<Block>, done: seq<Span>, source: nat) {
    && Merges(bs, done)
    && (|done| == 0 <==> |bs| == 0)
    && (forall k :: 0 <= k < |bs| ==> bs[k].end <= source)
    && (forall y :: y in done ==> |bs| > 0 && y.end <= bs[|bs| - 1].end)
    && (|bs| > 0 ==> bs[|bs| - 1].start <= done[|done| - 1].start)
  }

  lemma NextIsReady(bs: seq<Block>, ordered: seq<Span>, i: nat, source: nat)
    requires Sorted(ordered, false) && InSource(ordered, source) && i < |ordered|
    requires MergedSoFar(bs, ordered[..i], source)
    ensures Ready(bs, ordered[..i], ordered[i])
  {
    forall y | y in ordered[..i] ensures y.start < y.end && y.start <= ordered[i].start {
      var k :| 0 <= k < i && ordered[k] == y;
      assert y in ordered && Before(ordered[k], ordered[i], false);
    }
    assert ordered[i] in ordered;
    if i > 0 { assert Before(ordered[i - 1], ordered[i], false); }
  }

  lemma MergedOneMore(bs: seq<Block>, ordered: seq<Span>, i: nat, source: nat)
    requires Sorted(ordered, false) && InSource(ordered, source) && i < |ordered|
    requires MergedSoFar(bs, ordered[..i], source)
    ensures MergedSoFar(MergeStep(bs, ordered[i]), ordered[..i + 1], source)
  {
    NextIsReady(bs, ordered, i, source);
    MergeStepKeeps(bs, ordered[..i], ordered[i]);
    TakeOneMore(ordered, i);
    assert ordered[i] in ordered;
    var bs' := MergeStep(bs, ordered[i]);
    assert forall k :: 0 <= k < |bs'| ==> bs'[k].end <= source;
  }

  /** The merge loop of `_redact_spans`. */
  method MergeSpans(ordered: seq<Span>, source: nat) returns (merged: seq<Block>)
    requires Sorted(ordered, false) && InSource(ordered, source)
    ensures Merges(merged, ordered) && forall k :: 0 <= k < |merged| ==> merged[k].end <= source
  {
    merged := [];
    var i := 0;
    assert MergedSoFar(merged, ordered[..0], source);
    while i < |ordered|
      invariant 0 <= i <= |ordered|
      invariant MergedSoFar(merged, ordered[..i], source)
    {
      MergedOneMore(merged, ordered, i, source);
      merged := MergeStep(merged, ordered[i]);
      i := i + 1;
    }
    assert ordered[..i] == ordered;
  }

  /** `_redact_spans`: sort, merge, emit.  The result is the reference reading of the text. */
  method RedactSpans(text: string, spans: seq<Span>) returns (pieces: seq<Piece>)
    requires InSource(spans, |text|)
    ensures pieces == Reference(text, spans, 0)
  {
    var ordered := SortSpans(spans, false);
    var merged := MergeSpans(ordered, |text|);
    SameCoverage(ordered, spans);
    pieces := EmitPieces(text, merged);
    EmitIsReference(text, merged, spans, 0);
  }

  lemma SameCoverage(a: seq<Span>, b: seq<Span>)
    requires forall x :: x in a <==> x in b
    ensures forall i :: Covered(a, i) <==> Covered(b, i)
    ensures forall i, j :: KindsIn(a, i, j) == KindsIn(b, i, j)
  {
  }

  /** The output loop of `_redact_spans`. */
  method EmitPieces(text: string, bs: seq<Block>) returns (pieces: seq<Piece>)
    requires Separated(bs) && forall k :: 0 <= k < |bs| ==> bs[k].end <= |text|
    ensures pieces == Emit(text, bs, 0)
  {
    pieces := [];
    var cursor, k := 0, 0;
    while k < |bs|
      invariant 0 <= k <= |bs| && 0 <= cursor <= |text|
      invariant k < |bs| ==> cursor <= bs[k].start
      invariant Separated(bs[k..])
      invariant pieces + Emit(text, bs[k..], cursor) == Emit(text, bs, 0)
    {
      assert bs[k..][0] == bs[k] && bs[k..][1..] == bs[k + 1..];
      EmitUnfolds(text, bs[k..], cursor);
      pieces := pieces + Plains(text[cursor..bs[k].start]) + [Placeholder(bs[k].kinds)];
      cursor, k := bs[k].end, k + 1;
    }
    pieces := pieces + Plains(text[cursor..]);
  }

  // ---------------------------------------------------------------- what redaction guarantees

  /** The characters a released text still shows. */
  function Survivors(pieces: seq<Piece>): string {
    if |pieces| == 0 then ""
    else (if pieces[0].Plain? then [pieces[0].c] else "") + Survivors(pieces[1..])
  }

  /** The characters of the text under no span, in order. */
  function Uncovered(text: string, spans: seq<Span>, i: nat): string
    requires i <= |text|
    decreases |text| - i
  {
    if i == |text| then ""
    else (if Covered(spans, i) then "" else [text[i]]) + Uncovered(text, spans, i + 1)
  }

  lemma {:induction false} UncoveredSkips(text: string, spans: seq<Span>, i: nat, j: nat)
    requires i <= j <= |text| && forall k :: i <= k < j ==> Covered(spans, k)
    ensures Uncovered(text, spans, i) == Uncovered(text, spans, j)
    decreases j - i
  {
    if i < j { UncoveredSkips(text, spans, i + 1, j); }
  }

  /** Exactly the characters under no span survive, in order. */
  lemma {:induction false} OnlyUncoveredSurvive(text: string, spans: seq<Span>, i: nat)
    requires i <= |text|
    ensures Survivors(Reference(text, spans, i)) == Uncovered(text, spans, i)
    decreases |text| - i
  {
    if i < |text| {
      if Covered(spans, i) {
        var j := BlockEnd(spans, i + 1, |text|);
        UncoveredSkips(text, spans, i, j);
        OnlyUncoveredSurvive(text, spans, j);
        assert Reference(text, spans, i)[1..] == Reference(text, spans, j);
      } else {
        OnlyUncoveredSurvive(text, spans, i + 1);
        assert Reference(text, spans, i)[1..] == Reference(text, spans, i + 1);
      }
    }
  }

  /** Two placeholders never stand next to each other: one per maximal covered block. */
  lemma {:induction false} PlaceholdersAreMaximal(text: string, spans: seq<Span>, i: nat, k: nat)
    requires i <= |text| && k + 1 < |Reference(text, spans, i)|
    ensures Reference(text, spans, i)[k].Plain? || Reference(text, spans, i)[k + 1].Plain?
    decreases |text| - i
  {
    var r := Reference(text, spans, i);
    var j := if Covered(spans, i) then BlockEnd(spans, i + 1, |text|) else i + 1;
    assert r[1..] == Reference(text, spans, j);
    if k > 0 {
      PlaceholdersAreMaximal(text, spans, j, k - 1);
      assert r[k] == r[1..][k - 1] && r[k + 1] == r[1..][k];
    } else if Covered(spans, i) {
      assert r[1] == Reference(text, spans, j)[0];
    }
  }
}
