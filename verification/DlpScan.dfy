/** The bounded inspection worklist of src/app/dlp.py. */
module DlpScan {
  import opened Prelude
  import opened DlpViews

  datatype DataClass = Public | Internal | Confidential | HighlyConfidential | E2eePrivate

  datatype FindingType =
    | Secret | Jwt | BearerToken | PrivateKey | ApiKey | Email | Phone | PaymentCard | Cccd | TaxId
    | HealthData | CustomDictionary | InspectionLimit

  datatype Span = Span(start: nat, end: nat, kind: FindingType, detector: string, level: DataClass)

  const MAX_SCAN_CHARACTERS: nat := 65_536
  const MAX_DECODE_DEPTH: nat := 3
  const MAX_DECODED_CHARACTERS: nat := 262_144
  const MAX_DECODED_VIEWS: nat := 512

  /** The plain-text detectors as one parameter, with their only law: spans are nonempty and in range. */
  datatype Scanner = Scanner(codec: Codec, detect: string -> seq<Span>)

  ghost predicate LawfulScanner(s: Scanner) {
    && Lawful(s.codec)
    && forall text, i {:trigger s.detect(text)[i]} :: 0 <= i < |s.detect(text)| ==>
         s.detect(text)[i].start < s.detect(text)[i].end <= |text|
  }

  function LimitSpan(o: Origin): Span {
    Span(o.start, o.end, InspectionLimit, "inspection.budget", HighlyConfidential)
  }

  /** A detection in a view, carried back to the source. */
  function Traced(f: Face, found: Span, depth: nat): Span
    requires found.start < found.end <= |f.origins|
  {
    var o := SourceSpan(f, found.start, found.end);
    Span(o.start, o.end, found.kind, (if depth > 0 then "encoded." else "") + found.detector, found.level)
  }

  predicate SameEvidence(a: Span, b: Span) {
    a.start == b.start && a.end == b.end && a.kind == b.kind && a.level == b.level
  }

  predicate Reports(spans: seq<Span>, x: Span) {
    exists s :: s in spans && SameEvidence(s, x)
  }

  /** Every detection in the view is reported with its source range. */
  predicate Inspected(f: Face, spans: seq<Span>, s: Scanner)
    requires forall i :: 0 <= i < |s.detect(f.text)| ==>
      s.detect(f.text)[i].start < s.detect(f.text)[i].end <= |f.origins|
  {
    forall i :: 0 <= i < |s.detect(f.text)| ==> Reports(spans, Traced(f, s.detect(f.text)[i], 0))
  }

  /** A budget finding covers the whole source range of the view. */
  predicate Limited(f: Face, spans: seq<Span>)
    requires |f.origins| > 0
  {
    exists x :: x in spans && x.kind.InspectionLimit? && x.level.HighlyConfidential?
                && x.start <= Range(f).start && Range(f).end <= x.end
  }

  predicate InSource(spans: seq<Span>, source: nat) {
    forall x :: x in spans ==> x.start < x.end <= source
  }

  /** The inner `for found in ...` loop. */
  method TraceFindings(view: View, s: Scanner, source: nat) returns (spans: seq<Span>)
    requires LawfulScanner(s) && WellFormed(view.face, source)
    ensures Inspected(view.face, spans, s) && InSource(spans, source)
    ensures |spans| == |s.detect(view.face.text)|
    ensures forall i :: 0 <= i < |spans| ==> spans[i] == Traced(view.face, s.detect(view.face.text)[i], view.depth)
  {
    spans := [];
    var found := s.detect(view.face.text);
    var i := 0;
    while i < |found|
      invariant 0 <= i <= |found| && |spans| == i
      invariant forall k :: 0 <= k < i ==> spans[k] == Traced(view.face, found[k], view.depth)
    {
      spans := spans + [Traced(view.face, found[i], view.depth)];
      i := i + 1;
    }
    TracedAreReported(view, s, spans, source);
  }

  lemma TracedInSource(f: Face, found: Span, depth: nat, source: nat)
    requires WellFormed(f, source) && found.start < found.end <= |f.origins|
    ensures Traced(f, found, depth).start < Traced(f, found, depth).end <= source
  {
    assert f.origins[found.start].end <= f.origins[found.end - 1].end;
  }

  /** The reported range holds the source of every character of the match. */
  lemma TracedHoldsMatch(f: Face, found: Span, depth: nat, source: nat, m: nat)
    requires WellFormed(f, source) && found.start <= m < found.end <= |f.origins|
    ensures var x := Traced(f, found, depth); x.start <= f.origins[m].start && f.origins[m].end <= x.end
  {
    assert f.origins[found.start].start <= f.origins[m].start && f.origins[m].end <= f.origins[found.end - 1].end;
  }

  lemma TracedAreReported(view: View, s: Scanner, spans: seq<Span>, source: nat)
    requires WellFormed(view.face, source) && |spans| == |s.detect(view.face.text)|
    requires forall i :: 0 <= i < |s.detect(view.face.text)| ==>
      s.detect(view.face.text)[i].start < s.detect(view.face.text)[i].end <= |view.face.origins|
    requires forall i :: 0 <= i < |spans| ==> spans[i] == Traced(view.face, s.detect(view.face.text)[i], view.depth)
    ensures Inspected(view.face, spans, s) && InSource(spans, source)
  {
    var found := s.detect(view.face.text);
    forall x | x in spans ensures x.start < x.end <= source {
      var k :| 0 <= k < |spans| && spans[k] == x;
      TracedInSource(view.face, found[k], view.depth, source);
    }
    forall k | 0 <= k < |found| ensures Reports(spans, Traced(view.face, found[k], 0)) {
      assert spans[k] in spans && SameEvidence(spans[k], Traced(view.face, found[k], 0));
    }
  }

  /** A decoding that will be inspected, or whose whole source is already withheld. */
  predicate Accounted(g: Face, seen: set<Face>, spans: seq<Span>) {
    g in seen || (|g.origins| > 0 && Limited(g, spans))
  }

  lemma AccountedGrows(g: Face, seen: set<Face>, seen': set<Face>, spans: seq<Span>, spans': seq<Span>)
    requires Accounted(g, seen, spans) && seen <= seen' && forall x :: x in spans ==> x in spans'
    ensures Accounted(g, seen', spans')
  {
    if g !in seen {
      var x :| x in spans && x.kind.InspectionLimit? && x.level.HighlyConfidential?
               && x.start <= Range(g).start && Range(g).end <= x.end;
      assert x in spans';
    }
  }

  /** What the loop has established about one view it took from the queue. */
  ghost predicate Handled(f: Face, seen: set<Face>, spans: seq<Span>, s: Scanner, source: nat)
    requires LawfulScanner(s)
  {
    && WellFormed(f, source)
    && Inspected(f, spans, s)
    && forall g :: g in Decodings(f, s.codec) ==> Accounted(g, seen, spans)
  }

  function Faces(pending: seq<View>): set<Face> { set v | v in pending :: v.face }

  ghost predicate Progress(seen: set<Face>, pending: seq<View>, spans: seq<Span>, s: Scanner, source: nat)
    requires LawfulScanner(s)
  {
    && InSource(spans, source)
    && (forall f :: f in seen ==> WellFormed(f, source) && |f.text| > 0)
    && (forall v :: v in pending ==> v.face in seen)
    && (forall f :: f in seen && f !in Faces(pending) ==> Handled(f, seen, spans, s, source))
  }

  /** More views seen and more spans reported keep a handled view handled. */
  lemma HandledGrows(f: Face, seen: set<Face>, seen': set<Face>, spans: seq<Span>, spans': seq<Span>, s: Scanner,
                     source: nat)
    requires LawfulScanner(s) && Handled(f, seen, spans, s, source) && seen <= seen'
    requires forall x :: x in spans ==> x in spans'
    ensures Handled(f, seen', spans', s, source)
  {
    SpansGrow(f, spans, spans', s);
    forall g | g in Decodings(f, s.codec) ensures Accounted(g, seen', spans') {
      AccountedGrows(g, seen, seen', spans, spans');
    }
  }

  /** The budget test on one new decoding. */
  predicate OverBudget(depth: nat, seen: nat, total: nat, length: nat) {
    depth > MAX_DECODE_DEPTH || seen >= MAX_DECODED_VIEWS || total + length > MAX_DECODED_CHARACTERS
  }

  /** The characters of the given views. */
  function Characters(views: seq<View>): nat {
    if |views| == 0 then 0 else Characters(views[..|views| - 1]) + |views[|views| - 1].face.text|
  }

  lemma {:induction false} CharactersJoin(a: seq<View>, b: seq<View>)
    ensures Characters(a + b) == Characters(a) + Characters(b)
  {
    if |b| == 0 {
      assert a + b == a;
    } else {
      CharactersJoin(a, b[..|b| - 1]);
      assert (a + b)[..|a + b| - 1] == a + b[..|b| - 1];
    }
  }

  /** A budget span stands for one of the decodings, which no budget was left for. */
  predicate LimitFor(x: Span, gs: seq<Face>, depth: nat, seen: nat, total: nat) {
    exists g :: g in gs && |g.origins| > 0 && x == LimitSpan(Range(g)) && OverBudget(depth, seen, total, |g.text|)
  }

  /** What is left of the budgets never grows. */
  lemma LimitsStay(x: Span, gs: seq<Face>, depth: nat, seen: nat, total: nat, seen': nat, total': nat)
    requires LimitFor(x, gs, depth, seen, total) && seen <= seen' && total <= total'
    ensures LimitFor(x, gs, depth, seen', total')
  {
    var g :| g in gs && |g.origins| > 0 && x == LimitSpan(Range(g)) && OverBudget(depth, seen, total, |g.text|);
    assert OverBudget(depth, seen', total', |g.text|);
  }

  /** One decoding: skipped when seen, admitted within the budgets, else covered. */
  method Consider(g: Face, depth: nat, source: nat, seen0: set<Face>, total0: nat)
    returns (seen: set<Face>, total: nat, added: seq<View>, limits: seq<Span>)
    requires |seen0| <= MAX_DECODED_VIEWS && WellFormed(g, source) && |g.text| > 0
    ensures added == if g !in seen0 && !OverBudget(depth, |seen0|, total0, |g.text|) then [View(g, depth)] else []
    ensures limits == if g !in seen0 && added == [] then [LimitSpan(Range(g))] else []
    ensures limits != [] ==> OverBudget(depth, |seen|, total, |g.text|)
    ensures seen == seen0 + Faces(added) && |seen| == |seen0| + |added| <= MAX_DECODED_VIEWS
    ensures total == total0 + Characters(added)
    ensures InSource(limits, source) && Accounted(g, seen, limits)
    ensures g in seen || OverBudget(depth, |seen|, total, |g.text|)
  {
    seen, total, added, limits := seen0, total0, [], [];
    if g !in seen {
      if OverBudget(depth, |seen|, total, |g.text|) {
        assert g.origins[0].end <= g.origins[|g.origins| - 1].end;
        limits := [LimitSpan(Range(g))];
        assert LimitSpan(Range(g)) in limits;
      } else {
        added := [View(g, depth)];
        assert Faces(added) == {g} && Characters(added) == |g.text| by { assert added[..0] == []; }
        seen, total := seen + {g}, total + |g.text|;
      }
    }
  }

  /** `for decoded in _decoded_views(view)`: what has been seen is skipped, what fits the budgets is admitted, and the
      rest is covered.  A decoding is covered only when a budget is exhausted. */
  method ExpandView(gs: seq<Face>, depth: nat, source: nat, seen0: set<Face>, total0: nat)
    returns (seen: set<Face>, total: nat, added: seq<View>, limits: seq<Span>)
    requires |seen0| <= MAX_DECODED_VIEWS
    requires forall g :: g in gs ==> WellFormed(g, source) && |g.text| > 0
    ensures seen == seen0 + Faces(added) && |seen| == |seen0| + |added| <= MAX_DECODED_VIEWS
    ensures total == total0 + Characters(added)
    ensures added != [] ==> depth <= MAX_DECODE_DEPTH && total <= MAX_DECODED_CHARACTERS
    ensures InSource(limits, source)
    ensures forall v :: v in added ==> v.face in gs && v.depth == depth
    ensures forall g :: g in gs ==> Accounted(g, seen, limits)
    ensures forall g :: g in gs ==> g in seen || OverBudget(depth, |seen|, total, |g.text|)
    ensures forall x :: x in limits ==> LimitFor(x, gs, depth, |seen|, total)
  {
    seen, total, added, limits := seen0, total0, [], [];
    var i := 0;
    while i < |gs|
      invariant 0 <= i <= |gs| && |seen| <= MAX_DECODED_VIEWS
      invariant Harvested(gs, depth, source, seen0, total0, seen, total, added, limits)
      invariant Considered(gs, i, depth, seen, total, limits)
    {
      ghost var seen1, total1 := seen, total;
      var more, over;
      seen, total, more, over := Consider(gs[i], depth, source, seen, total);
      HarvestStep(gs, i, depth, source, seen0, total0, seen1, total1, added, limits, seen, total, more, over);
      added, limits := added + more, limits + over;
      i := i + 1;
    }
    ConsideredAll(gs, depth, seen, total, limits);
  }

  /** What the admitted decodings and the limits add up to. */
  predicate Harvested(gs: seq<Face>, depth: nat, source: nat, seen0: set<Face>, total0: nat, seen: set<Face>,
                      total: nat, added: seq<View>, limits: seq<Span>)
  {
    && seen == seen0 + Faces(added) && |seen| == |seen0| + |added| && total == total0 + Characters(added)
    && (added != [] ==> depth <= MAX_DECODE_DEPTH && total <= MAX_DECODED_CHARACTERS)
    && InSource(limits, source)
    && (forall v :: v in added ==> v.face in gs && v.depth == depth)
  }

  lemma {:induction false} HarvestGrows(
    gs: seq<Face>, g: Face, depth: nat, source: nat, seen0: set<Face>, total0: nat, seen: set<Face>, total: nat,
    added: seq<View>, limits: seq<Span>, more: seq<View>, over: seq<Span>)
    requires g in gs && Harvested(gs, depth, source, seen0, total0, seen, total, added, limits)
    requires more == [] || (more == [View(g, depth)] && !OverBudget(depth, |seen|, total, |g.text|))
    requires |seen + Faces(more)| == |seen| + |more| && InSource(over, source)
    ensures Harvested(gs, depth, source, seen0, total0, seen + Faces(more), total + Characters(more), added + more,
                      limits + over)
  {
    FacesJoin(added, more);
    CharactersJoin(added, more);
    if more != [] { assert more[..0] == [] && Characters(more) == |g.text|; }
  }

  lemma {:induction false} LimitHasReason(gs: seq<Face>, g: Face, depth: nat, seen: nat, total: nat, over: seq<Span>)
    requires g in gs && |g.origins| > 0
    requires over == [] || (over == [LimitSpan(Range(g))] && OverBudget(depth, seen, total, |g.text|))
    ensures forall x :: x in over ==> LimitFor(x, gs, depth, seen, total)
  {
  }

  lemma {:induction false} HarvestStep(
    gs: seq<Face>, n: nat, depth: nat, source: nat, seen0: set<Face>, total0: nat, seen: set<Face>, total: nat,
    added: seq<View>, limits: seq<Span>, seen': set<Face>, total': nat, more: seq<View>, over: seq<Span>)
    requires n < |gs| && Harvested(gs, depth, source, seen0, total0, seen, total, added, limits)
    requires Considered(gs, n, depth, seen, total, limits)
    requires more == [] || (more == [View(gs[n], depth)] && !OverBudget(depth, |seen|, total, |gs[n].text|))
    requires seen' == seen + Faces(more) && |seen'| == |seen| + |more| && total' == total + Characters(more)
    requires |gs[n].origins| > 0 && InSource(over, source) && Accounted(gs[n], seen', over)
    requires over == [] || (over == [LimitSpan(Range(gs[n]))] && OverBudget(depth, |seen'|, total', |gs[n].text|))
    requires gs[n] in seen' || OverBudget(depth, |seen'|, total', |gs[n].text|)
    ensures Harvested(gs, depth, source, seen0, total0, seen', total', added + more, limits + over)
    ensures Considered(gs, n + 1, depth, seen', total', limits + over)
  {
    assert gs[n] in gs;
    HarvestGrows(gs, gs[n], depth, source, seen0, total0, seen, total, added, limits, more, over);
    LimitHasReason(gs, gs[n], depth, |seen'|, total', over);
    ConsideredStep(gs, n, depth, seen, total, limits, seen', total', over);
  }

  lemma {:induction false} ConsideredAll(gs: seq<Face>, depth: nat, seen: set<Face>, total: nat, limits: seq<Span>)
    requires Considered(gs, |gs|, depth, seen, total, limits)
    ensures forall g :: g in gs ==> Settled(g, depth, seen, total, limits)
  {
    forall g | g in gs ensures Settled(g, depth, seen, total, limits) {
      var k :| 0 <= k < |gs| && gs[k] == g;
      assert Settled(gs[k], depth, seen, total, limits);
    }
  }

  /** A decoding was admitted, or is covered because a budget is exhausted. */
  predicate Settled(g: Face, depth: nat, seen: set<Face>, total: nat, limits: seq<Span>) {
    Accounted(g, seen, limits) && (g in seen || OverBudget(depth, |seen|, total, |g.text|))
  }

  /** The first `n` decodings are dealt with, and every limit has its reason. */
  predicate Considered(gs: seq<Face>, n: nat, depth: nat, seen: set<Face>, total: nat, limits: seq<Span>) {
    && n <= |gs| && (forall k :: 0 <= k < n ==> Settled(gs[k], depth, seen, total, limits))
    && (forall x :: x in limits ==> LimitFor(x, gs, depth, |seen|, total))
  }

  lemma {:induction false} ConsideredStep(gs: seq<Face>, n: nat, depth: nat, seen: set<Face>, total: nat,
                                          limits: seq<Span>, seen': set<Face>, total': nat, over: seq<Span>)
    requires n < |gs| && Considered(gs, n, depth, seen, total, limits)
    requires seen <= seen' && |seen| <= |seen'| && total <= total' && Accounted(gs[n], seen', over)
    requires gs[n] in seen' || OverBudget(depth, |seen'|, total', |gs[n].text|)
    requires forall x :: x in over ==> LimitFor(x, gs, depth, |seen'|, total')
    ensures Considered(gs, n + 1, depth, seen', total', limits + over)
  {
    var all := limits + over;
    AccountedGrows(gs[n], seen', seen', over, all);
    forall k | 0 <= k < n + 1 ensures Settled(gs[k], depth, seen', total', all) {
      if k < n {
        assert Settled(gs[k], depth, seen, total, limits);
        AccountedGrows(gs[k], seen, seen', limits, all);
      }
    }
    forall x | x in all ensures LimitFor(x, gs, depth, |seen'|, total') {
      if x in limits { LimitsStay(x, gs, depth, |seen|, total, |seen'|, total'); }
    }
  }

  // ---------------------------------------------------------------- the worklist

  /** The admitted views in order: distinct, within all three budgets, each but the first decoded from an
      earlier one. */
  ghost predicate WithinBudgets(views: seq<View>, total: nat, s: Scanner)
    requires LawfulScanner(s)
  {
    && |Faces(views)| == |views| <= MAX_DECODED_VIEWS
    && total == Characters(views) && (|views| > 1 ==> total <= MAX_DECODED_CHARACTERS)
    && (forall v :: v in views ==> v.depth <= MAX_DECODE_DEPTH)
    && (forall i :: 0 < i < |views| ==> Derived(views, i, s))
  }

  ghost predicate Derived(views: seq<View>, i: nat, s: Scanner)
    requires LawfulScanner(s) && i < |views|
  {
    exists j :: 0 <= j < i && ChildOf(views[i], views[j], s)
  }

  ghost predicate ChildOf(v: View, u: View, s: Scanner)
    requires LawfulScanner(s)
  {
    |u.face.origins| == |u.face.text| && v.face in Decodings(u.face, s.codec) && v.depth == u.depth + 1
  }

  /** Every decoding of the first `n` views was admitted, unless a budget is exhausted. */
  ghost predicate Exhausted(views: seq<View>, n: nat, total: nat, s: Scanner)
    requires LawfulScanner(s) && n <= |views|
  {
    forall i :: 0 <= i < n ==> Drained(views[i], Faces(views), |views|, total, s)
  }

  ghost predicate Drained(v: View, faces: set<Face>, seen: nat, total: nat, s: Scanner)
    requires LawfulScanner(s)
  {
    |v.face.origins| == |v.face.text| ==>
      forall g :: g in Decodings(v.face, s.codec) ==> g in faces || OverBudget(v.depth + 1, seen, total, |g.text|)
  }

  lemma {:induction false} DrainedGrows(v: View, faces: set<Face>, seen: nat, total: nat, faces': set<Face>,
                                        seen': nat, total': nat, s: Scanner)
    requires LawfulScanner(s) && Drained(v, faces, seen, total, s) && faces <= faces' && seen <= seen'
    requires total <= total'
    ensures Drained(v, faces', seen', total', s)
  {
  }

  /** A span is a detection in an admitted view, or covers a decoding for which no budget was left. */
  ghost predicate Justified(x: Span, views: seq<View>, total: nat, s: Scanner)
    requires LawfulScanner(s)
  {
    || (exists v, i :: v in views && DetectionOf(x, v, i, s))
    || (exists v :: v in views && CoverOf(x, v, |views|, total, s))
  }

  ghost predicate DetectionOf(x: Span, v: View, i: nat, s: Scanner)
    requires LawfulScanner(s)
  {
    && |v.face.origins| == |v.face.text| && i < |s.detect(v.face.text)|
    && x == Traced(v.face, s.detect(v.face.text)[i], v.depth)
  }

  ghost predicate CoverOf(x: Span, v: View, seen: nat, total: nat, s: Scanner)
    requires LawfulScanner(s)
  {
    |v.face.origins| == |v.face.text| && LimitFor(x, Decodings(v.face, s.codec), v.depth + 1, seen, total)
  }

  /** The worklist of `_detect_spans`.  At exit nothing decodable was silently skipped: every seen view was inspected,
      and each of its decodings was seen or covered by a budget span; the three budgets hold; a decoding was left out
      only when a budget was exhausted; and nothing is reported without a reason. */
  method InspectViews(text: string, s: Scanner)
    returns (seen: set<Face>, spans: seq<Span>, total: nat, ghost views: seq<View>)
    requires LawfulScanner(s) && |text| > 0
    ensures |views| > 0 && views[0] == View(RootFace(text), 0) && seen == Faces(views)
    ensures WithinBudgets(views, total, s) && Exhausted(views, |views|, total, s)
    ensures forall x :: x in spans ==> Justified(x, views, total, s)
    ensures Progress(seen, [], spans, s, |text|)
  {
    var root := RootFace(text);
    var pending := [View(root, 0)];
    seen, spans, total, views := {root}, [], |text|, pending;
    assert View(root, 0) in pending && root in Faces(pending);
    assert Characters(views) == |text| by { assert views[..0] == []; }
    ghost var done := 0;
    while |pending| > 0
      invariant 0 <= done <= |views| && pending == views[done..]
      invariant |views| > 0 && views[0] == View(root, 0) && seen == Faces(views)
      invariant Working(views, done, total, spans, s)
      invariant Progress(seen, pending, spans, s, |text|)
      decreases MAX_DECODED_VIEWS - |seen| + |pending|
    {
      var found, seen', total', added, limits;
      found, seen', total', added, limits := InspectOne(pending[0], s, |text|, seen, total, pending, spans);
      QueueStep(views, done, pending, added);
      WorkStep(views, done, total, added, total', s, spans, found, limits);
      seen, spans, pending, total := seen', spans + found + limits, pending[1..] + added, total';
      views, done := views + added, done + 1;
    }
  }

  /** Everything said about the admitted views, the first `n` of which are done, and the spans. */
  ghost predicate Working(views: seq<View>, n: nat, total: nat, spans: seq<Span>, s: Scanner)
    requires LawfulScanner(s)
  {
    && n <= |views| && WithinBudgets(views, total, s) && Exhausted(views, n, total, s)
    && (forall x :: x in spans ==> Justified(x, views, total, s))
  }

  /** The queue holds the admitted views that are not done. */
  lemma {:induction false} QueueStep(views: seq<View>, n: nat, pending: seq<View>, added: seq<View>)
    requires n <= |views| && pending == views[n..] && |pending| > 0
    ensures views[n] == pending[0] && |pending[1..] + added| == |pending| - 1 + |added|
    ensures (views + added)[n + 1..] == pending[1..] + added
    ensures Faces(views + added) == Faces(views) + Faces(added)
  {
    FacesJoin(views, added);
  }

  /** One turn of the loop. */
  method InspectOne(view: View, s: Scanner, source: nat, seen0: set<Face>, total0: nat,
                    ghost pending0: seq<View>, ghost spans0: seq<Span>)
    returns (found: seq<Span>, seen: set<Face>, total: nat, added: seq<View>, limits: seq<Span>)
    requires LawfulScanner(s) && |seen0| <= MAX_DECODED_VIEWS
    requires Progress(seen0, pending0, spans0, s, source) && |pending0| > 0 && pending0[0] == view
    ensures Progress(seen, pending0[1..] + added, spans0 + found + limits, s, source)
    ensures seen == seen0 + Faces(added) && |seen| == |seen0| + |added| <= MAX_DECODED_VIEWS
    ensures total == total0 + Characters(added)
    ensures |view.face.origins| == |view.face.text|
    ensures Expanded(view, s, seen, total, added, limits)
    ensures forall x :: x in found ==> exists i :: DetectionOf(x, view, i, s)
  {
    assert view in pending0;
    found := TraceFindings(view, s, source);
    var gs := Decodings(view.face, s.codec);
    forall g | g in gs ensures WellFormed(g, source) && |g.text| > 0 {
      DecodingsGood(view.face, s.codec, source, g);
    }
    seen, total, added, limits := ExpandView(gs, view.depth + 1, source, seen0, total0);
    ProgressStep(view, seen0, seen, pending0, pending0[1..] + added, spans0, spans0 + found + limits, found, limits,
                 added, s, source);
    TracedAreDetections(view, s, found);
  }

  lemma {:induction false} TracedAreDetections(view: View, s: Scanner, found: seq<Span>)
    requires LawfulScanner(s) && |view.face.origins| == |view.face.text| && |found| == |s.detect(view.face.text)|
    requires forall i :: 0 <= i < |found| ==> found[i] == Traced(view.face, s.detect(view.face.text)[i], view.depth)
    ensures forall x :: x in found ==> exists i :: DetectionOf(x, view, i, s)
  {
    forall x | x in found ensures exists i :: DetectionOf(x, view, i, s) {
      var i :| 0 <= i < |found| && found[i] == x;
      assert DetectionOf(x, view, i, s);
    }
  }

  /** The outcome of expanding one view. */
  ghost predicate Expanded(view: View, s: Scanner, seen: set<Face>, total: nat, added: seq<View>, limits: seq<Span>)
    requires LawfulScanner(s) && |view.face.origins| == |view.face.text|
  {
    var gs, depth := Decodings(view.face, s.codec), view.depth + 1;
    && (added != [] ==> depth <= MAX_DECODE_DEPTH && total <= MAX_DECODED_CHARACTERS)
    && (forall v :: v in added ==> v.face in gs && v.depth == depth)
    && (forall g :: g in gs ==> g in seen || OverBudget(depth, |seen|, total, |g.text|))
    && (forall x :: x in limits ==> LimitFor(x, gs, depth, |seen|, total))
  }

  lemma {:induction false} JustifiedGrows(x: Span, views: seq<View>, total: nat, views': seq<View>, total': nat,
                                          s: Scanner)
    requires LawfulScanner(s) && Justified(x, views, total, s) && views <= views' && total <= total'
    ensures Justified(x, views', total', s)
  {
    assert forall v :: v in views ==> v in views';
    if v, i :| v in views && DetectionOf(x, v, i, s) {
      assert v in views';
    } else {
      var v :| v in views && CoverOf(x, v, |views|, total, s);
      LimitsStay(x, Decodings(v.face, s.codec), v.depth + 1, |views|, total, |views'|, total');
      assert v in views' && CoverOf(x, v, |views'|, total', s);
    }
  }

  lemma {:induction false} BudgetsStep(views: seq<View>, n: nat, total: nat, added: seq<View>, total': nat, s: Scanner)
    requires LawfulScanner(s) && n < |views| && WithinBudgets(views, total, s)
    requires |views[n].face.origins| == |views[n].face.text| && total' == total + Characters(added)
    requires |Faces(views + added)| == |views| + |added| <= MAX_DECODED_VIEWS
    requires Expanded(views[n], s, Faces(views + added), total', added, [])
    ensures WithinBudgets(views + added, total', s)
  {
    var views' := views + added;
    CharactersJoin(views, added);
    assert added == [] ==> views' == views;
    forall i | 0 < i < |views'| ensures Derived(views', i, s) {
      if i < |views| {
        assert Derived(views, i, s);
        var j :| 0 <= j < i && ChildOf(views[i], views[j], s);
        assert ChildOf(views'[i], views'[j], s);
      } else {
        assert views'[i] in added && ChildOf(views'[i], views'[n], s);
      }
    }
  }

  lemma {:induction false} ExpandedDrains(view: View, s: Scanner, seen: set<Face>, total: nat, added: seq<View>,
                                          limits: seq<Span>)
    requires LawfulScanner(s) && |view.face.origins| == |view.face.text|
    requires Expanded(view, s, seen, total, added, limits)
    ensures Drained(view, seen, |seen|, total, s)
  {
  }

  lemma {:induction false} ExhaustedStep(views: seq<View>, n: nat, total: nat, views': seq<View>, total': nat,
                                         s: Scanner)
    requires LawfulScanner(s) && n < |views| && Exhausted(views, n, total, s) && views <= views' && total <= total'
    requires Drained(views[n], Faces(views'), |views'|, total', s)
    ensures Exhausted(views', n + 1, total', s)
  {
    assert Faces(views) <= Faces(views');
    forall i | 0 <= i < n + 1 ensures Drained(views'[i], Faces(views'), |views'|, total', s) {
      assert views'[i] == views[i];
      if i < n { DrainedGrows(views[i], Faces(views), |views|, total, Faces(views'), |views'|, total', s); }
    }
  }

  /** Handling one view keeps everything said about the admitted views and the spans. */
  lemma {:induction false} WorkStep(views: seq<View>, n: nat, total: nat, added: seq<View>, total': nat, s: Scanner,
                 spans: seq<Span>, found: seq<Span>, limits: seq<Span>)
    requires LawfulScanner(s) && n < |views| && Working(views, n, total, spans, s)
    requires |views[n].face.origins| == |views[n].face.text| && total' == total + Characters(added)
    requires |Faces(views) + Faces(added)| == |views| + |added| <= MAX_DECODED_VIEWS
    requires Expanded(views[n], s, Faces(views) + Faces(added), total', added, limits)
    requires forall x :: x in found ==> exists i :: DetectionOf(x, views[n], i, s)
    ensures Working(views + added, n + 1, total', spans + found + limits, s)
  {
    var views' := views + added;
    FacesJoin(views, added);
    BudgetsStep(views, n, total, added, total', s);
    ExpandedDrains(views[n], s, Faces(views'), total', added, limits);
    ExhaustedStep(views, n, total, views', total', s);
    forall x | x in spans + found + limits ensures Justified(x, views', total', s) {
      if x in spans {
        JustifiedGrows(x, views, total, views', total', s);
      } else if x in found {
        var i :| DetectionOf(x, views[n], i, s);
        assert views[n] in views';
      } else {
        assert views[n] in views' && CoverOf(x, views[n], |views'|, total', s);
      }
    }
  }

  lemma SpansGrow(f: Face, a: seq<Span>, b: seq<Span>, s: Scanner)
    requires LawfulScanner(s) && |f.origins| == |f.text| && Inspected(f, a, s) && forall x :: x in a ==> x in b
    ensures Inspected(f, b, s)
  {
    forall i | 0 <= i < |s.detect(f.text)| ensures Reports(b, Traced(f, s.detect(f.text)[i], 0)) {
      assert Reports(a, Traced(f, s.detect(f.text)[i], 0));
    }
  }

  lemma FacesJoin(a: seq<View>, b: seq<View>)
    ensures Faces(a + b) == Faces(a) + Faces(b)
  {
    assert forall v :: v in a + b <==> v in a || v in b;
  }

  lemma FacesHead(a: seq<View>)
    requires |a| > 0
    ensures Faces(a) == {a[0].face} + Faces(a[1..])
  {
    assert a == [a[0]] + a[1..];
    FacesJoin([a[0]], a[1..]);
  }

  /** Taking one view from the queue and expanding it keeps the books. */
  lemma ProgressStep(view: View, seen0: set<Face>, seen: set<Face>, pending0: seq<View>, pending: seq<View>,
                     spans0: seq<Span>, spans: seq<Span>, found: seq<Span>, limits: seq<Span>, added: seq<View>,
                     s: Scanner, source: nat)
    requires LawfulScanner(s) && Progress(seen0, pending0, spans0, s, source)
    requires |pending0| > 0 && pending0[0] == view && pending == pending0[1..] + added
    requires seen == seen0 + Faces(added) && spans == spans0 + found + limits
    requires InSource(found, source) && InSource(limits, source)
    requires WellFormed(view.face, source) && Inspected(view.face, found, s)
    requires forall v :: v in added ==> WellFormed(v.face, source) && |v.face.text| > 0
    requires forall g :: g in Decodings(view.face, s.codec) ==> Accounted(g, seen, limits)
    ensures Progress(seen, pending, spans, s, source)
  {
    FacesJoin(pending0[1..], added);
    FacesHead(pending0);
    forall f | f in seen && f !in Faces(pending) ensures Handled(f, seen, spans, s, source) {
      if f == view.face {
        SpansGrow(f, found, spans, s);
        forall g | g in Decodings(f, s.codec) ensures Accounted(g, seen, spans) {
          AccountedGrows(g, seen, seen, limits, spans);
        }
      } else {
        HandledGrows(f, seen0, seen, spans0, spans, s, source);
      }
    }
  }

  /** Closure over every chain of decodings: the last view of a chain was inspected, or a budget
      span covers its whole source range. */
  lemma EveryReachableViewIsAccountedFor(views: seq<Face>, seen: set<Face>, spans: seq<Span>, s: Scanner, source: nat)
    requires LawfulScanner(s) && Progress(seen, [], spans, s, source)
    requires |views| > 0 && views[0] in seen && Chain(views, s.codec)
    ensures var f := views[|views| - 1];
      WellFormed(f, source) && |f.text| > 0 && (Inspected(f, spans, s) || Limited(f, spans))
  {
    NestedDecodingsStayWellFormed(views, s.codec, source, |views| - 1);
    ChainAccounted(views, seen, spans, s, source, |views| - 1);
  }

  lemma {:induction false} ChainAccounted(views: seq<Face>, seen: set<Face>, spans: seq<Span>, s: Scanner,
                                          source: nat, i: nat)
    requires LawfulScanner(s) && Progress(seen, [], spans, s, source)
    requires i < |views| && views[0] in seen && Chain(views, s.codec)
    ensures Accounted(views[i], seen, spans)
  {
    if i > 0 {
      var f, g := views[i - 1], views[i];
      ChainAccounted(views, seen, spans, s, source, i - 1);
      NestedDecodingsStayWellFormed(views, s.codec, source, i - 1);
      DecodingsGood(f, s.codec, source, g);
      if f in seen {
        assert Handled(f, seen, spans, s, source);
      } else {
        ShrunkStaysLimited(f, g, spans, source);
      }
    }
  }

  /** A view decoded from a covered view is covered by the same span. */
  lemma ShrunkStaysLimited(f: Face, g: Face, spans: seq<Span>, source: nat)
    requires |f.origins| > 0 && GoodChild(f, g, source) && Limited(f, spans)
    ensures Limited(g, spans)
  {
    assert Range(f).start <= Range(g).start && Range(g).end <= Range(f).end;
  }
}
