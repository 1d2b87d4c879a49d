/** The trust-boundary decision of src/app/dlp.py. */
module DlpPolicy {
  import opened Prelude
  import opened DlpViews
  import opened DlpScan
  import opened DlpRedact

  datatype Action = Allow | Redact | Confirm | Block | LocalOnly

  function Rank(c: DataClass): nat {
    match c
    case Public => 0
    case Internal => 1
    case Confidential => 2
    case HighlyConfidential => 3
    case E2eePrivate => 4
  }

  /** The default of `DLPPolicy`. */
  function DefaultPolicy(c: DataClass): Action {
    match c
    case Public => Allow
    case Internal => Confirm
    case Confidential => Redact
    case HighlyConfidential => Action.Block
    case E2eePrivate => LocalOnly
  }

  predicate Overlap(a: Span, b: Span) { a.start < b.end && b.start < a.end }

  /** First occurrences only. */
  function Unique(spans: seq<Span>): (r: seq<Span>)
    ensures forall x :: x in r <==> x in spans
    ensures Distinct(r)
  {
    if |spans| == 0 then []
    else
      var front, x := Unique(spans[..|spans| - 1]), spans[|spans| - 1];
      assert spans == spans[..|spans| - 1] + [x];
      if x in front then front else front + [x]
  }

  /** A phone-shaped span yields to overlapping tax-id evidence. */
  predicate Outranked(spans: seq<Span>, x: Span) {
    x.kind.Phone? && exists t :: t in spans && t.kind.TaxId? && t.start < t.end && Overlap(x, t)
  }

  predicate Retained(spans: seq<Span>, x: Span) { x.start < x.end && !Outranked(spans, x) }

  function Filtered(spans: seq<Span>, whole: seq<Span>): (r: seq<Span>)
    ensures forall x :: x in r <==> x in spans && Retained(whole, x)
    ensures Distinct(spans) ==> Distinct(r)
  {
    if |spans| == 0 then [] else
      assert spans == [spans[0]] + spans[1..];
      (if Retained(whole, spans[0]) then [spans[0]] else []) + Filtered(spans[1..], whole)
  }

  function OfKinds(spans: seq<Span>, kinds: set<FindingType>): (r: seq<Span>)
    ensures forall x :: x in r <==> x in spans && x.kind in kinds
  {
    if |spans| == 0 then [] else
      assert spans == [spans[0]] + spans[1..];
      (if spans[0].kind in kinds then [spans[0]] else []) + OfKinds(spans[1..], kinds)
  }

  /** `_deduplicate_and_disambiguate`: exactly the retained spans remain, once each, in source order and by
      type name within one range. */
  function Disambiguate(spans: seq<Span>): (r: seq<Span>)
    ensures Sorted(r, true) && Distinct(r)
    ensures forall x :: x in r <==> (x in spans && Retained(spans, x))
  {
    var kept := Filtered(Unique(spans), spans);
    DistinctRearranged(kept, SortSpans(kept, true));
    SortSpans(kept, true)
  }

  lemma {:induction false} DistinctCounts(s: seq<Span>, x: Span)
    requires Distinct(s)
    ensures multiset(s)[x] <= 1
  {
    if |s| > 0 {
      var n := |s| - 1;
      assert s == s[..n] + [s[n]];
      DistinctCounts(s[..n], x);
      assert s[n] !in s[..n];
    }
  }

  /** A rearrangement of distinct spans is distinct. */
  lemma DistinctRearranged(a: seq<Span>, b: seq<Span>)
    requires Distinct(a) && multiset(a) == multiset(b)
    ensures Distinct(b)
  {
    forall i, j | 0 <= i < j < |b| ensures b[i] != b[j] {
      DistinctCounts(a, b[i]);
      assert b == b[..j] + b[j..];
      assert b[i] in b[..j] && b[j] in b[j..];
    }
  }

  lemma {:induction false} UniquePeers(spans: seq<Span>, y: Span)
    ensures Peers(Unique(spans), y, true) == Unique(Peers(spans, y, true))
  {
    if |spans| > 0 {
      var n := |spans| - 1;
      var front, x := spans[..n], spans[n];
      assert spans == front + [x];
      UniquePeers(front, y);
      PeersAppend(front, x, y, true);
      PeersAppend(Unique(front), x, y, true);
      PeersMember(front, y, x);
      UniqueAppend(front, x);
      if SameKey(x, y, true) {
        UniqueAppend(Peers(front, y, true), x);
      } else {
        assert Peers(front, y, true) + [] == Peers(front, y, true);
        assert Peers(Unique(front), y, true) + [] == Peers(Unique(front), y, true);
      }
    }
  }

  lemma UniqueAppend(spans: seq<Span>, x: Span)
    ensures Unique(spans + [x]) == if x in spans then Unique(spans) else Unique(spans) + [x]
  {
    assert (spans + [x])[..|spans|] == spans;
  }

  lemma {:induction false} PeersMember(spans: seq<Span>, y: Span, x: Span)
    ensures x in Peers(spans, y, true) <==> x in spans && SameKey(x, y, true)
  {
    if |spans| > 0 {
      assert spans == [spans[0]] + spans[1..];
      PeersMember(spans[1..], y, x);
    }
  }

  function If(keep: bool, x: Span): seq<Span> { if keep then [x] else [] }

  lemma PeersOfIf(keep: bool, x: Span, spans: seq<Span>, y: Span)
    ensures Peers(If(keep, x) + spans, y, true) == If(keep && SameKey(x, y, true), x) + Peers(spans, y, true)
  {
    if keep { PeersCons(x, spans, y, true); } else { assert [] + spans == spans; }
  }

  lemma FilteredOfIf(keep: bool, x: Span, spans: seq<Span>, whole: seq<Span>)
    ensures Filtered(If(keep, x) + spans, whole) == If(keep && Retained(whole, x), x) + Filtered(spans, whole)
  {
    if keep { assert ([x] + spans)[1..] == spans; } else { assert [] + spans == spans; }
  }

  lemma {:induction false} FilteredPeers(spans: seq<Span>, whole: seq<Span>, y: Span)
    ensures Peers(Filtered(spans, whole), y, true) == Filtered(Peers(spans, y, true), whole)
  {
    if |spans| > 0 {
      var x, rest := spans[0], spans[1..];
      assert spans == [x] + rest;
      FilteredPeers(rest, whole, y);
      FilteredOfIf(true, x, rest, whole);
      PeersOfIf(Retained(whole, x), x, Filtered(rest, whole), y);
      PeersOfIf(true, x, rest, y);
      FilteredOfIf(SameKey(x, y, true), x, Peers(rest, y, true), whole);
    }
  }

  /** Findings of one range and type stay in the order in which they were first found. */
  lemma DisambiguateKeepsOrder(spans: seq<Span>, y: Span)
    ensures Peers(Disambiguate(spans), y, true) == Filtered(Unique(Peers(spans, y, true)), spans)
  {
    SortIsStable(Filtered(Unique(spans), spans), y, true);
    FilteredPeers(Unique(spans), spans, y);
    UniquePeers(spans, y);
  }

  /** What an inspection of the text has established: every seen view was inspected and every decoding was seen or
      covered, all within the budgets. */
  ghost predicate Examined(text: string, s: Scanner, seen: set<Face>, raw: seq<Span>, views: seq<View>)
    requires LawfulScanner(s)
  {
    && 0 < |text| <= MAX_SCAN_CHARACTERS
    && |views| > 0 && views[0] == View(RootFace(text), 0) && seen == Faces(views)
    && Progress(seen, [], raw, s, |text|) && Characters(views) <= MAX_DECODED_CHARACTERS
    && Working(views, |views|, Characters(views), raw, s)
  }

  /** `_detect_spans`: fail closed on an oversized text, otherwise run the worklist. */
  method DetectSpans(text: string, s: Scanner)
    returns (spans: seq<Span>, ghost seen: set<Face>, ghost raw: seq<Span>, ghost views: seq<View>)
    requires LawfulScanner(s)
    ensures InSource(spans, |text|)
    ensures |text| > MAX_SCAN_CHARACTERS ==> spans == [LimitSpan(Origin(0, |text|))]
    ensures |text| == 0 ==> spans == []
    ensures 0 < |text| <= MAX_SCAN_CHARACTERS ==> Examined(text, s, seen, raw, views) && spans == Disambiguate(raw)
  {
    seen, raw, views := {}, [], [];
    if |text| > MAX_SCAN_CHARACTERS {
      spans := [LimitSpan(Origin(0, |text|))];
    } else if |text| == 0 {
      spans := [];
    } else {
      var faces, found, total;
      faces, found, total, views := InspectViews(text, s);
      seen, raw := faces, found;
      RootOnly(views);
      spans := Disambiguate(found);
    }
  }

  lemma {:induction false} RootOnly(views: seq<View>)
    requires |views| > 0
    ensures |views| == 1 ==> Characters(views) == |views[0].face.text|
  {
    if |views| == 1 { assert views[..0] == []; }
  }

  /** The highest class among findings that are not simply removed. */
  function Inferred(spans: seq<Span>, removable: set<FindingType>): (c: DataClass)
    ensures forall x :: x in spans && x.kind !in removable ==> Rank(x.level) <= Rank(c)
    ensures c == Public || exists x :: x in spans && x.kind !in removable && x.level == c
  {
    if |spans| == 0 then Public
    else
      var x, rest := spans[0], Inferred(spans[1..], removable);
      assert spans == [x] + spans[1..];
      if x.kind !in removable && Rank(x.level) > Rank(rest) then x.level else rest
  }

  datatype Decision = Decision(action: Action, effective: DataClass, output: Option<seq<Piece>>)

  /** The spans a released text is redacted with. */
  function Withheld(spans: seq<Span>, action: Action, removable: set<FindingType>): (r: seq<Span>)
    ensures forall x :: x in r <==> x in spans && (action.Allow? ==> x.kind in removable)
  {
    if action.Allow? then OfKinds(spans, removable) else spans
  }

  /** `evaluate`, after normalisation and detection. */
  function Decide(text: string, spans: seq<Span>, policy: DataClass -> Action, declared: DataClass, confirmed: bool,
                  removable: set<FindingType>): Decision
  {
    var inferred := Inferred(spans, removable);
    var effective := if Rank(inferred) > Rank(declared) then inferred else declared;
    var action := if policy(effective).Confirm? && confirmed then Allow else policy(effective);
    Decision(action, effective,
      if action.Allow? || action.Redact? then Some(Reference(text, Withheld(spans, action, removable), 0)) else None)
  }

  lemma DecideUnfolds(text: string, spans: seq<Span>, policy: DataClass -> Action, declared: DataClass, confirmed: bool,
                      removable: set<FindingType>, effective: DataClass, action: Action)
    requires effective
          == if Rank(Inferred(spans, removable)) > Rank(declared) then Inferred(spans, removable) else declared
    requires action == if policy(effective).Confirm? && confirmed then Allow else policy(effective)
    ensures Decide(text, spans, policy, declared, confirmed, removable) == Decision(action, effective,
      if action.Allow? || action.Redact? then Some(Reference(text, Withheld(spans, action, removable), 0)) else None)
  {
  }

  /** The finding `k` in the last view of a chain of decodings is kept as evidence, or was a phone shape overruled by
      tax-id evidence. */
  ghost predicate FindingKept(text: string, s: Scanner, raw: seq<Span>, views: seq<Face>, k: nat)
    requires LawfulScanner(s)
  {
    |views| > 0 && views[0] == RootFace(text) && Chain(views, s.codec) ==>
      var f := views[|views| - 1];
      && WellFormed(f, |text|) && |f.text| > 0
      && (k < |s.detect(f.text)| ==>
            exists y :: y in raw && SameEvidence(y, Traced(f, s.detect(f.text)[k], 0))
                        && (y in Disambiguate(raw) || Outranked(raw, y)))
  }

  /** What a released text owes to the findings. */
  ghost predicate FindingHidden(text: string, spans: seq<Span>, d: Decision, removable: set<FindingType>, y: Span)
    requires d.output.Some?
  {
    var withheld := Withheld(spans, d.action, removable);
    && Survivors(d.output.value) == Uncovered(text, withheld, 0)
    && (y in withheld || Rank(y.level) <= Rank(Internal))
    && (y in withheld ==> forall i :: y.start <= i < y.end ==> Covered(withheld, i))
  }

  /** A source character under the match. */
  predicate Feeds(f: Face, found: Span, m: nat, p: int) {
    found.start <= m < found.end <= |f.origins| && f.origins[m].start <= p < f.origins[m].end
  }

  /** Every source character that feeds the finding `k` in the last view of a chain of decodings is withheld, unless
      the finding is at most internal or was overruled by tax-id evidence. */
  ghost predicate MatchHidden(text: string, s: Scanner, raw: seq<Span>, withheld: seq<Span>, chain: seq<Face>, k: nat,
                              m: nat, p: int)
    requires LawfulScanner(s)
  {
    |chain| > 0 && chain[0] == RootFace(text) && Chain(chain, s.codec) ==>
      var f := chain[|chain| - 1];
      k < |s.detect(f.text)| && Feeds(f, s.detect(f.text)[k], m, p) ==>
        || Covered(withheld, p)
        || Rank(s.detect(f.text)[k].level) <= Rank(Internal)
        || Outranked(raw, Traced(f, s.detect(f.text)[k], 0))
  }

  /** The default policy, and budget findings may not simply be removed. */
  ghost predicate Defaults(policy: DataClass -> Action, removable: set<FindingType>) {
    (forall c :: policy(c) == DefaultPolicy(c)) && InspectionLimit !in removable
  }

  /** The executable decision, built on the real inspection and the real redaction.  Under the default policy a
      released text was inspected: each finding in each view reachable by any chain of decodings is kept as evidence
      or overruled, and what is released shows no source character that feeds a match above Internal. */
  method Evaluate(text: string, s: Scanner, policy: DataClass -> Action, declared: DataClass, confirmed: bool,
                  removable: set<FindingType>)
    returns (d: Decision, spans: seq<Span>, ghost seen: set<Face>, ghost raw: seq<Span>, ghost views: seq<View>)
    requires LawfulScanner(s)
    ensures d == Decide(text, spans, policy, declared, confirmed, removable)
    ensures InSource(spans, |text|)
    ensures |text| > MAX_SCAN_CHARACTERS ==> spans == [LimitSpan(Origin(0, |text|))]
    ensures |text| == 0 ==> spans == []
    ensures 0 < |text| <= MAX_SCAN_CHARACTERS ==> Examined(text, s, seen, raw, views) && spans == Disambiguate(raw)
    ensures Defaults(policy, removable) && d.output.Some? ==>
      && |text| <= MAX_SCAN_CHARACTERS
      && (|text| > 0 ==> forall chain, k :: FindingKept(text, s, raw, chain, k))
      && (forall y :: y in spans ==> FindingHidden(text, spans, d, removable, y))
      && var withheld := Withheld(spans, d.action, removable);
         && Survivors(d.output.value) == Uncovered(text, withheld, 0)
         && (|text| > 0 ==> forall chain, k, m, p :: MatchHidden(text, s, raw, withheld, chain, k, m, p))
  {
    spans, seen, raw, views := DetectSpans(text, s);
    var inferred := Inferred(spans, removable);
    var effective := if Rank(inferred) > Rank(declared) then inferred else declared;
    var action := policy(effective);
    if action.Confirm? && confirmed { action := Allow; }
    var output := Release(text, spans, action, removable);
    DecideUnfolds(text, spans, policy, declared, confirmed, removable, effective, action);
    d := Decision(action, effective, output);
    ReleaseIsSafe(text, s, policy, declared, confirmed, removable, d, spans, seen, raw, views);
  }

  /** Only the policy's values matter. */
  lemma {:induction false} DecideByValues(text: string, spans: seq<Span>, policy: DataClass -> Action,
                                          declared: DataClass, confirmed: bool, removable: set<FindingType>)
    requires forall c :: policy(c) == DefaultPolicy(c)
    ensures Decide(text, spans, policy, declared, confirmed, removable)
         == Decide(text, spans, DefaultPolicy, declared, confirmed, removable)
  {
  }

  lemma {:induction false} ReleaseIsSafe(
    text: string, s: Scanner, policy: DataClass -> Action, declared: DataClass, confirmed: bool,
    removable: set<FindingType>, d: Decision, spans: seq<Span>, seen: set<Face>, raw: seq<Span>, views: seq<View>)
    requires LawfulScanner(s) && InSource(spans, |text|)
    requires d == Decide(text, spans, policy, declared, confirmed, removable)
    requires |text| > MAX_SCAN_CHARACTERS ==> spans == [LimitSpan(Origin(0, |text|))]
    requires 0 < |text| <= MAX_SCAN_CHARACTERS ==> Examined(text, s, seen, raw, views) && spans == Disambiguate(raw)
    ensures Defaults(policy, removable) && d.output.Some? ==>
      && |text| <= MAX_SCAN_CHARACTERS
      && (|text| > 0 ==> forall chain, k :: FindingKept(text, s, raw, chain, k))
      && (forall y :: y in spans ==> FindingHidden(text, spans, d, removable, y))
      && var withheld := Withheld(spans, d.action, removable);
         && Survivors(d.output.value) == Uncovered(text, withheld, 0)
         && (|text| > 0 ==> forall chain, k, m, p :: MatchHidden(text, s, raw, withheld, chain, k, m, p))
  {
    if Defaults(policy, removable) && d.output.Some? {
      DecideByValues(text, spans, policy, declared, confirmed, removable);
      if |text| > MAX_SCAN_CHARACTERS {
        assert spans[0] in spans;
        BudgetFailsClosed(text, spans, declared, confirmed, removable, spans[0]);
      }
      forall y | y in spans ensures FindingHidden(text, spans, d, removable, y) {
        ReleasedTextHidesFindings(text, spans, declared, confirmed, removable, y);
      }
      if |text| > 0 {
        assert RootFace(text) in seen by { assert views[0] in views; }
        forall chain: seq<Face>, k: nat ensures FindingKept(text, s, raw, chain, k) {
          if |chain| > 0 && chain[0] == RootFace(text) && Chain(chain, s.codec) {
            EveryReachableViewIsAccountedFor(chain, seen, raw, s, |text|);
            if k < |s.detect(chain[|chain| - 1].text)| {
              ReleaseMeansInspected(text, s, seen, raw, declared, confirmed, removable, chain, k);
            }
          }
        }
        forall chain: seq<Face>, k: nat, m: nat, p: int
          ensures MatchHidden(text, s, raw, Withheld(spans, d.action, removable), chain, k, m, p)
        {
          assert FindingKept(text, s, raw, chain, k);
          MatchIsHidden(text, s, raw, spans, d, removable, chain, k, m, p);
        }
      }
      OnlyUncoveredSurvive(text, Withheld(spans, d.action, removable), 0);
    }
  }

  /** A kept finding that is hidden hides what feeds it. */
  lemma {:induction false} MatchIsHidden(text: string, s: Scanner, raw: seq<Span>, spans: seq<Span>, d: Decision,
                                         removable: set<FindingType>, chain: seq<Face>, k: nat, m: nat, p: int)
    requires LawfulScanner(s) && d.output.Some? && spans == Disambiguate(raw) && FindingKept(text, s, raw, chain, k)
    requires forall y :: y in spans ==> FindingHidden(text, spans, d, removable, y)
    ensures MatchHidden(text, s, raw, Withheld(spans, d.action, removable), chain, k, m, p)
  {
    if |chain| > 0 && chain[0] == RootFace(text) && Chain(chain, s.codec) {
      var f := chain[|chain| - 1];
      if k < |s.detect(f.text)| && Feeds(f, s.detect(f.text)[k], m, p) {
        var found := s.detect(f.text)[k];
        TracedHoldsMatch(f, found, 0, |text|, m);
        var y :| y in raw && SameEvidence(y, Traced(f, found, 0)) && (y in spans || Outranked(raw, y));
        if y in spans { assert FindingHidden(text, spans, d, removable, y); }
      }
    }
  }

  /** The text that leaves under an action, if any. */
  method Release(text: string, spans: seq<Span>, action: Action, removable: set<FindingType>)
    returns (output: Option<seq<Piece>>)
    requires InSource(spans, |text|)
    ensures output ==
      if action.Allow? || action.Redact? then Some(Reference(text, Withheld(spans, action, removable), 0)) else None
  {
    if action.Allow? || action.Redact? {
      var pieces := RedactSpans(text, Withheld(spans, action, removable));
      return Some(pieces);
    }
    return None;
  }

  /** A caller's label and a finding can only raise the class, and nothing else does. */
  lemma ClassOnlyRises(text: string, spans: seq<Span>, policy: DataClass -> Action, declared: DataClass,
                       confirmed: bool, removable: set<FindingType>)
    ensures var e := Decide(text, spans, policy, declared, confirmed, removable).effective;
      && Rank(declared) <= Rank(e)
      && (forall x :: x in spans && x.kind !in removable ==> Rank(x.level) <= Rank(e))
      && (e == declared || exists x :: x in spans && x.kind !in removable && x.level == e)
  {
  }

  /** Under the default policy an exhausted inspection budget releases nothing. */
  lemma BudgetFailsClosed(text: string, spans: seq<Span>, declared: DataClass, confirmed: bool,
                          removable: set<FindingType>, x: Span)
    requires x in spans && x.kind.InspectionLimit? && x.level.HighlyConfidential? && InspectionLimit !in removable
    ensures Decide(text, spans, DefaultPolicy, declared, confirmed, removable).output.None?
  {
    ClassOnlyRises(text, spans, DefaultPolicy, declared, confirmed, removable);
  }

  lemma DisambiguateKeepsLimits(raw: seq<Span>, x: Span)
    requires x in raw && x.kind.InspectionLimit? && x.start < x.end
    ensures x in Disambiguate(raw)
  {
  }

  /** End to end: if anything is released under the default policy, every view reachable by any chain of
      decodings was inspected, and each of its findings is either kept as evidence or was a phone shape
      overruled by tax-id evidence. */
  lemma ReleaseMeansInspected(text: string, s: Scanner, seen: set<Face>, raw: seq<Span>, declared: DataClass,
                              confirmed: bool, removable: set<FindingType>, views: seq<Face>, k: nat)
    requires LawfulScanner(s) && |text| > 0 && Progress(seen, [], raw, s, |text|) && RootFace(text) in seen
    requires InspectionLimit !in removable
    requires Decide(text, Disambiguate(raw), DefaultPolicy, declared, confirmed, removable).output.Some?
    requires |views| > 0 && views[0] == RootFace(text) && Chain(views, s.codec)
    requires k < |s.detect(views[|views| - 1].text)|
    ensures var f := views[|views| - 1];
      WellFormed(f, |text|) && |f.text| > 0
    ensures var f := views[|views| - 1];
      exists y :: y in raw && SameEvidence(y, Traced(f, s.detect(f.text)[k], 0))
                  && (y in Disambiguate(raw) || Outranked(raw, y))
  {
    EveryReachableViewIsAccountedFor(views, seen, raw, s, |text|);
    var f := views[|views| - 1];
    if Limited(f, raw) {
      var x :| x in raw && x.kind.InspectionLimit? && x.level.HighlyConfidential?
               && x.start <= Range(f).start && Range(f).end <= x.end;
      assert x.start < x.end;
      DisambiguateKeepsLimits(raw, x);
      BudgetFailsClosed(text, Disambiguate(raw), declared, confirmed, removable, x);
    }
    assert Reports(raw, Traced(f, s.detect(f.text)[k], 0));
  }

  /** What is released under the default policy withholds every finding above Internal. */
  lemma {:induction false} WithheldOrInternal(text: string, spans: seq<Span>, declared: DataClass, confirmed: bool,
                                              removable: set<FindingType>, y: Span)
    requires y in spans && Decide(text, spans, DefaultPolicy, declared, confirmed, removable).output.Some?
    ensures y in Withheld(spans, Decide(text, spans, DefaultPolicy, declared, confirmed, removable).action, removable)
         || Rank(y.level) <= Rank(Internal)
  {
    ClassOnlyRises(text, spans, DefaultPolicy, declared, confirmed, removable);
  }

  lemma MemberIsCovered(withheld: seq<Span>, y: Span)
    requires y in withheld
    ensures forall i :: y.start <= i < y.end ==> Covered(withheld, i)
  {
    forall i | y.start <= i < y.end ensures Covered(withheld, i) { assert Covers(y, i); }
  }

  /** Nothing of a retained finding leaks: where a released text does not withhold it, its class is at
      most Internal; where it does, none of its characters is among the uncovered ones that survive. */
  lemma {:induction false} ReleasedTextHidesFindings(text: string, spans: seq<Span>, declared: DataClass,
                                                     confirmed: bool, removable: set<FindingType>, y: Span)
    requires InSource(spans, |text|) && y in spans
    requires Decide(text, spans, DefaultPolicy, declared, confirmed, removable).output.Some?
    ensures var d := Decide(text, spans, DefaultPolicy, declared, confirmed, removable);
      var withheld := Withheld(spans, d.action, removable);
      && Survivors(d.output.value) == Uncovered(text, withheld, 0)
      && (y in withheld || Rank(y.level) <= Rank(Internal))
      && (y in withheld ==> forall i :: y.start <= i < y.end ==> Covered(withheld, i))
  {
    var d := Decide(text, spans, DefaultPolicy, declared, confirmed, removable);
    var withheld := Withheld(spans, d.action, removable);
    OnlyUncoveredSurvive(text, withheld, 0);
    WithheldOrInternal(text, spans, declared, confirmed, removable, y);
    if y in withheld { MemberIsCovered(withheld, y); }
  }
}
