/** Decoded views of src/app/dlp.py and the origin maps they carry back to the source text.
    Regular expressions, byte decoding and Unicode normalisation are parameters. */
module DlpViews {
  import opened Prelude

  /** The half-open source range one decoded character came from. */
  datatype Origin = Origin(start: nat, end: nat)

  /** What identifies a view: its text and, for each character, its origin. */
  datatype Face = Face(text: string, origins: seq<Origin>)

  datatype View = View(face: Face, depth: nat)

  /** One regular-expression match and what its raw text decodes to, if anything. */
  datatype Match = Match(start: nat, end: nat, decoded: Option<string>)

  /** The foreign parts: percent runs and HTML entities, Base64 tokens, NFKC normalisation. */
  datatype Codec = Codec(escapes: (bool, string) -> seq<Match>, blocks: string -> seq<Match>,
                         normalize: string -> string)

  /** `finditer` yields nonempty matches inside the text, left to right without overlap. */
  predicate Scan(ms: seq<Match>, length: nat) {
    && (forall i :: 0 <= i < |ms| ==> ms[i].start < ms[i].end <= length)
    && (forall i, j :: 0 <= i < j < |ms| ==> ms[i].end <= ms[j].start)
  }

  ghost predicate Lawful(codec: Codec) {
    && codec.normalize("") == ""
    && (forall entities, text :: Scan(codec.escapes(entities, text), |text|))
    && (forall text :: Scan(codec.blocks(text), |text|))
  }

  /** Starts and ends both never decrease. */
  predicate Ordered(os: seq<Origin>) {
    forall i, j :: 0 <= i <= j < |os| ==> os[i].start <= os[j].start && os[i].end <= os[j].end
  }

  /** One nonempty origin per character, inside the source, in order. */
  predicate WellFormed(f: Face, source: nat) {
    && |f.text| == |f.origins|
    && (forall i :: 0 <= i < |f.origins| ==> f.origins[i].start < f.origins[i].end <= source)
    && Ordered(f.origins)
  }

  function SourceSpan(f: Face, start: nat, end: nat): Origin
    requires start < end <= |f.origins|
  {
    Origin(f.origins[start].start, f.origins[end - 1].end)
  }

  /** The source range of a whole view. */
  function Range(f: Face): Origin
    requires |f.origins| > 0
  {
    SourceSpan(f, 0, |f.origins|)
  }

  predicate Changes(text: string, m: Match)
    requires m.start < m.end <= |text|
  {
    m.decoded.Some? && m.decoded.value != text[m.start..m.end]
  }

  /** The text with every changing match from `cursor` on replaced by its decoded form. */
  function SplicedText(f: Face, ms: seq<Match>, codec: Codec, cursor: nat): string
    requires Scan(ms, |f.text|) && cursor <= |f.text| && (|ms| > 0 ==> cursor <= ms[0].start)
    decreases |ms|
  {
    if |ms| == 0 then f.text[cursor..]
    else if Changes(f.text, ms[0]) then
      f.text[cursor..ms[0].start] + codec.normalize(ms[0].decoded.value) + SplicedText(f, ms[1..], codec, ms[0].end)
    else SplicedText(f, ms[1..], codec, cursor)
  }

  /** Its origins: a decoded character maps to the whole source of the match it came from. */
  function SplicedOrigins(f: Face, ms: seq<Match>, codec: Codec, cursor: nat): seq<Origin>
    requires Scan(ms, |f.text|) && |f.origins| == |f.text| && cursor <= |f.text| && (|ms| > 0 ==> cursor <= ms[0].start)
    decreases |ms|
  {
    if |ms| == 0 then f.origins[cursor..]
    else if Changes(f.text, ms[0]) then
      f.origins[cursor..ms[0].start]
        + Repeat(SourceSpan(f, ms[0].start, ms[0].end), |codec.normalize(ms[0].decoded.value)|)
        + SplicedOrigins(f, ms[1..], codec, ms[0].end)
    else SplicedOrigins(f, ms[1..], codec, cursor)
  }

  predicate AnyChange(f: Face, ms: seq<Match>)
    requires Scan(ms, |f.text|)
  {
    exists i :: 0 <= i < |ms| && Changes(f.text, ms[i])
  }

  /** `_decode_escapes`: when composition changes the spliced text again, the whole view's
      source range is used rather than a guessed narrower one. */
  function DecodeEscapes(f: Face, ms: seq<Match>, codec: Codec): Option<Face>
    requires Scan(ms, |f.text|) && |f.origins| == |f.text|
  {
    if !AnyChange(f, ms) then None
    else
      var text, origins := SplicedText(f, ms, codec, 0), SplicedOrigins(f, ms, codec, 0);
      var canonical := codec.normalize(text);
      if canonical == text then Some(Face(text, origins))
      else if |origins| == 0 then None
      else Some(Face(canonical, Repeat(Origin(origins[0].start, origins[|origins| - 1].end), |canonical|)))
  }

  /** Views made from Base64 tokens. */
  function DecodeBlocks(f: Face, ms: seq<Match>, codec: Codec): seq<Face>
    requires Scan(ms, |f.text|) && |f.origins| == |f.text|
    decreases |ms|
  {
    if |ms| == 0 then []
    else
      var rest := DecodeBlocks(f, ms[1..], codec);
      if ms[0].decoded.None? then rest
      else
        var text := codec.normalize(ms[0].decoded.value);
        if text == "" then rest
        else [Face(text, Repeat(SourceSpan(f, ms[0].start, ms[0].end), |text|))] + rest
  }

  /** `_decoded_views`. */
  function Decodings(f: Face, codec: Codec): seq<Face>
    requires Scan(codec.escapes(false, f.text), |f.text|) && Scan(codec.escapes(true, f.text), |f.text|)
    requires Scan(codec.blocks(f.text), |f.text|) && |f.origins| == |f.text|
  {
    Shown(DecodeEscapes(f, codec.escapes(false, f.text), codec))
      + Shown(DecodeEscapes(f, codec.escapes(true, f.text), codec))
      + DecodeBlocks(f, codec.blocks(f.text), codec)
  }

  function Shown(o: Option<Face>): seq<Face> {
    if o.Some? && o.value.text != "" then [o.value] else []
  }

  /** What one match contributes: the untouched stretch before it and its decoded form. */
  function PieceText(f: Face, m: Match, codec: Codec, cursor: nat): string
    requires cursor <= m.start < m.end <= |f.text|
  {
    if Changes(f.text, m) then f.text[cursor..m.start] + codec.normalize(m.decoded.value) else ""
  }

  function PieceOrigins(f: Face, m: Match, codec: Codec, cursor: nat): seq<Origin>
    requires cursor <= m.start < m.end <= |f.text| && |f.origins| == |f.text|
  {
    if Changes(f.text, m) then
      f.origins[cursor..m.start] + Repeat(SourceSpan(f, m.start, m.end), |codec.normalize(m.decoded.value)|)
    else []
  }

  /** What was emitted for the first `i` matches, and what is still due, make up the spliced view. */
  predicate Emitted(f: Face, ms: seq<Match>, i: nat, codec: Codec, cursor: nat, text: string, origins: seq<Origin>)
    requires Scan(ms, |f.text|) && |f.origins| == |f.text|
  {
    && i <= |ms| && cursor <= |f.text| && Scan(ms[i..], |f.text|) && (i < |ms| ==> cursor <= ms[i].start)
    && text + SplicedText(f, ms[i..], codec, cursor) == SplicedText(f, ms, codec, 0)
    && origins + SplicedOrigins(f, ms[i..], codec, cursor) == SplicedOrigins(f, ms, codec, 0)
  }

  lemma EmittedStart(f: Face, ms: seq<Match>, codec: Codec)
    requires Scan(ms, |f.text|) && |f.origins| == |f.text|
    ensures Emitted(f, ms, 0, codec, 0, "", [])
  {
    assert ms[0..] == ms;
  }

  function NextCursor(f: Face, m: Match, cursor: nat): nat
    requires m.start < m.end <= |f.text|
  {
    if Changes(f.text, m) then m.end else cursor
  }

  /** One turn of the splicing loop on the text. */
  lemma SpliceTurnText(f: Face, ms: seq<Match>, i: nat, codec: Codec, cursor: nat, text: string)
    requires Scan(ms, |f.text|) && i < |ms| && cursor <= ms[i].start && Scan(ms[i..], |f.text|)
    ensures Scan(ms[i + 1..], |f.text|)
    ensures var next := NextCursor(f, ms[i], cursor);
      && next <= |f.text| && (i + 1 < |ms| ==> next <= ms[i + 1].start)
      && text + SplicedText(f, ms[i..], codec, cursor)
         == (text + PieceText(f, ms[i], codec, cursor)) + SplicedText(f, ms[i + 1..], codec, next)
  {
    assert ms[i..][0] == ms[i] && ms[i..][1..] == ms[i + 1..];
    Associative(text, PieceText(f, ms[i], codec, cursor),
                SplicedText(f, ms[i + 1..], codec, NextCursor(f, ms[i], cursor)));
  }

  lemma SpliceTurnOrigins(f: Face, ms: seq<Match>, i: nat, codec: Codec, cursor: nat, origins: seq<Origin>)
    requires Scan(ms, |f.text|) && |f.origins| == |f.text| && i < |ms| && cursor <= ms[i].start
    requires Scan(ms[i..], |f.text|) && Scan(ms[i + 1..], |f.text|)
    requires i + 1 < |ms| ==> NextCursor(f, ms[i], cursor) <= ms[i + 1].start
    ensures origins + SplicedOrigins(f, ms[i..], codec, cursor)
         == (origins + PieceOrigins(f, ms[i], codec, cursor))
            + SplicedOrigins(f, ms[i + 1..], codec, NextCursor(f, ms[i], cursor))
  {
    assert ms[i..][0] == ms[i] && ms[i..][1..] == ms[i + 1..];
    Associative(origins, PieceOrigins(f, ms[i], codec, cursor),
                SplicedOrigins(f, ms[i + 1..], codec, NextCursor(f, ms[i], cursor)));
  }

  lemma EmittedTurn(f: Face, ms: seq<Match>, i: nat, codec: Codec, cursor: nat, text: string, origins: seq<Origin>)
    requires Scan(ms, |f.text|) && |f.origins| == |f.text| && i < |ms|
    requires Emitted(f, ms, i, codec, cursor, text, origins)
    ensures Emitted(f, ms, i + 1, codec, NextCursor(f, ms[i], cursor), text + PieceText(f, ms[i], codec, cursor),
                    origins + PieceOrigins(f, ms[i], codec, cursor))
  {
    SpliceTurnText(f, ms, i, codec, cursor, text);
    SpliceTurnOrigins(f, ms, i, codec, cursor, origins);
  }

  lemma EmittedSkip(f: Face, ms: seq<Match>, i: nat, codec: Codec, cursor: nat, text: string, origins: seq<Origin>)
    requires Scan(ms, |f.text|) && |f.origins| == |f.text| && i < |ms| && !Changes(f.text, ms[i])
    requires Emitted(f, ms, i, codec, cursor, text, origins)
    ensures Emitted(f, ms, i + 1, codec, cursor, text, origins)
  {
    EmittedTurn(f, ms, i, codec, cursor, text, origins);
    assert text + "" == text && origins + [] == origins;
  }

  lemma EmittedEnd(f: Face, ms: seq<Match>, codec: Codec, cursor: nat, text: string, origins: seq<Origin>)
    requires Scan(ms, |f.text|) && |f.origins| == |f.text| && Emitted(f, ms, |ms|, codec, cursor, text, origins)
    ensures cursor <= |f.text|
    ensures text + f.text[cursor..] == SplicedText(f, ms, codec, 0)
    ensures origins + f.origins[cursor..] == SplicedOrigins(f, ms, codec, 0)
  {
    assert ms[|ms|..] == [];
  }

  /** One of the first `i` matches decodes to something else. */
  predicate ChangedBefore(f: Face, ms: seq<Match>, i: nat)
    requires Scan(ms, |f.text|) && i <= |ms|
  {
    i > 0 && (ChangedBefore(f, ms, i - 1) || Changes(f.text, ms[i - 1]))
  }

  lemma {:induction false} ChangedBeforeIs(f: Face, ms: seq<Match>, i: nat)
    requires Scan(ms, |f.text|) && i <= |ms|
    ensures ChangedBefore(f, ms, i) <==> exists k :: 0 <= k < i && Changes(f.text, ms[k])
  {
    if i > 0 { ChangedBeforeIs(f, ms, i - 1); }
  }

  /** One match: what lies before it and its replacement, or nothing if it decodes to itself. */
  method SpliceMatch(f: Face, ms: seq<Match>, i: nat, codec: Codec, cursor0: nat, text0: string,
                     origins0: seq<Origin>)
    returns (cursor: nat, text: string, origins: seq<Origin>)
    requires Scan(ms, |f.text|) && |f.origins| == |f.text| && i < |ms|
    requires Emitted(f, ms, i, codec, cursor0, text0, origins0)
    ensures Emitted(f, ms, i + 1, codec, cursor, text, origins)
  {
    if !Changes(f.text, ms[i]) {
      EmittedSkip(f, ms, i, codec, cursor0, text0, origins0);
      return cursor0, text0, origins0;
    }
    EmittedTurn(f, ms, i, codec, cursor0, text0, origins0);
    text := text0 + PieceText(f, ms[i], codec, cursor0);
    origins := origins0 + PieceOrigins(f, ms[i], codec, cursor0);
    cursor := ms[i].end;
  }

  /** The loop of `_decode_escapes`: one pass over the matches with a running cursor. */
  method SpliceMatches(f: Face, ms: seq<Match>, codec: Codec)
    returns (text: string, origins: seq<Origin>, changed: bool)
    requires Scan(ms, |f.text|) && |f.origins| == |f.text|
    ensures changed == AnyChange(f, ms)
    ensures text == SplicedText(f, ms, codec, 0) && origins == SplicedOrigins(f, ms, codec, 0)
  {
    text, origins, changed := "", [], false;
    var cursor, i := 0, 0;
    EmittedStart(f, ms, codec);
    while i < |ms|
      invariant 0 <= i <= |ms| && 0 <= cursor && Emitted(f, ms, i, codec, cursor, text, origins)
      invariant changed == ChangedBefore(f, ms, i)
    {
      changed := changed || Changes(f.text, ms[i]);
      cursor, text, origins := SpliceMatch(f, ms, i, codec, cursor, text, origins);
      i := i + 1;
    }
    ChangedBeforeIs(f, ms, |ms|);
    EmittedEnd(f, ms, codec, cursor, text, origins);
    text := text + f.text[cursor..];
    origins := origins + f.origins[cursor..];
  }

  // ---------------------------------------------------------------- origin maps stay well formed

  /** Every origin of `os` lies at or after `o`, on both ends. */
  predicate AtLeast(os: seq<Origin>, o: Origin) {
    forall i :: 0 <= i < |os| ==> o.start <= os[i].start && o.end <= os[i].end
  }

  predicate Within(os: seq<Origin>, r: Origin) {
    forall i :: 0 <= i < |os| ==> r.start <= os[i].start < os[i].end <= r.end
  }

  lemma OrderedJoin(a: seq<Origin>, b: seq<Origin>, pivot: Origin)
    requires Ordered(a) && Ordered(b) && AtLeast(b, pivot)
    requires forall i :: 0 <= i < |a| ==> a[i].start <= pivot.start && a[i].end <= pivot.end
    ensures Ordered(a + b)
  {
    var c := a + b;
    forall i, j | 0 <= i <= j < |c| ensures c[i].start <= c[j].start && c[i].end <= c[j].end {
      if i < |a| <= j { assert c[j] == b[j - |a|]; }
    }
  }

  /** Splicing keeps one origin per character. */
  lemma {:induction false} SplicedLengths(f: Face, ms: seq<Match>, codec: Codec, cursor: nat)
    requires Scan(ms, |f.text|) && |f.origins| == |f.text| && cursor <= |f.text| && (|ms| > 0 ==> cursor <= ms[0].start)
    ensures |SplicedText(f, ms, codec, cursor)| == |SplicedOrigins(f, ms, codec, cursor)|
    decreases |ms|
  {
    if |ms| > 0 {
      SplicedLengths(f, ms[1..], codec, if Changes(f.text, ms[0]) then ms[0].end else cursor);
    }
  }

  /** The origins of a match lie between those before and those after it. */
  lemma SpanBetween(f: Face, source: nat, m: Match, tail: seq<Origin>)
    requires WellFormed(f, source) && m.start < m.end <= |f.text|
    requires if m.end < |f.text| then AtLeast(tail, f.origins[m.end]) else tail == []
    ensures var span := SourceSpan(f, m.start, m.end);
      && AtLeast(tail, span) && Range(f).start <= span.start < span.end <= Range(f).end
      && (forall k :: 0 <= k < m.start ==> f.origins[k].start <= span.start && f.origins[k].end <= span.end)
  {
    if m.end < |f.text| {
      assert f.origins[m.end - 1].end <= f.origins[m.end].end;
      assert f.origins[m.start].start <= f.origins[m.end].start;
    }
    assert f.origins[m.start].end <= f.origins[m.end - 1].end;
  }

  lemma SpliceStep(f: Face, source: nat, cursor: nat, m: Match, n: nat, tail: seq<Origin>)
    requires WellFormed(f, source) && cursor <= m.start < m.end <= |f.text|
    requires Ordered(tail) && Within(tail, Range(f))
    requires if m.end < |f.text| then AtLeast(tail, f.origins[m.end]) else tail == []
    ensures var os := f.origins[cursor..m.start] + Repeat(SourceSpan(f, m.start, m.end), n) + tail;
      Ordered(os) && Within(os, Range(f)) && AtLeast(os, f.origins[cursor])
  {
    var span := SourceSpan(f, m.start, m.end);
    var head, mid := f.origins[cursor..m.start], Repeat(span, n);
    SpanBetween(f, source, m, tail);
    OrderedJoin(mid, tail, span);
    assert AtLeast(mid + tail, span);
    OrderedJoin(head, mid + tail, span);
    assert head + mid + tail == head + (mid + tail);
    assert Within(head, Range(f));
    assert AtLeast(head, f.origins[cursor]);
    assert f.origins[cursor].start <= span.start && f.origins[cursor].end <= span.end;
  }

  /** ... keeps them inside the view's source range, after the cursor's origin, and in order. */
  lemma {:induction false} SplicedOrdered(f: Face, ms: seq<Match>, codec: Codec, cursor: nat, source: nat)
    requires WellFormed(f, source) && |f.text| > 0
    requires Scan(ms, |f.text|) && cursor <= |f.text| && (|ms| > 0 ==> cursor <= ms[0].start)
    ensures var os := SplicedOrigins(f, ms, codec, cursor);
      Ordered(os) && Within(os, Range(f)) && (cursor < |f.text| ==> AtLeast(os, f.origins[cursor]))
    ensures cursor == |f.text| ==> SplicedOrigins(f, ms, codec, cursor) == []
    decreases |ms|
  {
    if |ms| > 0 {
      var m := ms[0];
      if Changes(f.text, m) {
        SplicedOrdered(f, ms[1..], codec, m.end, source);
        SpliceStep(f, source, cursor, m, |codec.normalize(m.decoded.value)|, SplicedOrigins(f, ms[1..], codec, m.end));
      } else {
        SplicedOrdered(f, ms[1..], codec, cursor, source);
      }
    }
  }

  /** A child view: well formed, nonempty, and its sources lie inside its parent's range. */
  predicate GoodChild(f: Face, g: Face, source: nat)
    requires |f.origins| > 0
  {
    WellFormed(g, source) && |g.text| > 0 && Within(g.origins, Range(f))
  }

  lemma EscapesGood(f: Face, ms: seq<Match>, codec: Codec, source: nat)
    requires WellFormed(f, source) && |f.text| > 0 && Scan(ms, |f.text|)
    ensures var r := DecodeEscapes(f, ms, codec); r.Some? && r.value.text != "" ==> GoodChild(f, r.value, source)
  {
    SplicedLengths(f, ms, codec, 0);
    SplicedOrdered(f, ms, codec, 0, source);
    var os := SplicedOrigins(f, ms, codec, 0);
    assert Range(f).end <= source;
    if |os| > 0 {
      assert os[0].start < os[|os| - 1].end by { assert os[0].end <= os[|os| - 1].end; }
    }
  }

  /** The defensive branch of DecodeEscapes is dead: splicing nothing normalises to nothing. */
  lemma EscapesDecodeWhenChanged(f: Face, ms: seq<Match>, codec: Codec)
    requires Scan(ms, |f.text|) && |f.origins| == |f.text| && codec.normalize("") == ""
    ensures DecodeEscapes(f, ms, codec).Some? <==> AnyChange(f, ms)
  {
    SplicedLengths(f, ms, codec, 0);
  }

  lemma {:induction false} BlocksGood(f: Face, ms: seq<Match>, codec: Codec, source: nat, g: Face)
    requires WellFormed(f, source) && |f.text| > 0 && Scan(ms, |f.text|) && g in DecodeBlocks(f, ms, codec)
    ensures GoodChild(f, g, source)
    decreases |ms|
  {
    if |ms| > 0 {
      if g in DecodeBlocks(f, ms[1..], codec) {
        BlocksGood(f, ms[1..], codec, source, g);
      } else {
        var span := SourceSpan(f, ms[0].start, ms[0].end);
        assert f.origins[ms[0].start].end <= f.origins[ms[0].end - 1].end;
        assert Range(f).start <= span.start < span.end <= Range(f).end;
      }
    }
  }

  /** Every decoding of a well-formed view is a good child. */
  lemma DecodingsGood(f: Face, codec: Codec, source: nat, g: Face)
    requires Lawful(codec) && WellFormed(f, source) && |f.text| > 0 && g in Decodings(f, codec)
    ensures GoodChild(f, g, source)
  {
    EscapesGood(f, codec.escapes(false, f.text), codec, source);
    EscapesGood(f, codec.escapes(true, f.text), codec, source);
    if g in DecodeBlocks(f, codec.blocks(f.text), codec) {
      BlocksGood(f, codec.blocks(f.text), codec, source, g);
    }
  }

  function RootFace(text: string): (f: Face)
    ensures WellFormed(f, |text|)
  {
    Face(text, seq(|text|, i requires i >= 0 => Origin(i, i + 1)))
  }

  /** Successive decodings, starting from `views[0]`. */
  ghost predicate Chain(views: seq<Face>, codec: Codec)
    requires Lawful(codec)
  {
    forall i :: 0 <= i < |views| - 1 ==>
      |views[i].origins| == |views[i].text| && views[i + 1] in Decodings(views[i], codec)
  }

  /** Along any chain of nested decodings the origin maps stay well formed and ranges only shrink. */
  lemma {:induction false} NestedDecodingsStayWellFormed(views: seq<Face>, codec: Codec, source: nat, i: nat)
    requires Lawful(codec) && i < |views| && WellFormed(views[0], source) && |views[0].text| > 0 && Chain(views, codec)
    ensures WellFormed(views[i], source) && |views[i].text| > 0 && Within(views[i].origins, Range(views[0]))
  {
    if i > 0 {
      NestedDecodingsStayWellFormed(views, codec, source, i - 1);
      DecodingsGood(views[i - 1], codec, source, views[i]);
    } else {
      var f := views[0];
      forall k | 0 <= k < |f.origins|
        ensures Range(f).start <= f.origins[k].start < f.origins[k].end <= Range(f).end {
      }
    }
  }
}
